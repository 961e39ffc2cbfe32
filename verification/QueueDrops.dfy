/**
 Dropping a job that a dispatcher has in hand: the dropper takes the waiter off the list and writes the
 status only afterwards, outside the lock, so the job may be started in between.
 */
module QueueDrops {
  import opened Wrappers
  import opened QueueModel
  import opened QueueSlots
  import opened QueueFifo
  import opened QueueSteps
  import opened QueueProgress

  /** The dispatcher has the job in hand and could commit it: picked, or in a snapshot with a free step. */
  ghost predicate CouldCommit(cfg: Config, pc: Thread, j: JobId) {
    match pc
    case Picked(_, x, _, _, _) => x == j
    case Snapped(q, x, snap, _) =>
      x == j && q in cfg && exists i :: 0 <= i < |cfg[q]| && Get(snap, cfg[q][i].alias) < cfg[q][i].Cap()
    case _ => false
  }

  ghost predicate InSomeHand(cfg: Config, s: State, j: JobId) {
    exists t :: 0 <= t < |s.threads| && CouldCommit(cfg, s.threads[t], j)
  }

  /** Off the list, not committed, and in nobody's hand. */
  ghost predicate Lost(cfg: Config, s: State, j: JobId) {
    Removed(s, j) && s.jobs[j].commits == 0 && !InSomeHand(cfg, s, j)
  }

  lemma MoverTakesInHand(cfg: Config, s: State, t: ThreadId, c: Choice, j: JobId)
    requires Basic(cfg, s) && Enabled(cfg, s, Go(t, c)) && Removed(s, j) && !CouldCommit(cfg, s.threads[t], j)
    ensures !CouldCommit(cfg, Step(cfg, s, s.threads[t], c).next, j)
  {
    assert ThreadOk(cfg, s, t, s.threads[t]);
    if s.threads[t].Snapped? {
      PickStepNames(cfg[s.threads[t].queue], s.threads[t].snap, c.routable);
    }
  }

  lemma StepKeepsLost(cfg: Config, s: State, a: Action, j: JobId)
    requires Basic(cfg, s) && Enabled(cfg, s, a) && Lost(cfg, s, j)
    ensures Lost(cfg, Apply(cfg, s, a), j)
  {
    var s' := Apply(cfg, s, a);
    StepEvolves(cfg, s, a);
    assert JobEvolves(s.jobs[j], s'.jobs[j]);
    if a.Go? {
      assert ThreadOk(cfg, s, a.thread, s.threads[a.thread]);
      assert !CouldCommit(cfg, s.threads[a.thread], j);
      MoverTakesInHand(cfg, s, a.thread, a.choice, j);
    }
    forall u | 0 <= u < |s'.threads|
      ensures !CouldCommit(cfg, s'.threads[u], j)
    {
      if u < |s.threads| {
        assert !CouldCommit(cfg, s.threads[u], j);
      }
    }
  }

  lemma {:induction false} LostForGood(cfg: Config, s: State, more: seq<Action>, s': State, j: JobId)
    requires ValidConfig(cfg) && Inv(cfg, s) && Lost(cfg, s, j) && Exec(cfg, s, more) == Some(s')
    ensures Inv(cfg, s') && Lost(cfg, s', j)
    decreases |more|
  {
    if more != [] {
      var before, a := more[..|more| - 1], more[|more| - 1];
      var mid := Exec(cfg, s, before).value;
      LostForGood(cfg, s, before, mid, j);
      StepKeepsInv(cfg, mid, a);
      StepKeepsLost(cfg, mid, a, j);
    }
  }

  /** A picked job that is still marked waiting can be committed. */
  lemma CommitPicked(cfg: Config, s: State, t: ThreadId, j: JobId) returns (more: seq<Action>, s': State)
    requires ValidConfig(cfg) && Inv(cfg, s) && t < |s.threads| && s.threads[t].Picked? && s.threads[t].job == j
    requires j < |s.jobs| && s.jobs[j].status == Waiting
    ensures Leads(cfg, s, more, s') && j < |s'.jobs| && s'.jobs[j].commits == 1
  {
    var pc := s.threads[t];
    assert ThreadOk(cfg, s, t, pc) && JobOk(s, j);
    var m1, s1 := FreeEnough(cfg, s, pc.model, pc.cap);
    CommitStep(cfg, s1, t, pc.queue, j, pc.model, pc.cap, pc.after);
    LeadsOn(cfg, s, m1, s1, Go(t, Plain));
    more, s' := m1 + [Go(t, Plain)], Apply(cfg, s1, Go(t, Plain));
  }

  /** So can one in a snapshot with a free step. */
  lemma CommitSnapped(cfg: Config, s: State, t: ThreadId, j: JobId) returns (more: seq<Action>, s': State)
    requires ValidConfig(cfg) && Inv(cfg, s) && t < |s.threads| && s.threads[t].Snapped?
    requires CouldCommit(cfg, s.threads[t], j) && j < |s.jobs| && s.jobs[j].status == Waiting
    ensures Leads(cfg, s, more, s') && j < |s'.jobs| && s'.jobs[j].commits == 1
  {
    var pc := s.threads[t];
    var i :| 0 <= i < |cfg[pc.queue]| && Get(pc.snap, cfg[pc.queue][i].alias) < cfg[pc.queue][i].Cap();
    var routable := {cfg[pc.queue][i].alias};
    var a := Go(t, Routes(routable));
    PickStepNames(cfg[pc.queue], pc.snap, routable);
    PickSlotStep(cfg, s, t, pc.queue, j, pc.snap, pc.after, routable);
    StepKeepsInv(cfg, s, a);
    LeadsOne(cfg, s, a);
    var mid, rest := Apply(cfg, s, a), [];
    rest, s' := CommitPicked(cfg, mid, t, j);
    LeadsJoin(cfg, s, [a], mid, rest, s');
    more := [a] + rest;
  }

  /**
   A waiter that a dropper has taken off the list, and not yet marked, can still be committed if and only if
   some dispatcher has it picked, or in a snapshot with a free step.
   */
  lemma RemovedStillCommitsIff(cfg: Config, run: seq<Action>, s: State, j: JobId)
    requires ValidConfig(cfg) && Reaches(cfg, run, s) && Removed(s, j) && s.jobs[j].status == Waiting
    ensures (exists more, s' :: Exec(cfg, s, more) == Some(s') && j < |s'.jobs| && s'.jobs[j].commits == 1)
       <==> InSomeHand(cfg, s, j)
  {
    Always(cfg, run, s);
    assert JobOk(s, j);
    if InSomeHand(cfg, s, j) {
      var t :| 0 <= t < |s.threads| && CouldCommit(cfg, s.threads[t], j);
      var more, s';
      if s.threads[t].Picked? {
        more, s' := CommitPicked(cfg, s, t, j);
      } else {
        more, s' := CommitSnapped(cfg, s, t, j);
      }
      assert Exec(cfg, s, more) == Some(s');
    } else {
      forall more, s' | Exec(cfg, s, more) == Some(s')
        ensures !(j < |s'.jobs| && s'.jobs[j].commits == 1)
      {
        LostForGood(cfg, s, more, s', j);
      }
    }
  }
}
