/** A dispatcher that is awake does its work: run alone it commits a job of its queue within six steps. */
module QueueAwake {
  import opened Wrappers
  import opened QueueModel
  import opened QueueSlots
  import opened QueueFifo
  import opened QueueWakeup
  import opened QueueSteps

  lemma {:induction false} FirstOfSet(s: State, some: set<JobId>) returns (j: JobId)
    requires some != {} && forall x :: x in some ==> x < |s.jobs|
    ensures j in some && forall x :: x in some ==> s.jobs[j].seqNo <= s.jobs[x].seqNo
    decreases |some|
  {
    var x: JobId :| x in some;
    j := x;
    var rest := some - {x};
    if rest != {} {
      var y := FirstOfSet(s, rest);
      j := if s.jobs[x].seqNo <= s.jobs[y].seqNo then x else y;
    }
    assert forall z :: z in some <==> z == x || z in rest;
  }

  /** A waiting job with the smallest number, which a snapshot would take. */
  lemma FirstWaiting(s: State, q: QueueId) returns (j: JobId)
    requires HasWaiting(s, q)
    ensures IsWaiting(s, q, j) && forall x: JobId :: IsWaiting(s, q, x) ==> s.jobs[j].seqNo <= s.jobs[x].seqNo
  {
    var some := set x | x in s.waiters && IsWaiting(s, q, x);
    var w: JobId :| IsWaiting(s, q, w);
    assert w in some;
    j := FirstOfSet(s, some);
  }

  /** Own steps until an active dispatcher of `q` commits a job; six at most. */
  ghost function ToCommit(s: State, q: QueueId, pc: Thread): nat {
    match pc
    case Picked(_, j, m, cap, _) =>
      if j < |s.jobs| && s.jobs[j].status == Waiting && Get(s.inflight, m) < cap then 1 else 4
    case Snapped(_, j, snap, _) => if IsWaiting(s, q, j) && snap == s.inflight then 2 else 5
    case Head(_, _) => 3
    case Dispatch(_, _) => 4
    case Spawning(_, _, _) => 4
    case Committed(_, _, _) => 5
    case FinishClose(_) => 5
    case FinishRow(_) => 6
    case _ => 0
  }

  /** A waiting job of `q` has been committed. */
  ghost predicate CommitsOne(s: State, s': State, q: QueueId) {
    exists j :: 0 <= j < |s.jobs| && j < |s'.jobs| && s.jobs[j].queue == q && s.jobs[j].status == Waiting
                && s.jobs[j].commits == 0 && s'.jobs[j].commits == 1
  }

  /** There is work for the dispatcher `t` of `q`. */
  ghost predicate CanServe(cfg: Config, s: State, routable: set<string>, q: QueueId, t: ThreadId) {
    && HasWaiting(s, q) && HasFreeStep(cfg, q, s.inflight, routable)
    && t < |s.threads| && Active(cfg, s, routable, s.threads[t], q)
  }

  /** One step nearer, with the waiting jobs and the counters as they were. */
  ghost predicate Nearer(cfg: Config, s: State, s': State, routable: set<string>, q: QueueId, t: ThreadId)
    requires t < |s.threads|
  {
    && CanServe(cfg, s', routable, q, t) && ToCommit(s', q, s'.threads[t]) < ToCommit(s, q, s.threads[t])
    && |s'.jobs| == |s.jobs|
    && forall j :: 0 <= j < |s.jobs| && s'.jobs[j].status == Waiting ==> s'.jobs[j] == s.jobs[j]
  }

  lemma SameWork(cfg: Config, s: State, s': State, routable: set<string>, q: QueueId)
    requires HasWaiting(s, q) && HasFreeStep(cfg, q, s.inflight, routable)
    requires |s'.jobs| == |s.jobs| && s'.waiters == s.waiters && s'.inflight == s.inflight
    requires forall j :: 0 <= j < |s.jobs| && s.jobs[j].status == Waiting ==> s'.jobs[j] == s.jobs[j]
    ensures HasWaiting(s', q) && HasFreeStep(cfg, q, s'.inflight, routable)
  {
    var x: JobId :| IsWaiting(s, q, x);
    assert IsWaiting(s', q, x);
  }

  /** At the loop head it takes a fresh snapshot. */
  lemma HeadNearer(cfg: Config, s: State, routable: set<string>, q: QueueId, t: ThreadId) returns (c: Choice)
    requires CanServe(cfg, s, routable, q, t) && s.threads[t].Head?
    ensures !c.Routes? && Enabled(cfg, s, Go(t, c)) && Nearer(cfg, s, Apply(cfg, s, Go(t, c)), routable, q, t)
  {
    var j := FirstWaiting(s, q);
    c := First(j);
    SnapshotStep(cfg, s, t, q, s.threads[t].after, j);
    SameWork(cfg, s, Apply(cfg, s, Go(t, c)), routable, q);
  }

  /** With a snapshot it picks a step; a fresh snapshot gives one that is free. */
  lemma SnappedNearer(cfg: Config, s: State, routable: set<string>, q: QueueId, t: ThreadId)
    requires Basic(cfg, s) && CanServe(cfg, s, routable, q, t) && s.threads[t].Snapped?
    ensures Enabled(cfg, s, Go(t, Routes(routable)))
    ensures Nearer(cfg, s, Apply(cfg, s, Go(t, Routes(routable))), routable, q, t)
  {
    var pc := s.threads[t];
    assert ThreadOk(cfg, s, t, pc);
    PickStepNames(cfg[q], pc.snap, routable);
    PickSlotStep(cfg, s, t, q, pc.job, pc.snap, pc.after, routable);
    SameWork(cfg, s, Apply(cfg, s, Go(t, Routes(routable))), routable, q);
  }

  /** A pick is committed, or it is stale and the dispatcher starts over. */
  lemma PickedNearer(cfg: Config, s: State, routable: set<string>, q: QueueId, t: ThreadId)
    requires Basic(cfg, s) && CanServe(cfg, s, routable, q, t) && s.threads[t].Picked?
    ensures Enabled(cfg, s, Go(t, Plain))
    ensures var s' := Apply(cfg, s, Go(t, Plain)); CommitsOne(s, s', q) || Nearer(cfg, s, s', routable, q, t)
  {
    var pc := s.threads[t];
    assert ThreadOk(cfg, s, t, pc) && JobOk(s, pc.job);
    if s.jobs[pc.job].status == Waiting && Get(s.inflight, pc.model) < pc.cap {
      CommitStep(cfg, s, t, q, pc.job, pc.model, pc.cap, pc.after);
      assert Apply(cfg, s, Go(t, Plain)).jobs[pc.job].commits == 1;
    } else {
      StaleStep(cfg, s, t, q, pc.job, pc.model, pc.cap, pc.after);
      SameWork(cfg, s, Apply(cfg, s, Go(t, Plain)), routable, q);
    }
  }

  /** A thread that has just finished a job comes nearer with every step. */
  lemma FinisherNearer(cfg: Config, s: State, routable: set<string>, q: QueueId, t: ThreadId)
    requires Basic(cfg, s) && CanServe(cfg, s, routable, q, t)
    requires s.threads[t].FinishRow? || s.threads[t].FinishClose?
    ensures Enabled(cfg, s, Go(t, Plain)) && Nearer(cfg, s, Apply(cfg, s, Go(t, Plain)), routable, q, t)
  {
    assert ThreadOk(cfg, s, t, s.threads[t]);
    if s.threads[t].FinishRow? {
      FinalRowStep(cfg, s, t, s.threads[t].job);
    } else {
      CloseStep(cfg, s, t, s.threads[t].job);
    }
    SameWork(cfg, s, Apply(cfg, s, Go(t, Plain)), routable, q);
  }

  /** So does a dispatcher on its way back to the loop. */
  lemma ReturningNearer(cfg: Config, s: State, routable: set<string>, q: QueueId, t: ThreadId)
    requires Basic(cfg, s) && CanServe(cfg, s, routable, q, t)
    requires s.threads[t].Dispatch? || s.threads[t].Committed? || s.threads[t].Spawning?
    ensures Enabled(cfg, s, Go(t, Plain)) && Nearer(cfg, s, Apply(cfg, s, Go(t, Plain)), routable, q, t)
  {
    assert ThreadOk(cfg, s, t, s.threads[t]);
    match s.threads[t] {
      case Dispatch(_, after) => LoopStep(cfg, s, t, q, after);
      case Committed(_, j, after) => RowStep(cfg, s, t, q, j, after);
      case Spawning(_, j, after) => SpawnStep(cfg, s, t, q, j, after);
    }
    SameWork(cfg, s, Apply(cfg, s, Go(t, Plain)), routable, q);
  }

  /** The steps are all this thread's own, and routes are as given. */
  ghost predicate Alone(more: seq<Action>, t: ThreadId, routable: set<string>) {
    forall i :: 0 <= i < |more| ==>
      more[i].Go? && more[i].thread == t && (more[i].choice.Routes? ==> more[i].choice.routable == routable)
  }

  lemma ActiveStep(cfg: Config, s: State, routable: set<string>, q: QueueId, t: ThreadId) returns (c: Choice)
    requires Basic(cfg, s) && CanServe(cfg, s, routable, q, t)
    ensures Enabled(cfg, s, Go(t, c)) && (c.Routes? ==> c.routable == routable)
    ensures var s' := Apply(cfg, s, Go(t, c)); CommitsOne(s, s', q) || Nearer(cfg, s, s', routable, q, t)
  {
    c := Plain;
    if s.threads[t].Head? {
      c := HeadNearer(cfg, s, routable, q, t);
    } else if s.threads[t].Snapped? {
      c := Routes(routable);
      SnappedNearer(cfg, s, routable, q, t);
    } else if s.threads[t].Picked? {
      PickedNearer(cfg, s, routable, q, t);
    } else if s.threads[t].FinishRow? || s.threads[t].FinishClose? {
      FinisherNearer(cfg, s, routable, q, t);
    } else {
      ReturningNearer(cfg, s, routable, q, t);
    }
  }

  /** Run alone, an active dispatcher of a queue with work commits a job of it within six steps. */
  lemma {:induction false} ActiveCommits(cfg: Config, s: State, routable: set<string>, q: QueueId, t: ThreadId)
    returns (more: seq<Action>, s': State)
    requires ValidConfig(cfg) && Inv(cfg, s) && CanServe(cfg, s, routable, q, t)
    ensures Exec(cfg, s, more) == Some(s') && Alone(more, t, routable) && CommitsOne(s, s', q)
    ensures 1 <= |more| <= ToCommit(s, q, s.threads[t]) <= 6
    decreases ToCommit(s, q, s.threads[t])
  {
    var c := ActiveStep(cfg, s, routable, q, t);
    var a, rest := Go(t, c), [];
    var mid := Apply(cfg, s, a);
    s' := mid;
    if !CommitsOne(s, mid, q) {
      StepKeepsInv(cfg, s, a);
      rest, s' := ActiveCommits(cfg, mid, routable, q, t);
    }
    more := [a] + rest;
    ExecFirst(cfg, s, a, rest);
  }

  /**
   No lost wakeup, to the end: in every reachable state a queue with a waiting job and a free routable step
   has a thread that commits a job of it within six own steps.
   */
  lemma WorkIsTaken(cfg: Config, run: seq<Action>, s: State, routable: set<string>, q: QueueId)
    returns (t: ThreadId, more: seq<Action>, s': State)
    requires ValidConfig(cfg) && Unshared(cfg) && FixedRoutes(run, routable) && Reaches(cfg, run, s)
    requires HasWaiting(s, q) && HasFreeStep(cfg, q, s.inflight, routable)
    ensures Exec(cfg, s, more) == Some(s') && Alone(more, t, routable) && |more| <= 6 && CommitsOne(s, s', q)
  {
    NoLostWakeup(cfg, run, s, routable);
    Always(cfg, run, s);
    t :| t < |s.threads| && Active(cfg, s, routable, s.threads[t], q);
    more, s' := ActiveCommits(cfg, s, routable, q, t);
  }
}
