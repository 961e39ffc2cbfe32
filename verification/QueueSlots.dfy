/**
 Slot conservation, the cap on every model, commit at most once, and no stranded handler,
 for every interleaving of the queue's threads.
 */
module QueueSlots {
  import opened Wrappers
  import opened QueueModel

  /** The program points between the commit of a job and the locked part of `finish`. */
  predicate InSlot(pc: Thread) {
    pc.Committed? || pc.Spawning? || pc.Forwarding? || pc.Finishing?
  }

  /** The thread is a worker, or a dispatcher about to start one, on model `m`. */
  ghost predicate HoldsSlot(s: State, t: ThreadId, m: string) {
    t < |s.threads| && InSlot(s.threads[t]) && s.threads[t].job < |s.jobs| && s.jobs[s.threads[t].job].model == m
  }

  ghost function Holders(s: State, m: string): set<ThreadId> {
    set t: ThreadId | t < |s.threads| && HoldsSlot(s, t, m)
  }

  ghost predicate SlotsCounted(s: State) {
    forall m :: Get(s.inflight, m) == |Holders(s, m)|
  }

  /** Some step of some queue names `m` and allows at least `n` jobs on it. */
  ghost predicate Allows(cfg: Config, m: string, n: int) {
    exists q, i :: q in cfg && 0 <= i < |cfg[q]| && cfg[q][i].alias == m && n <= cfg[q][i].Cap()
  }

  ghost predicate Capped(cfg: Config, s: State) {
    forall m :: Get(s.inflight, m) > 0 ==> Allows(cfg, m, Get(s.inflight, m))
  }

  /** Own steps left until the thread closes the channel of its job; zero when it owes no close. */
  function StepsToClose(pc: Thread): nat {
    match pc
    case Committed(_, _, _) => 6
    case Spawning(_, _, _) => 5
    case Forwarding(_) => 4
    case Finishing(_) => 3
    case FinishRow(_) => 2
    case FinishClose(_) => 1
    case DropMark(_) => 3
    case DropRow(_) => 2
    case DropClose(_) => 1
    case _ => 0
  }

  ghost predicate Closes(pc: Thread, j: JobId) {
    StepsToClose(pc) > 0 && pc.job == j
  }

  ghost predicate HasCloser(s: State, j: JobId) {
    exists t :: 0 <= t < |s.threads| && Closes(s.threads[t], j)
  }

  /** The job's handler can no longer be served from the waiting list. */
  ghost predicate Left(s: State, j: JobId) {
    Registered(s, j) && (j !in s.waiters || s.jobs[j].status != Waiting)
  }

  ghost predicate NotStranded(s: State) {
    forall j: JobId :: Left(s, j) ==> s.jobs[j].done || HasCloser(s, j)
  }

  ghost predicate Inv(cfg: Config, s: State) {
    Basic(cfg, s) && SlotsCounted(s) && Capped(cfg, s) && NotStranded(s)
  }

  // ---- slots ----------------------------------------------------------------------------------

  /** The step takes a slot. */
  ghost predicate Takes(s: State, pc: Thread) {
    && pc.Picked? && pc.job < |s.jobs|
    && s.jobs[pc.job].status == Waiting && Get(s.inflight, pc.model) < pc.cap
  }

  /** Threads that do not move hold the slots they held: their jobs keep their models. */
  lemma OtherHolders(cfg: Config, s: State, a: Action, u: ThreadId, m: string)
    requires Basic(cfg, s) && Enabled(cfg, s, a) && u < |s.threads| && (a.Go? ==> u != a.thread)
    ensures HoldsSlot(Apply(cfg, s, a), u, m) <==> HoldsSlot(s, u, m)
  {
    assert ThreadOk(cfg, s, u, s.threads[u]);
    StepEvolves(cfg, s, a);
  }

  /** The thread that moves takes a slot, gives one up, hands one over, or keeps what it has. */
  lemma MoverHolds(cfg: Config, s: State, t: ThreadId, c: Choice, m: string)
    requires Basic(cfg, s) && Enabled(cfg, s, Go(t, c))
    ensures var pc, s' := s.threads[t], Apply(cfg, s, Go(t, c));
      if Takes(s, pc) then !HoldsSlot(s, t, m) && (HoldsSlot(s', t, m) <==> m == pc.model)
      else if pc.Finishing? then !HoldsSlot(s', t, m) && (HoldsSlot(s, t, m) <==> m == s.jobs[pc.job].model)
      else if pc.Spawning? then !HoldsSlot(s', t, m) && (HoldsSlot(s', |s.threads|, m) <==> HoldsSlot(s, t, m))
      else (HoldsSlot(s', t, m) <==> HoldsSlot(s, t, m)) && |s'.threads| == |s.threads|
  {
    assert ThreadOk(cfg, s, t, s.threads[t]);
  }

  /** What a step of thread `t` does to the set of holders of `m`. */
  lemma HoldersStep(cfg: Config, s: State, t: ThreadId, c: Choice, m: string)
    requires Basic(cfg, s) && Enabled(cfg, s, Go(t, c))
    ensures var pc, now, then' := s.threads[t], Holders(s, m), Holders(Apply(cfg, s, Go(t, c)), m);
      if Takes(s, pc) then t !in now && then' == (if m == pc.model then now + {t} else now)
      else if pc.Finishing? then then' == now - {t} && (t in now <==> m == s.jobs[pc.job].model)
      else if pc.Spawning? then then' == (if t in now then now - {t} + {|s.threads|} else now)
      else then' == now
  {
    var a := Go(t, c);
    var s' := Apply(cfg, s, a);
    MoverHolds(cfg, s, t, c, m);
    forall u: ThreadId | u != t && u < |s.threads|
      ensures HoldsSlot(s', u, m) <==> HoldsSlot(s, u, m)
    {
      OtherHolders(cfg, s, a, u, m);
    }
    assert |s'.threads| == |s.threads| + (if s.threads[t].Spawning? then 1 else 0);
  }

  lemma HoldersEnvironment(cfg: Config, s: State, a: Action, m: string)
    requires Basic(cfg, s) && Enabled(cfg, s, a) && !a.Go?
    ensures Holders(Apply(cfg, s, a), m) == Holders(s, m)
  {
    forall u: ThreadId | u < |s.threads|
      ensures HoldsSlot(Apply(cfg, s, a), u, m) <==> HoldsSlot(s, u, m)
    {
      OtherHolders(cfg, s, a, u, m);
    }
  }

  /** A step takes one slot of a model, gives one back, or leaves its counter alone. */
  ghost function Change(s: State, pc: Thread, m: string): int {
    if Takes(s, pc) then (if m == pc.model then 1 else 0)
    else if pc.Finishing? && pc.job < |s.jobs| && m == s.jobs[pc.job].model then -1
    else 0
  }

  lemma InflightStep(cfg: Config, s: State, t: ThreadId, c: Choice, m: string)
    requires Basic(cfg, s) && SlotsCounted(s) && Enabled(cfg, s, Go(t, c))
    ensures Get(Apply(cfg, s, Go(t, c)).inflight, m) == Get(s.inflight, m) + Change(s, s.threads[t], m)
  {
    assert ThreadOk(cfg, s, t, s.threads[t]);
    if s.threads[t].Finishing? {
      FinisherHolds(cfg, s, t, c);
    }
  }

  lemma HoldersCount(cfg: Config, s: State, t: ThreadId, c: Choice, m: string)
    requires Basic(cfg, s) && Enabled(cfg, s, Go(t, c))
    ensures |Holders(Apply(cfg, s, Go(t, c)), m)| == |Holders(s, m)| + Change(s, s.threads[t], m)
  {
    assert ThreadOk(cfg, s, t, s.threads[t]);
    HoldersStep(cfg, s, t, c, m);
    assert |s.threads| !in Holders(s, m);
  }

  lemma CountStep(cfg: Config, s: State, t: ThreadId, c: Choice, m: string)
    requires Basic(cfg, s) && SlotsCounted(s) && Enabled(cfg, s, Go(t, c))
    ensures var s' := Apply(cfg, s, Go(t, c)); Get(s'.inflight, m) == |Holders(s', m)|
  {
    InflightStep(cfg, s, t, c, m);
    HoldersCount(cfg, s, t, c, m);
    assert Get(s.inflight, m) == |Holders(s, m)|;
  }

  /** A finishing worker holds a slot of its model, so there is one to give back. */
  lemma FinisherHolds(cfg: Config, s: State, t: ThreadId, c: Choice)
    requires Basic(cfg, s) && SlotsCounted(s) && Enabled(cfg, s, Go(t, c)) && s.threads[t].Finishing?
    ensures var model := s.jobs[s.threads[t].job].model; model != "" && Get(s.inflight, model) > 0
  {
    var model := s.jobs[s.threads[t].job].model;
    assert ThreadOk(cfg, s, t, s.threads[t]);
    assert t in Holders(s, model);
    assert Get(s.inflight, model) == |Holders(s, model)|;
  }

  lemma StepKeepsSlots(cfg: Config, s: State, a: Action)
    requires Basic(cfg, s) && SlotsCounted(s) && Enabled(cfg, s, a)
    ensures SlotsCounted(Apply(cfg, s, a))
  {
    var s' := Apply(cfg, s, a);
    forall m
      ensures Get(s'.inflight, m) == |Holders(s', m)|
    {
      if a.Go? {
        CountStep(cfg, s, a.thread, a.choice, m);
      } else {
        HoldersEnvironment(cfg, s, a, m);
      }
    }
  }

  lemma StepKeepsCap(cfg: Config, s: State, a: Action)
    requires Basic(cfg, s) && Capped(cfg, s) && Enabled(cfg, s, a)
    ensures Capped(cfg, Apply(cfg, s, a))
  {
    var s' := Apply(cfg, s, a);
    if a.Go? {
      assert ThreadOk(cfg, s, a.thread, s.threads[a.thread]);
    }
    forall m | Get(s'.inflight, m) > 0
      ensures Allows(cfg, m, Get(s'.inflight, m))
    {
      if Get(s.inflight, m) > 0 {
        assert Allows(cfg, m, Get(s.inflight, m));
      }
    }
  }

  // ---- no stranded handler --------------------------------------------------------------------

  lemma CloserMoves(cfg: Config, s: State, t: ThreadId, c: Choice, j: JobId)
    requires Basic(cfg, s) && Enabled(cfg, s, Go(t, c)) && Closes(s.threads[t], j)
    ensures var s' := Apply(cfg, s, Go(t, c)); j < |s'.jobs| && (s'.jobs[j].done || HasCloser(s', j))
    ensures StepsToClose(s.threads[t]) == 1 ==> Apply(cfg, s, Go(t, c)).jobs[j].done
  {
    var s' := Apply(cfg, s, Go(t, c));
    assert ThreadOk(cfg, s, t, s.threads[t]);
    if s.threads[t].Spawning? {
      assert Closes(s'.threads[|s.threads|], j);
    } else if StepsToClose(s.threads[t]) > 1 {
      assert Closes(s'.threads[t], j);
    }
  }

  /** The steps by which a job leaves the waiting list: a commit, and the take of a dropper. */
  lemma NewlyLeft(cfg: Config, s: State, a: Action, j: JobId)
    requires Basic(cfg, s) && Enabled(cfg, s, a)
    requires !Left(s, j) && Left(Apply(cfg, s, a), j)
    ensures HasCloser(Apply(cfg, s, a), j)
  {
    var s' := Apply(cfg, s, a);
    assert ThreadOk(cfg, s, a.thread, s.threads[a.thread]);
    assert Closes(s'.threads[a.thread], j);
  }

  lemma StepKeepsClosers(cfg: Config, s: State, a: Action)
    requires Basic(cfg, s) && NotStranded(s) && Enabled(cfg, s, a)
    ensures NotStranded(Apply(cfg, s, a))
  {
    var s' := Apply(cfg, s, a);
    StepEvolves(cfg, s, a);
    forall j: JobId | Left(s', j)
      ensures s'.jobs[j].done || HasCloser(s', j)
    {
      if !Left(s, j) {
        NewlyLeft(cfg, s, a, j);
      } else if !s.jobs[j].done {
        var t :| 0 <= t < |s.threads| && Closes(s.threads[t], j);
        if a.Go? && a.thread == t {
          CloserMoves(cfg, s, t, a.choice, j);
        } else {
          assert Closes(s'.threads[t], j);
        }
      }
    }
  }

  // ---- every run --------------------------------------------------------------------------------

  lemma StepKeepsInv(cfg: Config, s: State, a: Action)
    requires ValidConfig(cfg) && Inv(cfg, s) && Enabled(cfg, s, a)
    ensures Inv(cfg, Apply(cfg, s, a))
  {
    StepKeepsBasic(cfg, s, a);
    StepKeepsSlots(cfg, s, a);
    StepKeepsCap(cfg, s, a);
    StepKeepsClosers(cfg, s, a);
  }

  lemma {:induction false} Always(cfg: Config, run: seq<Action>, s: State)
    requires ValidConfig(cfg) && Reaches(cfg, run, s)
    ensures Inv(cfg, s)
    decreases |run|
  {
    if run == [] {
      assert forall m :: Holders(s, m) == {};
    } else {
      var before := run[..|run| - 1];
      var mid := Exec(cfg, Init(), before).value;
      Always(cfg, before, mid);
      StepKeepsInv(cfg, mid, run[|run| - 1]);
    }
  }

  /** In every reachable state the counters are the slots held, within the cap of some step. */
  lemma SlotConservation(cfg: Config, run: seq<Action>, s: State)
    requires ValidConfig(cfg) && Reaches(cfg, run, s)
    ensures forall m :: Get(s.inflight, m) == |Holders(s, m)|
    ensures forall m :: Get(s.inflight, m) > 0 ==> Allows(cfg, m, Get(s.inflight, m))
  {
    Always(cfg, run, s);
  }

  /** A dispatcher commits a job once at most, whatever happens to it in the meantime. */
  lemma CommittedOnce(cfg: Config, run: seq<Action>, s: State, j: JobId)
    requires ValidConfig(cfg) && Reaches(cfg, run, s) && j < |s.jobs|
    ensures s.jobs[j].commits <= 1
  {
    Always(cfg, run, s);
    assert JobOk(s, j);
  }

  /** The test `inflight > 0` in `finish` holds whenever it is evaluated. */
  lemma FinishGuardNeverNeeded(cfg: Config, run: seq<Action>, s: State, t: ThreadId)
    requires ValidConfig(cfg) && Reaches(cfg, run, s)
    requires t < |s.threads| && s.threads[t].Finishing? && Enabled(cfg, s, Go(t, Plain))
    ensures var m := s.jobs[s.threads[t].job].model;
      && m != "" && Get(s.inflight, m) > 0
      && Get(Apply(cfg, s, Go(t, Plain)).inflight, m) == Get(s.inflight, m) - 1
  {
    Always(cfg, run, s);
    FinisherHolds(cfg, s, t, Plain);
  }

  /** No handler is stranded, and its channel is closed at most once. */
  lemma NoStrandedHandler(cfg: Config, run: seq<Action>, s: State, j: JobId)
    requires ValidConfig(cfg) && Reaches(cfg, run, s) && Left(s, j)
    ensures s.jobs[j].done || HasCloser(s, j)
    ensures s.jobs[j].closes == if s.jobs[j].done then 1 else 0
  {
    Always(cfg, run, s);
    assert JobOk(s, j);
  }

  // ---- the closer really closes -----------------------------------------------------------------

  lemma ExecLast(cfg: Config, s: State, front: seq<Action>, last: Action)
    ensures Exec(cfg, s, front + [last]) ==
      match Exec(cfg, s, front)
      case None => None
      case Some(mid) => if Enabled(cfg, mid, last) then Some(Apply(cfg, mid, last)) else None
  {
    assert (front + [last])[..|front|] == front;
  }

  lemma {:induction false} ExecFirst(cfg: Config, s: State, a: Action, rest: seq<Action>)
    requires Enabled(cfg, s, a)
    ensures Exec(cfg, s, [a] + rest) == Exec(cfg, Apply(cfg, s, a), rest)
    decreases |rest|
  {
    if rest == [] {
      ExecLast(cfg, s, [], a);
      assert [] + [a] == [a] + rest;
    } else {
      var front, last := rest[..|rest| - 1], rest[|rest| - 1];
      ExecFirst(cfg, s, a, front);
      ExecLast(cfg, s, [a] + front, last);
      ExecLast(cfg, Apply(cfg, s, a), front, last);
      assert front + [last] == rest && [a] + front + [last] == [a] + rest;
    }
  }

  /** What a closer does next, and which thread owes the close after that. */
  function CloserAction(pc: Thread, t: ThreadId, ok: bool): Action {
    Go(t, if pc.Forwarding? then Outcome(ok) else Plain)
  }

  function NextCloser(s: State, t: ThreadId): ThreadId
    requires t < |s.threads|
  {
    if s.threads[t].Spawning? then |s.threads| else t
  }

  lemma CloserCanGo(cfg: Config, s: State, j: JobId, t: ThreadId, ok: bool)
    requires Basic(cfg, s) && t < |s.threads| && Closes(s.threads[t], j)
    ensures Enabled(cfg, s, CloserAction(s.threads[t], t, ok))
  {
    assert ThreadOk(cfg, s, t, s.threads[t]);
  }

  /** The step brings the close one step nearer, or is the close. */
  lemma CloserNearer(cfg: Config, s: State, j: JobId, t: ThreadId, ok: bool)
    requires Basic(cfg, s) && t < |s.threads| && Closes(s.threads[t], j)
    requires Enabled(cfg, s, CloserAction(s.threads[t], t, ok))
    ensures var s', u := Apply(cfg, s, CloserAction(s.threads[t], t, ok)), NextCloser(s, t);
      if StepsToClose(s.threads[t]) == 1 then j < |s'.jobs| && s'.jobs[j].done
      else u < |s'.threads| && Closes(s'.threads[u], j) && StepsToClose(s'.threads[u]) == StepsToClose(s.threads[t]) - 1
  {
    assert ThreadOk(cfg, s, t, s.threads[t]);
    CloserMoves(cfg, s, t, CloserAction(s.threads[t], t, ok).choice, j);
  }

  lemma CloserStep(cfg: Config, s: State, j: JobId, t: ThreadId, ok: bool)
    requires ValidConfig(cfg) && Inv(cfg, s) && t < |s.threads| && Closes(s.threads[t], j)
    ensures var a, u := CloserAction(s.threads[t], t, ok), NextCloser(s, t);
      && Enabled(cfg, s, a) && Inv(cfg, Apply(cfg, s, a))
      && var s' := Apply(cfg, s, a);
      if StepsToClose(s.threads[t]) == 1 then j < |s'.jobs| && s'.jobs[j].done
      else u < |s'.threads| && Closes(s'.threads[u], j) && StepsToClose(s'.threads[u]) == StepsToClose(s.threads[t]) - 1
  {
    CloserCanGo(cfg, s, j, t, ok);
    CloserNearer(cfg, s, j, t, ok);
    StepKeepsInv(cfg, s, CloserAction(s.threads[t], t, ok));
  }

  /** Run alone, the closer closes the channel within six steps, none of which can block. */
  lemma {:induction false} CloserCloses(cfg: Config, s: State, j: JobId, t: ThreadId, ok: bool)
    returns (run: seq<Action>, s': State)
    requires ValidConfig(cfg) && Inv(cfg, s) && t < |s.threads| && Closes(s.threads[t], j)
    ensures Exec(cfg, s, run) == Some(s')
    ensures 1 <= |run| <= StepsToClose(s.threads[t])
    ensures j < |s'.jobs| && s'.jobs[j].done
    decreases StepsToClose(s.threads[t])
  {
    var a := CloserAction(s.threads[t], t, ok);
    CloserStep(cfg, s, j, t, ok);
    var next, rest := Apply(cfg, s, a), [];
    s' := next;
    if StepsToClose(s.threads[t]) > 1 {
      rest, s' := CloserCloses(cfg, next, j, NextCloser(s, t), ok);
    }
    run := [a] + rest;
    ExecFirst(cfg, s, a, rest);
  }

  /** A handler blocked on `<-wt.done` can always be released. */
  lemma BlockedHandlerCanReturn(cfg: Config, run: seq<Action>, s: State, t: ThreadId, ok: bool)
    returns (more: seq<Action>, s': State)
    requires ValidConfig(cfg) && Reaches(cfg, run, s) && t < |s.threads| && s.threads[t].AwaitDone?
    ensures Exec(cfg, s, more) == Some(s') && |more| <= 6
    ensures s.threads[t].job < |s'.jobs| && s'.jobs[s.threads[t].job].done
  {
    Always(cfg, run, s);
    AwaiterLeft(cfg, s, t);
    var j := s.threads[t].job;
    if s.jobs[j].done {
      more, s' := [], s;
    } else {
      var u :| 0 <= u < |s.threads| && Closes(s.threads[u], j);
      more, s' := CloserCloses(cfg, s, j, u, ok);
    }
  }

  lemma AwaiterLeft(cfg: Config, s: State, t: ThreadId)
    requires Inv(cfg, s) && t < |s.threads| && s.threads[t].AwaitDone?
    ensures var j := s.threads[t].job; j < |s.jobs| && (s.jobs[j].done || HasCloser(s, j))
  {
    assert ThreadOk(cfg, s, t, s.threads[t]);
    assert Left(s, s.threads[t].job);
  }
}
