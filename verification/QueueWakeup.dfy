/**
 No lost wakeup. With a fixed configuration, fixed routes and no model shared between queues,
 a queue with a waiting job and a free routable step always has a dispatcher that will see it.
 Dispatchers that look at a stale snapshot and give up are not enough; the thread that freed
 the slot, or registered the job, still owes a dispatch.
 */
module QueueWakeup {
  import opened QueueModel
  import opened QueueSlots
  import opened QueueFifo

  ghost predicate Unshared(cfg: Config) {
    forall p, q, m :: p != q && Names(cfg, p, m) ==> !Names(cfg, q, m)
  }

  /** Every `TryRoute` in the run answers by the same set of models. */
  ghost predicate FixedRoutes(run: seq<Action>, routable: set<string>) {
    forall i :: 0 <= i < |run| && run[i].Go? && run[i].choice.Routes? ==> run[i].choice.routable == routable
  }

  ghost predicate HasWaiting(s: State, q: QueueId) {
    exists x: JobId :: IsWaiting(s, q, x)
  }

  ghost predicate HasFreeStep(cfg: Config, q: QueueId, counts: map<string, int>, routable: set<string>) {
    q in cfg && exists i ::
      0 <= i < |cfg[q]| && Get(counts, cfg[q][i].alias) < cfg[q][i].Cap() && cfg[q][i].alias in routable
  }

  /** A dispatcher of `q`: pending, at its loop head, holding a snapshot with a free step, or past its pick. */
  ghost predicate Active(cfg: Config, s: State, routable: set<string>, pc: Thread, q: QueueId) {
    match pc
    case Dispatch(p, _) => p == q
    case Head(p, _) => p == q
    case Snapped(p, _, snap, _) => p == q && HasFreeStep(cfg, q, snap, routable)
    case Picked(p, _, _, _, _) => p == q
    case Committed(p, _, _) => p == q
    case Spawning(p, _, _) => p == q
    case FinishRow(j) => j < |s.jobs| && s.jobs[j].queue == q
    case FinishClose(j) => j < |s.jobs| && s.jobs[j].queue == q
    case _ => false
  }

  ghost predicate HasDispatcher(cfg: Config, s: State, routable: set<string>, q: QueueId) {
    exists t :: 0 <= t < |s.threads| && Active(cfg, s, routable, s.threads[t], q)
  }

  ghost predicate Awake(cfg: Config, s: State, routable: set<string>) {
    forall q :: HasWaiting(s, q) && HasFreeStep(cfg, q, s.inflight, routable) ==> HasDispatcher(cfg, s, routable, q)
  }

  /** An active dispatcher stays active while there is work it can place. */
  lemma DispatcherMoves(cfg: Config, s: State, routable: set<string>, t: ThreadId, c: Choice, q: QueueId)
    requires Basic(cfg, s) && Enabled(cfg, s, Go(t, c)) && (c.Routes? ==> c.routable == routable)
    requires HasWaiting(s, q) && HasFreeStep(cfg, q, s.inflight, routable)
    requires Active(cfg, s, routable, s.threads[t], q)
    ensures HasDispatcher(cfg, Apply(cfg, s, Go(t, c)), routable, q)
  {
    var pc := s.threads[t];
    assert ThreadOk(cfg, s, t, pc);
    if pc.Snapped? {
      PickStepNames(cfg[q], pc.snap, routable);
    }
    assert Active(cfg, Apply(cfg, s, Go(t, c)), routable, Step(cfg, s, pc, c).next, q);
    assert Apply(cfg, s, Go(t, c)).threads[t] == Step(cfg, s, pc, c).next;
  }

  /** Only `finish` frees a slot, and it goes on to dispatch the queue whose step was freed. */
  lemma FreedByFinish(cfg: Config, s: State, routable: set<string>, a: Action, q: QueueId)
    requires Unshared(cfg) && Basic(cfg, s) && Enabled(cfg, s, a)
    requires !HasFreeStep(cfg, q, s.inflight, routable) && HasFreeStep(cfg, q, Apply(cfg, s, a).inflight, routable)
    ensures HasDispatcher(cfg, Apply(cfg, s, a), routable, q)
  {
    var s' := Apply(cfg, s, a);
    var i :| 0 <= i < |cfg[q]| && Get(s'.inflight, cfg[q][i].alias) < cfg[q][i].Cap() && cfg[q][i].alias in routable;
    assert Get(s'.inflight, cfg[q][i].alias) != Get(s.inflight, cfg[q][i].alias);
    var pc := s.threads[a.thread];
    assert ThreadOk(cfg, s, a.thread, pc);
    assert pc.Finishing? && s.jobs[pc.job].model == cfg[q][i].alias;
    assert Names(cfg, q, cfg[q][i].alias) && Names(cfg, s.jobs[pc.job].queue, cfg[q][i].alias);
    assert s'.threads[a.thread] == FinishRow(pc.job);
  }

  /** Only registration adds a waiting job, and the handler goes on to dispatch. */
  lemma JoinedByRegister(cfg: Config, s: State, routable: set<string>, a: Action, q: QueueId)
    requires Basic(cfg, s) && Enabled(cfg, s, a)
    requires !HasWaiting(s, q) && HasWaiting(Apply(cfg, s, a), q)
    ensures HasDispatcher(cfg, Apply(cfg, s, a), routable, q)
  {
    var s' := Apply(cfg, s, a);
    var x: JobId :| IsWaiting(s', q, x);
    assert !IsWaiting(s, q, x);
    StepEvolves(cfg, s, a);
    assert a.Go?;
    assert ThreadOk(cfg, s, a.thread, s.threads[a.thread]);
    assert s.threads[a.thread] == Inserted(x);
    assert s'.threads[a.thread] == Dispatch(q, ToSelect(x));
  }

  lemma StepKeepsAwake(cfg: Config, s: State, routable: set<string>, a: Action)
    requires Unshared(cfg) && Basic(cfg, s) && Enabled(cfg, s, a) && Awake(cfg, s, routable)
    requires a.Go? && a.choice.Routes? ==> a.choice.routable == routable
    ensures Awake(cfg, Apply(cfg, s, a), routable)
  {
    var s' := Apply(cfg, s, a);
    StepKeepsOldNumbers(cfg, s, a);
    forall q | HasWaiting(s', q) && HasFreeStep(cfg, q, s'.inflight, routable)
      ensures HasDispatcher(cfg, s', routable, q)
    {
      if !HasWaiting(s, q) {
        JoinedByRegister(cfg, s, routable, a, q);
      } else if !HasFreeStep(cfg, q, s.inflight, routable) {
        FreedByFinish(cfg, s, routable, a, q);
      } else {
        var t :| 0 <= t < |s.threads| && Active(cfg, s, routable, s.threads[t], q);
        if a.Go? && a.thread == t {
          DispatcherMoves(cfg, s, routable, t, a.choice, q);
        } else {
          assert Active(cfg, s', routable, s'.threads[t], q);
        }
      }
    }
  }

  /** In every reachable state a queue that could start a job has a dispatcher that is active. */
  lemma {:induction false} NoLostWakeup(cfg: Config, run: seq<Action>, s: State, routable: set<string>)
    requires ValidConfig(cfg) && Unshared(cfg) && FixedRoutes(run, routable) && Reaches(cfg, run, s)
    ensures Awake(cfg, s, routable)
    decreases |run|
  {
    if run != [] {
      var before, a := run[..|run| - 1], run[|run| - 1];
      var mid := Exec(cfg, Init(), before).value;
      NoLostWakeup(cfg, before, mid, routable);
      Always(cfg, before, mid);
      StepKeepsAwake(cfg, mid, routable, a);
    }
  }

  /** When the dispatchers have all gone, every queue is drained or every routable step is at its cap. */
  lemma QuietMeansDone(cfg: Config, run: seq<Action>, s: State, routable: set<string>, q: QueueId)
    requires ValidConfig(cfg) && Unshared(cfg) && FixedRoutes(run, routable) && Reaches(cfg, run, s)
    requires q in cfg && !HasDispatcher(cfg, s, routable, q)
    ensures || (forall x: JobId :: !IsWaiting(s, q, x))
            || (forall i :: 0 <= i < |cfg[q]| && cfg[q][i].alias in routable ==>
                  Get(s.inflight, cfg[q][i].alias) >= cfg[q][i].Cap())
  {
    NoLostWakeup(cfg, run, s, routable);
  }
}
