/** Single steps of the queue, each with the exact state it leaves, and runs made of them. */
module QueueSteps {
  import opened Wrappers
  import opened QueueModel
  import opened QueueSlots
  import opened QueueFifo

  // ---- runs from any state --------------------------------------------------------------------------

  ghost predicate NoArrival(run: seq<Action>) {
    forall i :: 0 <= i < |run| ==> !IsArrival(run[i])
  }

  /** The steps `run` lead from `s` to `s'`, and no job arrives on the way. */
  ghost predicate Leads(cfg: Config, s: State, run: seq<Action>, s': State) {
    Exec(cfg, s, run) == Some(s') && NoArrival(run)
  }

  lemma LeadsNowhere(cfg: Config, s: State)
    ensures Leads(cfg, s, [], s)
  {
  }

  lemma LeadsOne(cfg: Config, s: State, a: Action)
    requires Enabled(cfg, s, a) && !IsArrival(a)
    ensures Leads(cfg, s, [a], Apply(cfg, s, a))
  {
    ExecLast(cfg, s, [], a);
    assert [] + [a] == [a];
  }

  /** A run and another one from where it ends. */
  lemma {:induction false} ExecJoin(cfg: Config, s: State, a: seq<Action>, mid: State, b: seq<Action>)
    requires Exec(cfg, s, a) == Some(mid)
    ensures Exec(cfg, s, a + b) == Exec(cfg, mid, b)
    decreases |b|
  {
    if b == [] {
      assert a + b == a;
    } else {
      var front, last := b[..|b| - 1], b[|b| - 1];
      ExecJoin(cfg, s, a, mid, front);
      ExecLast(cfg, s, a + front, last);
      ExecLast(cfg, mid, front, last);
      assert a + front + [last] == a + b && front + [last] == b;
    }
  }

  lemma LeadsJoin(cfg: Config, s: State, a: seq<Action>, mid: State, b: seq<Action>, s': State)
    requires Leads(cfg, s, a, mid) && Leads(cfg, mid, b, s')
    ensures Leads(cfg, s, a + b, s')
  {
    ExecJoin(cfg, s, a, mid, b);
  }

  /** One more step. */
  lemma LeadsOn(cfg: Config, s: State, run: seq<Action>, mid: State, a: Action)
    requires Leads(cfg, s, run, mid) && Enabled(cfg, mid, a) && !IsArrival(a)
    ensures Leads(cfg, s, run + [a], Apply(cfg, mid, a))
  {
    LeadsOne(cfg, mid, a);
    LeadsJoin(cfg, s, run, mid, [a], Apply(cfg, mid, a));
  }

  // ---- the steps of a handler and a dispatcher --------------------------------------------------------

  /** The handler of a job registers the waiter. */
  lemma RegisterStep(cfg: Config, s: State, t: ThreadId, j: JobId)
    requires t < |s.threads| && s.threads[t] == Inserted(j) && j < |s.jobs|
    ensures Enabled(cfg, s, Go(t, Plain))
    ensures Apply(cfg, s, Go(t, Plain)) ==
      s.(jobs := s.jobs[j := s.jobs[j].(regMark := Some(|s.jobs|))], waiters := s.waiters + {j},
         threads := s.threads[t := Dispatch(s.jobs[j].queue, ToSelect(j))])
  {
  }

  lemma LoopStep(cfg: Config, s: State, t: ThreadId, q: QueueId, after: After)
    requires t < |s.threads| && s.threads[t] == Dispatch(q, after) && q in cfg
    ensures Enabled(cfg, s, Go(t, Plain))
    ensures Apply(cfg, s, Go(t, Plain)) == s.(threads := s.threads[t := Head(q, after)])
  {
  }

  /** A dispatcher takes its snapshot with `j` as the first waiting job. */
  lemma SnapshotStep(cfg: Config, s: State, t: ThreadId, q: QueueId, after: After, j: JobId)
    requires t < |s.threads| && s.threads[t] == Head(q, after) && q in cfg && IsWaiting(s, q, j)
    requires forall x: JobId :: IsWaiting(s, q, x) ==> s.jobs[j].seqNo <= s.jobs[x].seqNo
    ensures Enabled(cfg, s, Go(t, First(j)))
    ensures Apply(cfg, s, Go(t, First(j))) == s.(threads := s.threads[t := Snapped(q, j, s.inflight, after)])
  {
  }

  /** With no job waiting it leaves the loop. */
  lemma LeaveStep(cfg: Config, s: State, t: ThreadId, q: QueueId, after: After)
    requires t < |s.threads| && s.threads[t] == Head(q, after) && q in cfg
    requires forall x: JobId :: !IsWaiting(s, q, x)
    ensures Enabled(cfg, s, Go(t, Plain))
    ensures Apply(cfg, s, Go(t, Plain)) == s.(threads := s.threads[t := Resume(after)])
  {
  }

  /** It picks a step by its snapshot, or leaves the loop. */
  lemma PickSlotStep(cfg: Config, s: State, t: ThreadId, q: QueueId, j: JobId, snap: map<string, int>, after: After,
                     routable: set<string>)
    requires t < |s.threads| && s.threads[t] == Snapped(q, j, snap, after) && j < |s.jobs| && q in cfg
    ensures Enabled(cfg, s, Go(t, Routes(routable)))
    ensures Apply(cfg, s, Go(t, Routes(routable))) ==
      match PickStep(cfg[q], snap, routable)
      case None => s.(threads := s.threads[t := Resume(after)])
      case Some(st) => s.(threads := s.threads[t := Picked(q, j, st.alias, st.Cap(), after)])
  {
  }

  /** It commits the job. */
  lemma CommitStep(cfg: Config, s: State, t: ThreadId, q: QueueId, j: JobId, m: string, cap: int, after: After)
    requires t < |s.threads| && s.threads[t] == Picked(q, j, m, cap, after) && j < |s.jobs|
    requires s.jobs[j].status == Waiting && Get(s.inflight, m) < cap
    ensures Enabled(cfg, s, Go(t, Plain))
    ensures Apply(cfg, s, Go(t, Plain)) ==
      s.(jobs := s.jobs[j := s.jobs[j].(status := Running, model := m, commits := s.jobs[j].commits + 1)],
         inflight := s.inflight[m := Get(s.inflight, m) + 1], threads := s.threads[t := Committed(q, j, after)],
         started := if j in s.waiters then s.started + [j] else s.started)
  {
  }

  /** It finds the job gone or the slot taken, and starts over. */
  lemma StaleStep(cfg: Config, s: State, t: ThreadId, q: QueueId, j: JobId, m: string, cap: int, after: After)
    requires t < |s.threads| && s.threads[t] == Picked(q, j, m, cap, after) && j < |s.jobs|
    requires s.jobs[j].status != Waiting || Get(s.inflight, m) >= cap
    ensures Enabled(cfg, s, Go(t, Plain))
    ensures Apply(cfg, s, Go(t, Plain)) == s.(threads := s.threads[t := Head(q, after)])
  {
  }

  /** The row of a committed job says that it runs. */
  lemma RowStep(cfg: Config, s: State, t: ThreadId, q: QueueId, j: JobId, after: After)
    requires t < |s.threads| && s.threads[t] == Committed(q, j, after) && j < |s.jobs|
    ensures Enabled(cfg, s, Go(t, Plain))
    ensures Apply(cfg, s, Go(t, Plain)) ==
      s.(rows := if j in s.rows then s.rows[j := s.rows[j].(status := Running)] else s.rows,
         threads := s.threads[t := Spawning(q, j, after)])
  {
  }

  /** A worker takes over. */
  lemma SpawnStep(cfg: Config, s: State, t: ThreadId, q: QueueId, j: JobId, after: After)
    requires t < |s.threads| && s.threads[t] == Spawning(q, j, after) && j < |s.jobs|
    ensures Enabled(cfg, s, Go(t, Plain))
    ensures Apply(cfg, s, Go(t, Plain)) == s.(threads := s.threads[t := Head(q, after)] + [Forwarding(j)])
  {
  }

  // ---- the steps of a worker --------------------------------------------------------------------------

  /** It gets its answer. */
  lemma AnswerStep(cfg: Config, s: State, t: ThreadId, j: JobId)
    requires t < |s.threads| && s.threads[t] == Forwarding(j) && j < |s.jobs|
    ensures Enabled(cfg, s, Go(t, Outcome(true)))
    ensures Apply(cfg, s, Go(t, Outcome(true))) ==
      s.(jobs := s.jobs[j := s.jobs[j].(status := Done)], threads := s.threads[t := Finishing(j)])
  {
  }

  /** It gives its slot back and takes the waiter off the list. */
  lemma FreeStep(cfg: Config, s: State, t: ThreadId, j: JobId)
    requires t < |s.threads| && s.threads[t] == Finishing(j) && j < |s.jobs|
    requires s.jobs[j].model != "" && Get(s.inflight, s.jobs[j].model) > 0
    ensures Enabled(cfg, s, Go(t, Plain))
    ensures var m := s.jobs[j].model;
      Apply(cfg, s, Go(t, Plain)) ==
      s.(inflight := s.inflight[m := Get(s.inflight, m) - 1], waiters := s.waiters - {j},
         threads := s.threads[t := FinishRow(j)])
  {
  }

  lemma FinalRowStep(cfg: Config, s: State, t: ThreadId, j: JobId)
    requires t < |s.threads| && s.threads[t] == FinishRow(j) && j < |s.jobs|
    ensures Enabled(cfg, s, Go(t, Plain))
    ensures Apply(cfg, s, Go(t, Plain)) ==
      s.(rows := if j in s.rows then s.rows[j := s.rows[j].(status := s.jobs[j].status)] else s.rows,
         threads := s.threads[t := FinishClose(j)])
  {
  }

  /** It closes the channel and goes on to dispatch. */
  lemma CloseStep(cfg: Config, s: State, t: ThreadId, j: JobId)
    requires t < |s.threads| && s.threads[t] == FinishClose(j) && j < |s.jobs|
    ensures Enabled(cfg, s, Go(t, Plain))
    ensures Apply(cfg, s, Go(t, Plain)) ==
      s.(jobs := s.jobs[j := Complete(s.jobs[j])], threads := s.threads[t := Dispatch(s.jobs[j].queue, Return)])
  {
  }

  // ---- the steps of a handler that times out ----------------------------------------------------------

  lemma ExpireStep(cfg: Config, s: State, t: ThreadId, j: JobId)
    requires t < |s.threads| && s.threads[t] == Select(j) && j < |s.jobs|
    ensures Enabled(cfg, s, Go(t, Expired))
    ensures Apply(cfg, s, Go(t, Expired)) == s.(threads := s.threads[t := TimedOut(j)])
  {
  }

  /** It looks, under the lock, whether its job is still waiting. */
  lemma CheckStep(cfg: Config, s: State, t: ThreadId, j: JobId)
    requires t < |s.threads| && s.threads[t] == TimedOut(j) && j < |s.jobs|
    ensures Enabled(cfg, s, Go(t, Plain))
    ensures Apply(cfg, s, Go(t, Plain)) ==
      s.(threads := s.threads[t := if s.jobs[j].status == Waiting then DropLock(j) else AwaitDone(j)])
  {
  }

  // ---- the steps of a dropper -------------------------------------------------------------------------

  /** `dropWaiter` takes a listed waiter off the list. */
  lemma UnlistStep(cfg: Config, s: State, t: ThreadId, j: JobId)
    requires t < |s.threads| && s.threads[t] == DropLock(j) && j in s.waiters
    ensures Enabled(cfg, s, Go(t, Plain))
    ensures Apply(cfg, s, Go(t, Plain)) ==
      s.(waiters := s.waiters - {j}, threads := s.threads[t := DropMark(j)])
  {
  }

  /** Only then, outside the lock, it writes the status. */
  lemma MarkStep(cfg: Config, s: State, t: ThreadId, j: JobId)
    requires t < |s.threads| && s.threads[t] == DropMark(j) && j < |s.jobs|
    ensures Enabled(cfg, s, Go(t, Plain))
    ensures Apply(cfg, s, Go(t, Plain)) ==
      s.(jobs := s.jobs[j := s.jobs[j].(status := Dropped)], threads := s.threads[t := DropRow(j)])
  {
  }

  lemma DropRowStep(cfg: Config, s: State, t: ThreadId, j: JobId)
    requires t < |s.threads| && s.threads[t] == DropRow(j) && j < |s.jobs|
    ensures Enabled(cfg, s, Go(t, Plain))
    ensures Apply(cfg, s, Go(t, Plain)) ==
      s.(rows := if j in s.rows then s.rows[j := s.rows[j].(status := s.jobs[j].status)] else s.rows,
         threads := s.threads[t := DropClose(j)])
  {
  }

  lemma DropCloseStep(cfg: Config, s: State, t: ThreadId, j: JobId)
    requires t < |s.threads| && s.threads[t] == DropClose(j) && j < |s.jobs|
    ensures Enabled(cfg, s, Go(t, Plain))
    ensures Apply(cfg, s, Go(t, Plain)) ==
      s.(jobs := s.jobs[j := Complete(s.jobs[j])], threads := s.threads[t := Exited])
  {
  }
}
