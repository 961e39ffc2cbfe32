/**
 Runs of a queue with a single step: two whose starts do not follow their numbers, and one in which a job is
 started although its handler has given it up.
 */
module QueueRuns {
  import opened Wrappers
  import opened QueueModel
  import opened QueueFifo
  import opened QueueSteps

  function OneStep(q: QueueId, m: string, cap: int): Config {
    map[q := [QueueStep(m, cap)]]
  }

  lemma Extend(cfg: Config, run: seq<Action>, s: State, a: Action) returns (run': seq<Action>, s': State)
    requires Reaches(cfg, run, s) && Enabled(cfg, s, a)
    ensures run' == run + [a] && s' == Apply(cfg, s, a) && Reaches(cfg, run', s')
    ensures TopKept(cfg, run) && (IsArrival(a) ==> TopRowKept(s, a.queue)) ==> TopKept(cfg, run')
  {
    run', s' := run + [a], Apply(cfg, s, a);
    assert run'[..|run'| - 1] == run;
  }

  // ---- an arrival, and a start ----------------------------------------------------------------------

  /** A job arrives. */
  lemma Inserts(cfg: Config, run: seq<Action>, s: State, q: QueueId, n: nat) returns (run': seq<Action>, s': State)
    requires Reaches(cfg, run, s) && IsNextSeq(s.rows, q, n)
    ensures Reaches(cfg, run', s') && (TopKept(cfg, run) && TopRowKept(s, q) ==> TopKept(cfg, run'))
    ensures s' == s.(jobs := s.jobs + [Job(q, n, Waiting, "", false, |s.threads|, None, 0, 0)],
                     rows := s.rows[|s.jobs| := Row(q, n, Waiting)], threads := s.threads + [Inserted(|s.jobs|)])
  {
    run', s' := Extend(cfg, run, s, Insert(q, n));
  }

  /** A waiter is registered and its handler reaches the dispatch loop. */
  lemma Joins(q: QueueId, m: string, cap: int, run: seq<Action>, s: State, t: ThreadId, j: JobId)
    returns (run': seq<Action>, s': State)
    requires var cfg := OneStep(q, m, cap); Reaches(cfg, run, s)
    requires t < |s.threads| && s.threads[t] == Inserted(j) && j < |s.jobs| && s.jobs[j].queue == q
    ensures var cfg := OneStep(q, m, cap); Reaches(cfg, run', s') && (TopKept(cfg, run) ==> TopKept(cfg, run'))
    ensures s' == s.(jobs := s.jobs[j := s.jobs[j].(regMark := Some(|s.jobs|))], waiters := s.waiters + {j},
                     threads := s.threads[t := Head(q, ToSelect(j))])
  {
    var cfg := OneStep(q, m, cap);
    RegisterStep(cfg, s, t, j);
    run', s' := Extend(cfg, run, s, Go(t, Plain));
    LoopStep(cfg, s', t, q, ToSelect(j));
    run', s' := Extend(cfg, run', s', Go(t, Plain));
  }

  /** A dispatcher picks the only waiting job for the step, which is free. */
  lemma Picks(q: QueueId, m: string, cap: int, run: seq<Action>, s: State, t: ThreadId, j: JobId, after: After)
    returns (run': seq<Action>, s': State)
    requires var cfg := OneStep(q, m, cap); Reaches(cfg, run, s) && cap > 0 && Get(s.inflight, m) < cap
    requires t < |s.threads| && s.threads[t] == Head(q, after)
    requires IsWaiting(s, q, j) && forall x: JobId :: IsWaiting(s, q, x) ==> x == j
    ensures var cfg := OneStep(q, m, cap); Reaches(cfg, run', s') && (TopKept(cfg, run) ==> TopKept(cfg, run'))
    ensures s' == s.(threads := s.threads[t := Picked(q, j, m, cap, after)])
  {
    var cfg := OneStep(q, m, cap);
    SnapshotStep(cfg, s, t, q, after, j);
    run', s' := Extend(cfg, run, s, Go(t, First(j)));
    assert PickStep([QueueStep(m, cap)], s.inflight, {m}) == Some(QueueStep(m, cap));
    PickSlotStep(cfg, s', t, q, j, s.inflight, after, {m});
    run', s' := Extend(cfg, run', s', Go(t, Routes({m})));
  }

  /** The dispatcher takes the only waiting job, finds a free slot and commits. */
  lemma Start(q: QueueId, m: string, cap: int, run: seq<Action>, s: State, t: ThreadId, j: JobId)
    returns (run': seq<Action>, s': State)
    requires var cfg := OneStep(q, m, cap); Reaches(cfg, run, s) && cap > 0 && Get(s.inflight, m) < cap
    requires t < |s.threads| && s.threads[t] == Head(q, ToSelect(j))
    requires IsWaiting(s, q, j) && forall x: JobId :: IsWaiting(s, q, x) ==> x == j
    ensures var cfg := OneStep(q, m, cap); Reaches(cfg, run', s') && (TopKept(cfg, run) ==> TopKept(cfg, run'))
    ensures s' == s.(jobs := s.jobs[j := s.jobs[j].(status := Running, model := m, commits := s.jobs[j].commits + 1)],
                     inflight := s.inflight[m := Get(s.inflight, m) + 1],
                     threads := s.threads[t := Committed(q, j, ToSelect(j))], started := s.started + [j])
  {
    var cfg := OneStep(q, m, cap);
    run', s' := Picks(q, m, cap, run, s, t, j, ToSelect(j));
    CommitStep(cfg, s', t, q, j, m, cap, ToSelect(j));
    run', s' := Extend(cfg, run', s', Go(t, Plain));
  }

  // ---- a job comes and goes, and its row with it ------------------------------------------------------

  /** A job arrives at an idle queue, and its handler reaches the dispatch loop. */
  lemma Arrive(q: QueueId, m: string, run: seq<Action>, s: State) returns (run': seq<Action>, s': State)
    requires Reaches(OneStep(q, m, 1), run, s) && IsNextSeq(s.rows, q, 1) && s.waiters == {}
    ensures Reaches(OneStep(q, m, 1), run', s')
    ensures s' == State(s.jobs + [Job(q, 1, Waiting, "", false, |s.threads|, Some(|s.jobs| + 1), 0, 0)],
                        s.rows[|s.jobs| := Row(q, 1, Waiting)], {|s.jobs|}, s.inflight,
                        s.threads + [Head(q, ToSelect(|s.jobs|))], s.started)
  {
    run', s' := Inserts(OneStep(q, m, 1), run, s, q, 1);
    run', s' := Joins(q, m, 1, run', s', |s.threads|, |s.jobs|);
  }

  lemma SpawnFirst(q: QueueId, m: string, run: seq<Action>, s: State) returns (run': seq<Action>, s': State)
    requires Reaches(OneStep(q, m, 1), run, s)
    requires |s.jobs| == 1 && s.threads == [Committed(q, 0, ToSelect(0))] && s.rows == map[0 := Row(q, 1, Waiting)]
    ensures Reaches(OneStep(q, m, 1), run', s')
    ensures s' == s.(rows := map[0 := Row(q, 1, Running)], threads := [Head(q, ToSelect(0)), Forwarding(0)])
  {
    RowStep(OneStep(q, m, 1), s, 0, q, 0, ToSelect(0));
    run', s' := Extend(OneStep(q, m, 1), run, s, Go(0, Plain));
    SpawnStep(OneStep(q, m, 1), s', 0, q, 0, ToSelect(0));
    run', s' := Extend(OneStep(q, m, 1), run', s', Go(0, Plain));
  }

  /** The worker of job 0 runs and gives its slot back. */
  lemma FinishFirst(q: QueueId, m: string, run: seq<Action>, s: State) returns (run': seq<Action>, s': State)
    requires m != "" && Reaches(OneStep(q, m, 1), run, s)
    requires |s.jobs| == 1 && s.jobs[0].model == m && s.threads == [Head(q, ToSelect(0)), Forwarding(0)]
    requires s.waiters == {0} && s.inflight == map[m := 1]
    ensures Reaches(OneStep(q, m, 1), run', s')
    ensures s' == State([s.jobs[0].(status := Done)], s.rows, {}, map[m := 0],
                        [Head(q, ToSelect(0)), FinishRow(0)], s.started)
  {
    AnswerStep(OneStep(q, m, 1), s, 1, 0);
    run', s' := Extend(OneStep(q, m, 1), run, s, Go(1, Outcome(true)));
    FreeStep(OneStep(q, m, 1), s', 1, 0);
    run', s' := Extend(OneStep(q, m, 1), run', s', Go(1, Plain));
  }

  /** Its row becomes final and its channel is closed. */
  lemma CloseFirst(q: QueueId, m: string, run: seq<Action>, s: State) returns (run': seq<Action>, s': State)
    requires Reaches(OneStep(q, m, 1), run, s)
    requires |s.jobs| == 1 && s.jobs[0].status == Done && s.jobs[0].queue == q
    requires s.threads == [Head(q, ToSelect(0)), FinishRow(0)] && s.rows == map[0 := Row(q, 1, Running)]
    ensures Reaches(OneStep(q, m, 1), run', s')
    ensures s' == s.(jobs := [Complete(s.jobs[0])], rows := map[0 := Row(q, 1, Done)],
                     threads := [Head(q, ToSelect(0)), Dispatch(q, Return)])
  {
    var cfg := OneStep(q, m, 1);
    FinalRowStep(cfg, s, 1, 0);
    run', s' := Extend(cfg, run, s, Go(1, Plain));
    CloseStep(cfg, s', 1, 0);
    run', s' := Extend(cfg, run', s', Go(1, Plain));
  }

  /** It finds nothing more to dispatch. */
  lemma ExitFirst(q: QueueId, m: string, run: seq<Action>, s: State) returns (run': seq<Action>, s': State)
    requires Reaches(OneStep(q, m, 1), run, s)
    requires |s.jobs| == 1 && s.jobs[0].status == Done && s.jobs[0].queue == q && s.waiters == {}
    requires s.threads == [Head(q, ToSelect(0)), FinishRow(0)] && s.rows == map[0 := Row(q, 1, Running)]
    ensures Reaches(OneStep(q, m, 1), run', s')
    ensures s' == s.(jobs := [Complete(s.jobs[0])], rows := map[0 := Row(q, 1, Done)],
                     threads := [Head(q, ToSelect(0)), Exited])
  {
    var cfg := OneStep(q, m, 1);
    run', s' := CloseFirst(q, m, run, s);
    LoopStep(cfg, s', 1, q, Return);
    run', s' := Extend(cfg, run', s', Go(1, Plain));
    LeaveStep(cfg, s', 1, q, Return);
    run', s' := Extend(cfg, run', s', Go(1, Plain));
  }

  /** Its handler leaves the loop and answers; later the row is purged. */
  lemma PurgeFirst(q: QueueId, m: string, run: seq<Action>, s: State) returns (run': seq<Action>, s': State)
    requires Reaches(OneStep(q, m, 1), run, s)
    requires |s.jobs| == 1 && s.jobs[0].done && s.waiters == {}
    requires s.threads == [Head(q, ToSelect(0)), Exited] && s.rows == map[0 := Row(q, 1, Done)]
    ensures Reaches(OneStep(q, m, 1), run', s')
    ensures s' == s.(rows := map[], threads := [Exited, Exited])
  {
    var cfg := OneStep(q, m, 1);
    LeaveStep(cfg, s, 0, q, ToSelect(0));
    run', s' := Extend(cfg, run, s, Go(0, Plain));
    run', s' := Extend(cfg, run', s', Go(0, Woken));
    assert s' == s.(threads := [Exited, Exited]);
    run', s' := Extend(cfg, run', s', PurgeRows({0}));
  }

  lemma FirstJobRuns(q: QueueId, m: string) returns (run: seq<Action>, s: State)
    ensures Reaches(OneStep(q, m, 1), run, s)
    ensures s == State([Job(q, 1, Running, m, false, 0, Some(1), 1, 0)], map[0 := Row(q, 1, Running)], {0}, map[m := 1],
                       [Head(q, ToSelect(0)), Forwarding(0)], [0])
  {
    run, s := Arrive(q, m, [], Init());
    run, s := Start(q, m, 1, run, s, 0, 0);
    run, s := SpawnFirst(q, m, run, s);
  }

  lemma FirstJobComesAndGoes(q: QueueId, m: string) returns (run: seq<Action>, s: State)
    requires m != ""
    ensures Reaches(OneStep(q, m, 1), run, s)
    ensures s == State([Job(q, 1, Done, m, true, 0, Some(1), 1, 1)], map[], {}, map[m := 0], [Exited, Exited], [0])
  {
    run, s := FirstJobRuns(q, m);
    run, s := FinishFirst(q, m, run, s);
    run, s := ExitFirst(q, m, run, s);
    run, s := PurgeFirst(q, m, run, s);
  }

  /** A run that purges its only finished row, long after the job has ended, hands out the same number twice. */
  lemma PurgeRestartsNumbers(q: QueueId, m: string) returns (run: seq<Action>, s: State)
    requires m != ""
    ensures Reaches(OneStep(q, m, 1), run, s) && NumberedAtRegistration(s)
    ensures s.started == [0, 1] && |s.jobs| == 2 && s.jobs[0].queue == s.jobs[1].queue
    ensures s.jobs[0].seqNo == s.jobs[1].seqNo
  {
    run, s := FirstJobComesAndGoes(q, m);
    run, s := Arrive(q, m, run, s);
    run, s := Start(q, m, 1, run, s, 2, 1);
  }

  // ---- a late registration ----------------------------------------------------------------------------

  /** Two jobs arrive, numbered 1 and 2; neither is registered yet. */
  lemma TwoArrive(q: QueueId, m: string) returns (run: seq<Action>, s: State)
    ensures var cfg := OneStep(q, m, 2); Reaches(cfg, run, s) && TopKept(cfg, run)
    ensures |s.jobs| == 2 && s.threads == [Inserted(0), Inserted(1)] && s.waiters == {}
    ensures s.jobs[0] == Job(q, 1, Waiting, "", false, 0, None, 0, 0)
        && s.jobs[1] == Job(q, 2, Waiting, "", false, 1, None, 0, 0)
    ensures s.inflight == map[] && s.started == []
  {
    run, s := Inserts(OneStep(q, m, 2), [], Init(), q, 1);
    assert 0 in s.rows && s.rows[0] == Row(q, 1, Waiting);
    run, s := Inserts(OneStep(q, m, 2), run, s, q, 2);
  }

  /** The second of two arrivals is registered and started before the first: numbers fall although no row was purged. */
  lemma LateRegistrationStartsLate(q: QueueId, m: string) returns (run: seq<Action>, s: State)
    ensures var cfg := OneStep(q, m, 2); Reaches(cfg, run, s) && TopKept(cfg, run)
    ensures s.started == [1, 0] && |s.jobs| == 2 && s.jobs[0].queue == s.jobs[1].queue
    ensures s.jobs[0].seqNo < s.jobs[1].seqNo && !StartNumbersIncrease(s)
  {
    run, s := TwoArrive(q, m);
    run, s := Joins(q, m, 2, run, s, 1, 1);
    run, s := Start(q, m, 2, run, s, 1, 1);
    run, s := Joins(q, m, 2, run, s, 0, 0);
    run, s := Start(q, m, 2, run, s, 0, 0);
    assert s.started[0] == 1 && s.started[1] == 0;
  }

  // ---- a dropped job that runs ------------------------------------------------------------------------

  /** The handler of job 0 finds no route, leaves the loop and waits. */
  lemma HandlerLeavesLoop(q: QueueId, m: string) returns (run: seq<Action>, s: State)
    ensures Reaches(OneStep(q, m, 1), run, s)
    ensures s == State([Job(q, 1, Waiting, "", false, 0, Some(1), 0, 0)], map[0 := Row(q, 1, Waiting)], {0}, map[],
                       [Select(0)], [])
  {
    var cfg := OneStep(q, m, 1);
    run, s := Arrive(q, m, [], Init());
    SnapshotStep(cfg, s, 0, q, ToSelect(0), 0);
    run, s := Extend(cfg, run, s, Go(0, First(0)));
    assert PickStep([QueueStep(m, 1)], map[], {}) == None by {
      assert [QueueStep(m, 1)][1..] == [];
    }
    PickSlotStep(cfg, s, 0, q, 0, map[], ToSelect(0), {});
    run, s := Extend(cfg, run, s, Go(0, Routes({})));
  }

  /** A ticker's dispatcher comes to the loop. */
  lemma HandlerWaits(q: QueueId, m: string) returns (run: seq<Action>, s: State)
    ensures Reaches(OneStep(q, m, 1), run, s)
    ensures s == State([Job(q, 1, Waiting, "", false, 0, Some(1), 0, 0)], map[0 := Row(q, 1, Waiting)], {0}, map[],
                       [Select(0), Head(q, Return)], [])
  {
    var cfg := OneStep(q, m, 1);
    run, s := HandlerLeavesLoop(q, m);
    run, s := Extend(cfg, run, s, TickDispatch(q));
    LoopStep(cfg, s, 1, q, Return);
    run, s := Extend(cfg, run, s, Go(1, Plain));
  }

  /** The dispatcher picks the job; then the handler times out, and finds it still waiting. */
  lemma HandlerTimesOut(q: QueueId, m: string) returns (run: seq<Action>, s: State)
    ensures Reaches(OneStep(q, m, 1), run, s)
    ensures s == State([Job(q, 1, Waiting, "", false, 0, Some(1), 0, 0)], map[0 := Row(q, 1, Waiting)], {0}, map[],
                       [DropLock(0), Picked(q, 0, m, 1, Return)], [])
  {
    var cfg := OneStep(q, m, 1);
    run, s := HandlerWaits(q, m);
    run, s := Picks(q, m, 1, run, s, 1, 0, Return);
    ExpireStep(cfg, s, 0, 0);
    run, s := Extend(cfg, run, s, Go(0, Expired));
    CheckStep(cfg, s, 0, 0);
    run, s := Extend(cfg, run, s, Go(0, Plain));
  }

  /** It takes the waiter off the list. */
  lemma HandlerGivesUp(q: QueueId, m: string) returns (run: seq<Action>, s: State)
    ensures Reaches(OneStep(q, m, 1), run, s)
    ensures s == State([Job(q, 1, Waiting, "", false, 0, Some(1), 0, 0)], map[0 := Row(q, 1, Waiting)], {}, map[],
                       [DropMark(0), Picked(q, 0, m, 1, Return)], [])
  {
    var cfg := OneStep(q, m, 1);
    run, s := HandlerTimesOut(q, m);
    UnlistStep(cfg, s, 0, 0);
    run, s := Extend(cfg, run, s, Go(0, Plain));
  }

  /** Between that and the handler's write of the status the dispatcher commits the job and spawns a worker. */
  lemma WorkerStartsAllTheSame(q: QueueId, m: string) returns (run: seq<Action>, s: State)
    ensures Reaches(OneStep(q, m, 1), run, s)
    ensures s == State([Job(q, 1, Running, m, false, 0, Some(1), 1, 0)], map[0 := Row(q, 1, Running)], {}, map[m := 1],
                       [DropMark(0), Head(q, Return), Forwarding(0)], [])
  {
    var cfg := OneStep(q, m, 1);
    run, s := HandlerGivesUp(q, m);
    CommitStep(cfg, s, 1, q, 0, m, 1, Return);
    run, s := Extend(cfg, run, s, Go(1, Plain));
    RowStep(cfg, s, 1, q, 0, Return);
    run, s := Extend(cfg, run, s, Go(1, Plain));
    SpawnStep(cfg, s, 1, q, 0, Return);
    run, s := Extend(cfg, run, s, Go(1, Plain));
  }

  /**
   A dropped job may run: its handler has timed out, dropped it and gone, while its worker is still forwarding
   the request. In the source both write an answer to the client.
   */
  lemma DroppedJobRuns(q: QueueId, m: string) returns (run: seq<Action>, s: State)
    ensures Reaches(OneStep(q, m, 1), run, s)
    ensures s.threads == [Exited, Head(q, Return), Forwarding(0)]
    ensures |s.jobs| == 1 && s.jobs[0].status == Dropped && s.jobs[0].commits == 1 && s.jobs[0].done
  {
    var cfg := OneStep(q, m, 1);
    run, s := WorkerStartsAllTheSame(q, m);
    MarkStep(cfg, s, 0, 0);
    run, s := Extend(cfg, run, s, Go(0, Plain));
    DropRowStep(cfg, s, 0, 0);
    run, s := Extend(cfg, run, s, Go(0, Plain));
    DropCloseStep(cfg, s, 0, 0);
    run, s := Extend(cfg, run, s, Go(0, Plain));
  }
}
