/**
 First in, first out. Dispatchers work from stale snapshots, so what they keep in hand must
 still be the oldest waiting job of its queue when they commit it. The order is that of
 arrival; the number a job carries follows it exactly while the newest row of the queue is
 kept, because the next number is the largest one still in the table plus one.
 */
module QueueFifo {
  import opened Wrappers
  import opened QueueModel
  import opened QueueSlots

  /** The job has not been committed, dropped or taken off the waiting list. */
  ghost predicate Live(s: State, j: JobId) {
    j < |s.jobs| && s.jobs[j].status == Waiting && (s.jobs[j].regMark == None || j in s.waiters)
  }

  ghost predicate RowsOk(s: State) {
    && (forall r :: r in s.rows ==>
          r < |s.jobs| && s.rows[r].queue == s.jobs[r].queue && s.rows[r].seqNo == s.jobs[r].seqNo)
    && (forall j: JobId :: Live(s, j) ==> j in s.rows && s.rows[j].status == Waiting)
    && (forall a, b :: a in s.rows && b in s.rows && a < b && s.rows[a].queue == s.rows[b].queue ==>
          s.rows[a].seqNo < s.rows[b].seqNo)
  }

  /** Every job of `j`'s queue that waits now was registered after `j` had arrived. */
  ghost predicate Oldest(s: State, q: QueueId, j: JobId) {
    forall x: JobId :: IsWaiting(s, q, x) && x != j ==> s.jobs[x].regMark.Some? && j < s.jobs[x].regMark.value
  }

  ghost predicate InHand(pc: Thread) {
    pc.Snapped? || pc.Picked?
  }

  ghost predicate HandsOk(s: State) {
    forall t :: 0 <= t < |s.threads| && InHand(s.threads[t]) ==> Oldest(s, s.threads[t].queue, s.threads[t].job)
  }

  ghost predicate HistoryOk(s: State) {
    && (forall i :: 0 <= i < |s.started| ==>
          && Registered(s, s.started[i]) && s.jobs[s.started[i]].status != Waiting
          && Oldest(s, s.jobs[s.started[i]].queue, s.started[i]))
    && (forall i, k :: 0 <= i < k < |s.started| ==> s.started[i] != s.started[k])
    && (forall i, k :: 0 <= i < k < |s.started| && s.jobs[s.started[i]].queue == s.jobs[s.started[k]].queue ==>
          s.started[i] < s.jobs[s.started[k]].regMark.value)
  }

  ghost predicate Fifo(cfg: Config, s: State) {
    Basic(cfg, s) && RowsOk(s) && HandsOk(s) && HistoryOk(s)
  }

  ghost predicate IsArrival(a: Action) {
    a.Insert? || a.InsertOverflow?
  }

  /** An arrival appends its job; no step changes the queue or the number of a job. */
  lemma StepKeepsOldNumbers(cfg: Config, s: State, a: Action)
    requires Basic(cfg, s) && Enabled(cfg, s, a)
    ensures var s' := Apply(cfg, s, a);
      if IsArrival(a) then
        |s'.jobs| == |s.jobs| + 1 && s'.jobs[..|s.jobs|] == s.jobs
        && s'.jobs[|s.jobs|].queue == a.queue && s'.jobs[|s.jobs|].seqNo == a.seqNo
      else
        |s'.jobs| == |s.jobs|
        && forall j :: 0 <= j < |s.jobs| ==> s'.jobs[j].queue == s.jobs[j].queue && s'.jobs[j].seqNo == s.jobs[j].seqNo
  {
    StepEvolves(cfg, s, a);
    assert forall j :: 0 <= j < |s.jobs| ==> JobEvolves(s.jobs[j], Apply(cfg, s, a).jobs[j]);
  }

  /** No step brings a job back to life. */
  lemma LiveBefore(cfg: Config, s: State, a: Action, j: JobId)
    requires Basic(cfg, s) && Enabled(cfg, s, a) && j < |s.jobs| && Live(Apply(cfg, s, a), j)
    ensures Live(s, j)
  {
    StepEvolves(cfg, s, a);
    assert JobEvolves(s.jobs[j], Apply(cfg, s, a).jobs[j]);
  }

  /** A thread rewrites the status of one row at most, and of a job that has left the list. */
  lemma RowsStep(cfg: Config, s: State, t: ThreadId, c: Choice)
    requires Basic(cfg, s) && Enabled(cfg, s, Go(t, c))
    ensures var rows' := Apply(cfg, s, Go(t, c)).rows;
      && rows'.Keys == s.rows.Keys
      && (forall r :: r in s.rows ==> rows'[r].queue == s.rows[r].queue && rows'[r].seqNo == s.rows[r].seqNo)
      && (forall r :: r in s.rows && Live(s, r) ==> rows'[r] == s.rows[r])
  {
    assert ThreadOk(cfg, s, t, s.threads[t]);
  }

  lemma StepKeepsRows(cfg: Config, s: State, a: Action)
    requires Basic(cfg, s) && RowsOk(s) && Enabled(cfg, s, a)
    ensures RowsOk(Apply(cfg, s, a))
  {
    var s' := Apply(cfg, s, a);
    StepKeepsOldNumbers(cfg, s, a);
    if a.Go? {
      RowsStep(cfg, s, a.thread, a.choice);
    }
    forall j: JobId | Live(s', j)
      ensures j in s'.rows && s'.rows[j].status == Waiting
    {
      if j < |s.jobs| {
        LiveBefore(cfg, s, a, j);
      }
    }
  }

  /** A job newly on the waiting list carries the current arrival count. */
  lemma WaitingGrows(cfg: Config, s: State, a: Action, q: QueueId, x: JobId)
    requires Basic(cfg, s) && Enabled(cfg, s, a)
    requires IsWaiting(Apply(cfg, s, a), q, x) && !IsWaiting(s, q, x)
    ensures Apply(cfg, s, a).jobs[x].regMark == Some(|s.jobs|)
  {
    StepEvolves(cfg, s, a);
    if a.Go? {
      assert ThreadOk(cfg, s, a.thread, s.threads[a.thread]);
    }
  }

  lemma OldestStays(cfg: Config, s: State, a: Action, q: QueueId, j: JobId)
    requires Basic(cfg, s) && Enabled(cfg, s, a) && j < |s.jobs| && Oldest(s, q, j)
    ensures Oldest(Apply(cfg, s, a), q, j)
  {
    var s' := Apply(cfg, s, a);
    StepEvolves(cfg, s, a);
    forall x: JobId | IsWaiting(s', q, x) && x != j
      ensures s'.jobs[x].regMark.Some? && j < s'.jobs[x].regMark.value
    {
      if !IsWaiting(s, q, x) {
        WaitingGrows(cfg, s, a, q, x);
      } else {
        assert JobEvolves(s.jobs[x], s'.jobs[x]);
      }
    }
  }

  /** The head of the sorted waiting list is the oldest. */
  lemma SnapshotTakesOldest(cfg: Config, s: State, q: QueueId, j: JobId)
    requires Basic(cfg, s) && RowsOk(s) && IsWaiting(s, q, j)
    requires forall x: JobId :: IsWaiting(s, q, x) ==> s.jobs[j].seqNo <= s.jobs[x].seqNo
    ensures Oldest(s, q, j)
  {
    forall x: JobId | IsWaiting(s, q, x) && x != j
      ensures s.jobs[x].regMark.Some? && j < s.jobs[x].regMark.value
    {
      assert Live(s, x) && Live(s, j);
      assert JobOk(s, x);
    }
  }

  lemma StepKeepsHands(cfg: Config, s: State, a: Action)
    requires Basic(cfg, s) && RowsOk(s) && HandsOk(s) && Enabled(cfg, s, a)
    ensures HandsOk(Apply(cfg, s, a))
  {
    var s' := Apply(cfg, s, a);
    forall t | 0 <= t < |s'.threads| && InHand(s'.threads[t])
      ensures Oldest(s', s'.threads[t].queue, s'.threads[t].job)
    {
      assert ThreadOk(cfg, s, t, s.threads[t]);
      var q, j := s'.threads[t].queue, s'.threads[t].job;
      if s.threads[t].Head? {
        SnapshotTakesOldest(cfg, s, q, j);
      } else {
        assert InHand(s.threads[t]) && s.threads[t].job == j && s.threads[t].queue == q;
      }
      OldestStays(cfg, s, a, q, j);
    }
  }

  lemma StepKeepsHistory(cfg: Config, s: State, a: Action)
    requires Basic(cfg, s) && HandsOk(s) && HistoryOk(s) && Enabled(cfg, s, a)
    ensures HistoryOk(Apply(cfg, s, a))
  {
    var s' := Apply(cfg, s, a);
    StepEvolves(cfg, s, a);
    if a.Go? {
      assert ThreadOk(cfg, s, a.thread, s.threads[a.thread]);
    }
    assert |s'.started| > |s.started| ==>
        && a.Go? && Takes(s, s.threads[a.thread])
        && s'.started == s.started + [s.threads[a.thread].job]
        && IsWaiting(s, s.threads[a.thread].queue, s.threads[a.thread].job);
    forall i | 0 <= i < |s'.started|
      ensures Registered(s', s'.started[i]) && s'.jobs[s'.started[i]].status != Waiting
      ensures Oldest(s', s'.jobs[s'.started[i]].queue, s'.started[i])
    {
      var k := s'.started[i];
      if i < |s.started| {
        assert JobEvolves(s.jobs[k], s'.jobs[k]);
      }
      OldestStays(cfg, s, a, s.jobs[k].queue, k);
    }
  }

  lemma {:induction false} AlwaysFifo(cfg: Config, run: seq<Action>, s: State)
    requires ValidConfig(cfg) && Reaches(cfg, run, s)
    ensures Fifo(cfg, s)
    decreases |run|
  {
    if run != [] {
      var before, a := run[..|run| - 1], run[|run| - 1];
      var mid := Exec(cfg, Init(), before).value;
      AlwaysFifo(cfg, before, mid);
      StepKeepsBasic(cfg, mid, a);
      StepKeepsRows(cfg, mid, a);
      StepKeepsHands(cfg, mid, a);
      StepKeepsHistory(cfg, mid, a);
    }
  }

  /**
   Of two jobs of one queue started while registered, the one started later had not been
   registered when the other arrived: whoever is queued before another arrives, starts before it.
   */
  lemma StartsInArrivalOrder(cfg: Config, run: seq<Action>, s: State, i: nat, k: nat)
    requires ValidConfig(cfg) && Reaches(cfg, run, s)
    requires i < k < |s.started| && s.started[i] < |s.jobs| && s.started[k] < |s.jobs|
    requires s.jobs[s.started[i]].queue == s.jobs[s.started[k]].queue
    ensures s.started[i] != s.started[k]
    ensures s.jobs[s.started[k]].regMark.Some? && s.started[i] < s.jobs[s.started[k]].regMark.value
  {
    AlwaysFifo(cfg, run, s);
  }

  // ---- the numbers --------------------------------------------------------------------------------

  /** The row with the largest number handed out in the queue so far is still in the table. */
  ghost predicate TopRowKept(s: State, q: QueueId) {
    forall j :: 0 <= j < |s.jobs| && s.jobs[j].queue == q ==>
      exists r :: r in s.rows && s.rows[r].queue == q && s.rows[r].seqNo >= s.jobs[j].seqNo
  }

  /** Whenever a job arrives, no purge has removed the newest row of its queue. */
  ghost predicate TopKept(cfg: Config, run: seq<Action>)
    decreases |run|
  {
    run == [] ||
    (var before, a := run[..|run| - 1], run[|run| - 1];
     && TopKept(cfg, before)
     && (IsArrival(a) ==> Exec(cfg, Init(), before).Some? && TopRowKept(Exec(cfg, Init(), before).value, a.queue)))
  }

  ghost predicate NumbersIncrease(s: State) {
    forall a, b :: 0 <= a < b < |s.jobs| && s.jobs[a].queue == s.jobs[b].queue ==> s.jobs[a].seqNo < s.jobs[b].seqNo
  }

  ghost predicate Below(s: State, q: QueueId, n: nat) {
    forall j :: 0 <= j < |s.jobs| && s.jobs[j].queue == q ==> s.jobs[j].seqNo < n
  }

  ghost predicate NumbersPositive(s: State) {
    forall j :: 0 <= j < |s.jobs| ==> s.jobs[j].seqNo >= 1
  }

  /** A new number exceeds all earlier ones of the queue exactly when the top row was kept. */
  lemma NextNumber(s: State, q: QueueId, n: nat)
    requires RowsOk(s) && IsNextSeq(s.rows, q, n) && NumbersPositive(s)
    ensures TopRowKept(s, q) <==> Below(s, q, n)
  {
    if Below(s, q, n) {
      forall j | 0 <= j < |s.jobs| && s.jobs[j].queue == q
        ensures exists r :: r in s.rows && s.rows[r].queue == q && s.rows[r].seqNo >= s.jobs[j].seqNo
      {
        assert s.jobs[j].seqNo < n;
      }
    }
  }

  /** A next number always exists, so an insert is always possible. */
  lemma {:induction false} NextSeqExists(rows: map<JobId, Row>, q: QueueId) returns (n: nat)
    ensures IsNextSeq(rows, q, n)
    decreases |rows|
  {
    n := 1;
    if rows != map[] {
      var j: JobId :| j in rows;
      var rest := rows - {j};
      var m := NextSeqExists(rest, q);
      n := if rows[j].queue == q && rows[j].seqNo >= m then rows[j].seqNo + 1 else m;
      assert forall r :: r in rows && r != j ==> r in rest && rest[r] == rows[r];
      if n == m && n != 1 {
        var r :| r in rest && rest[r].queue == q && rest[r].seqNo == n - 1;
        assert r in rows && rows[r] == rest[r];
      }
    }
  }

  lemma NumbersStep(cfg: Config, s: State, a: Action)
    requires Basic(cfg, s) && RowsOk(s) && NumbersPositive(s) && Enabled(cfg, s, a)
    ensures NumbersPositive(Apply(cfg, s, a))
    ensures NumbersIncrease(Apply(cfg, s, a)) <==> NumbersIncrease(s) && (IsArrival(a) ==> TopRowKept(s, a.queue))
  {
    var s' := Apply(cfg, s, a);
    StepKeepsOldNumbers(cfg, s, a);
    if IsArrival(a) {
      assert forall j :: 0 <= j < |s.jobs| ==> s'.jobs[j] == s.jobs[j];
      NextNumber(s, a.queue, a.seqNo);
    }
  }

  /** Numbers follow arrival in a run if and only if the run keeps the newest row at every arrival. */
  lemma {:induction false} NumbersFollowArrival(cfg: Config, run: seq<Action>, s: State)
    requires ValidConfig(cfg) && Reaches(cfg, run, s)
    ensures TopKept(cfg, run) <==> NumbersIncrease(s)
    ensures NumbersPositive(s)
    decreases |run|
  {
    if run != [] {
      var before, a := run[..|run| - 1], run[|run| - 1];
      var mid := Exec(cfg, Init(), before).value;
      NumbersFollowArrival(cfg, before, mid);
      AlwaysFifo(cfg, before, mid);
      NumbersStep(cfg, mid, a);
    }
  }

  /** No other job of its queue arrived between a started job's arrival and its registration. */
  ghost predicate NumberedAtRegistration(s: State) {
    forall j: JobId :: j in s.started && Registered(s, j) ==> NoneBetween(s, j)
  }

  ghost predicate NoneBetween(s: State, j: JobId)
    requires Registered(s, j)
  {
    forall k :: j < k < |s.jobs| && k < s.jobs[j].regMark.value ==> s.jobs[k].queue != s.jobs[j].queue
  }

  /** Then jobs of one queue start in order of arrival, in the plain sense. */
  lemma StartsAsArrived(cfg: Config, run: seq<Action>, s: State, i: nat, k: nat)
    requires ValidConfig(cfg) && Reaches(cfg, run, s) && NumberedAtRegistration(s)
    requires i < k < |s.started| && s.started[i] < |s.jobs| && s.started[k] < |s.jobs|
    requires s.jobs[s.started[i]].queue == s.jobs[s.started[k]].queue
    ensures s.started[i] < s.started[k]
  {
    AlwaysFifo(cfg, run, s);
    var a, b := s.started[i], s.started[k];
    assert b in s.started && NoneBetween(s, b);
    assert a != b && a < s.jobs[b].regMark.value;
  }

  /**
   With numbers given at registration and the newest rows kept, the jobs of a queue start in strictly
   increasing Seq.
   */
  lemma StartsInSeqOrder(cfg: Config, run: seq<Action>, s: State, i: nat, k: nat)
    requires ValidConfig(cfg) && Reaches(cfg, run, s) && TopKept(cfg, run) && NumberedAtRegistration(s)
    requires i < k < |s.started| && s.started[i] < |s.jobs| && s.started[k] < |s.jobs|
    requires s.jobs[s.started[i]].queue == s.jobs[s.started[k]].queue
    ensures s.jobs[s.started[i]].seqNo < s.jobs[s.started[k]].seqNo
  {
    StartsAsArrived(cfg, run, s, i, k);
    NumbersFollowArrival(cfg, run, s);
  }

  // ---- the exact condition for starts in order of number ----------------------------------------------

  /** For each of these jobs of the queue some row carries its number or a larger one. */
  ghost predicate RowsCover(s: State, q: QueueId, some: set<JobId>) {
    forall j :: j in some && j < |s.jobs| && s.jobs[j].queue == q ==>
      exists r :: r in s.rows && s.rows[r].queue == q && s.rows[r].seqNo >= s.jobs[j].seqNo
  }

  /** Whenever one of these jobs arrives, rows cover those of its queue that arrived before. */
  ghost predicate CoverKept(cfg: Config, run: seq<Action>, some: set<JobId>)
    decreases |run|
  {
    run == [] ||
    (var before, a := run[..|run| - 1], run[|run| - 1];
     && CoverKept(cfg, before, some)
     && (IsArrival(a) && Exec(cfg, Init(), before).Some? && |Exec(cfg, Init(), before).value.jobs| in some ==>
           RowsCover(Exec(cfg, Init(), before).value, a.queue, some)))
  }

  /** Among these jobs numbers increase in order of arrival. */
  ghost predicate NumbersIncreaseAmong(s: State, some: set<JobId>) {
    forall a, b :: a in some && b in some && a < b < |s.jobs| && s.jobs[a].queue == s.jobs[b].queue ==>
      s.jobs[a].seqNo < s.jobs[b].seqNo
  }

  ghost predicate BelowAmong(s: State, q: QueueId, n: nat, some: set<JobId>) {
    forall j :: j in some && j < |s.jobs| && s.jobs[j].queue == q ==> s.jobs[j].seqNo < n
  }

  lemma NextNumberAmong(s: State, q: QueueId, n: nat, some: set<JobId>)
    requires RowsOk(s) && IsNextSeq(s.rows, q, n) && NumbersPositive(s)
    ensures RowsCover(s, q, some) <==> BelowAmong(s, q, n, some)
  {
    if BelowAmong(s, q, n, some) {
      forall j | j in some && j < |s.jobs| && s.jobs[j].queue == q
        ensures exists r :: r in s.rows && s.rows[r].queue == q && s.rows[r].seqNo >= s.jobs[j].seqNo
      {
        assert s.jobs[j].seqNo < n;
      }
    }
  }

  lemma AmongStep(cfg: Config, s: State, a: Action, some: set<JobId>)
    requires Basic(cfg, s) && RowsOk(s) && NumbersPositive(s) && Enabled(cfg, s, a)
    ensures NumbersIncreaseAmong(Apply(cfg, s, a), some) <==>
      NumbersIncreaseAmong(s, some) && (IsArrival(a) && |s.jobs| in some ==> RowsCover(s, a.queue, some))
  {
    var s' := Apply(cfg, s, a);
    StepKeepsOldNumbers(cfg, s, a);
    if IsArrival(a) {
      assert forall j :: 0 <= j < |s.jobs| ==> s'.jobs[j] == s.jobs[j];
      NextNumberAmong(s, a.queue, a.seqNo, some);
    }
  }

  lemma {:induction false} AmongFollowArrival(cfg: Config, run: seq<Action>, s: State, some: set<JobId>)
    requires ValidConfig(cfg) && Reaches(cfg, run, s)
    ensures CoverKept(cfg, run, some) <==> NumbersIncreaseAmong(s, some)
    decreases |run|
  {
    if run != [] {
      var before, a := run[..|run| - 1], run[|run| - 1];
      var mid := Exec(cfg, Init(), before).value;
      AmongFollowArrival(cfg, before, mid, some);
      AlwaysFifo(cfg, before, mid);
      NumbersFollowArrival(cfg, before, mid);
      AmongStep(cfg, mid, a, some);
    }
  }

  /** Jobs of one queue start in strictly increasing number. */
  ghost predicate StartNumbersIncrease(s: State) {
    forall i, k :: 0 <= i < k < |s.started| && s.started[i] < |s.jobs| && s.started[k] < |s.jobs|
                   && s.jobs[s.started[i]].queue == s.jobs[s.started[k]].queue ==>
      s.jobs[s.started[i]].seqNo < s.jobs[s.started[k]].seqNo
  }

  lemma StartedBefore(cfg: Config, run: seq<Action>, s: State, a: JobId, b: JobId)
    requires ValidConfig(cfg) && Reaches(cfg, run, s) && NumberedAtRegistration(s) && StartNumbersIncrease(s)
    requires a in s.started && b in s.started && a < b < |s.jobs| && s.jobs[a].queue == s.jobs[b].queue
    ensures s.jobs[a].seqNo < s.jobs[b].seqNo
  {
    var i :| 0 <= i < |s.started| && s.started[i] == a;
    var k :| 0 <= k < |s.started| && s.started[k] == b;
    if k < i {
      StartsAsArrived(cfg, run, s, k, i);
    }
  }

  /**
   With numbers given at registration, starts are in order of number if and only if, whenever a job arrives
   that is to start, the table still has a row at least as high as each earlier such job of its queue.
   */
  lemma SeqOrderIff(cfg: Config, run: seq<Action>, s: State)
    requires ValidConfig(cfg) && Reaches(cfg, run, s) && NumberedAtRegistration(s)
    ensures StartNumbersIncrease(s) <==> CoverKept(cfg, run, set j | j in s.started)
  {
    var some := set j | j in s.started;
    AmongFollowArrival(cfg, run, s, some);
    if StartNumbersIncrease(s) {
      forall a, b | a in some && b in some && a < b < |s.jobs| && s.jobs[a].queue == s.jobs[b].queue
        ensures s.jobs[a].seqNo < s.jobs[b].seqNo
      {
        StartedBefore(cfg, run, s, a, b);
      }
    }
    if NumbersIncreaseAmong(s, some) {
      forall i, k | 0 <= i < k < |s.started| && s.started[i] < |s.jobs| && s.started[k] < |s.jobs|
                    && s.jobs[s.started[i]].queue == s.jobs[s.started[k]].queue
        ensures s.jobs[s.started[i]].seqNo < s.jobs[s.started[k]].seqNo
      {
        StartsAsArrived(cfg, run, s, i, k);
      }
    }
  }
}
