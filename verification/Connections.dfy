/** Connection counts under concurrency: any number of threads, each opening and closing calls in turn. */
module Connections {
  import opened Wrappers
  import opened Fallback

  type ThreadId = nat

  datatype Step = Step(thread: ThreadId, event: Event)

  /** What one thread did, out of everything that happened. */
  function View(run: seq<Step>, t: ThreadId): seq<Event>
    decreases |run|
  {
    if run == [] then []
    else
      var before, last := View(run[..|run| - 1], t), run[|run| - 1];
      if last.thread == t then before + [last.event] else before
  }

  /** One backend's count after a run: `Inc` counts up, `Dec` counts down but not below zero. */
  function CountAfter(run: seq<Step>, id: BackendId): int
    decreases |run|
  {
    if run == [] then 0
    else
      var before, e := CountAfter(run[..|run| - 1], id), run[|run| - 1].event;
      if e.id != id then before
      else if e.Opened? then before + 1
      else if before > 0 then before - 1
      else before
  }

  /** Each of the `n` threads has got somewhere in a history of calls, one after the other. */
  ghost predicate Possible(run: seq<Step>, n: nat) {
    && (forall i :: 0 <= i < |run| ==> run[i].thread < n)
    && (forall t :: 0 <= t < n ==> Alternates(View(run, t)))
  }

  function OpenCalls(run: seq<Step>, n: nat, id: BackendId): set<ThreadId> {
    set t: ThreadId | t < n && Holding(View(run, t)) == Some(id)
  }

  /** The histories of calls made one after the other. */
  function OneAfterAnother(calls: seq<seq<Event>>): seq<Event>
    decreases |calls|
  {
    if calls == [] then [] else OneAfterAnother(calls[..|calls| - 1]) + calls[|calls| - 1]
  }

  lemma {:induction false} PrefixAlternates(t: seq<Event>, n: nat)
    requires Alternates(t) && n <= |t|
    ensures Alternates(t[..n])
    decreases |t|
  {
    if n < |t| {
      var front := t[..|t| - 1];
      assert front[..n] == t[..n];
      PrefixAlternates(front, n);
    } else {
      assert t[..n] == t;
    }
  }

  lemma {:induction false} CallsBalance(calls: seq<seq<Event>>)
    requires forall i :: 0 <= i < |calls| ==> Balanced(calls[i])
    ensures Balanced(OneAfterAnother(calls))
    decreases |calls|
  {
    if calls != [] {
      var front, last := calls[..|calls| - 1], calls[|calls| - 1];
      assert last in calls;
      CallsBalance(front);
      BalancedAppend(OneAfterAnother(front), last);
    }
  }

  /** Threads that make balanced calls, each stopped anywhere, are all `Possible` asks for. */
  lemma CallersArePossible(run: seq<Step>, n: nat, calls: seq<seq<seq<Event>>>)
    requires |calls| == n && forall i :: 0 <= i < |run| ==> run[i].thread < n
    requires forall t, i :: 0 <= t < n && 0 <= i < |calls[t]| ==> Balanced(calls[t][i])
    requires forall t :: 0 <= t < n ==> View(run, t) <= OneAfterAnother(calls[t])
    ensures Possible(run, n)
  {
    forall t | 0 <= t < n
      ensures Alternates(View(run, t))
    {
      var all := OneAfterAnother(calls[t]);
      assert View(run, t) <= all && View(run, t) == all[..|View(run, t)|];
      CallsBalance(calls[t]);
      PrefixAlternates(all, |View(run, t)|);
    }
  }

  lemma PossibleBefore(run: seq<Step>, n: nat)
    requires Possible(run, n) && run != []
    ensures var before, last := run[..|run| - 1], run[|run| - 1];
      && Possible(before, n)
      && View(run, last.thread) == View(before, last.thread) + [last.event]
      && CanFollow(Holding(View(before, last.thread)), last.event)
  {
    var before, last := run[..|run| - 1], run[|run| - 1];
    forall t | 0 <= t < n
      ensures Alternates(View(before, t))
    {
      if t == last.thread {
        assert View(run, t)[..|View(run, t)| - 1] == View(before, t);
      }
    }
    assert View(run, last.thread)[..|View(run, last.thread)| - 1] == View(before, last.thread);
    assert Alternates(View(run, last.thread));
  }

  lemma OpenCallsStep(run: seq<Step>, n: nat, id: BackendId)
    requires Possible(run, n) && run != []
    ensures var before, last := run[..|run| - 1], run[|run| - 1];
      var was, now := OpenCalls(before, n, id), OpenCalls(run, n, id);
      && Possible(before, n)
      && if last.event.id != id then now == was
         else if last.event.Opened? then last.thread !in was && now == was + {last.thread}
         else last.thread in was && now == was - {last.thread}
  {
    var before, last := run[..|run| - 1], run[|run| - 1];
    PossibleBefore(run, n);
    assert Holding(View(run, last.thread)) == if last.event.Opened? then Some(last.event.id) else None;
    assert forall t: ThreadId :: t != last.thread ==> View(run, t) == View(before, t);
  }

  /**
   In every interleaving a backend's count is the number of threads with an open call to it, so the test
   in `Dec` for a positive count never matters.
   */
  lemma {:induction false} CountIsOpenCalls(run: seq<Step>, n: nat, id: BackendId)
    requires Possible(run, n)
    ensures CountAfter(run, id) == |OpenCalls(run, n, id)|
    ensures run != [] && run[|run| - 1].event == Closed(id) ==> CountAfter(run[..|run| - 1], id) > 0
    decreases |run|
  {
    if run == [] {
      assert OpenCalls(run, n, id) == {};
    } else {
      OpenCallsStep(run, n, id);
      CountIsOpenCalls(run[..|run| - 1], n, id);
    }
  }

  /** When every thread has finished its calls, every count is back at zero. */
  lemma AllClosedCountsZero(run: seq<Step>, n: nat, id: BackendId)
    requires Possible(run, n) && forall t :: 0 <= t < n ==> Balanced(View(run, t))
    ensures CountAfter(run, id) == 0
  {
    CountIsOpenCalls(run, n, id);
    assert OpenCalls(run, n, id) == {};
  }
}
