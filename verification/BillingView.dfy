/**
 The billing view: buckets between calendar bounds, each the sum of the hours it goes through. The bounds are
 parameters, and they need not follow each other without a gap or an overlap: a local day can begin late.
 */
module BillingView {
  import opened Wrappers
  import opened Billing

  // ---- the hours of a bucket --------------------------------------------------------------------------

  /** The hour after the last one a bucket from `s` to `e` looks at, going on by whole hours from `s`. */
  function EndHour(s: int, e: int): int {
    HourOf(s) + Steps(s, e)
  }

  /** How many whole-hour steps from `s` stay before `e`. */
  function Steps(s: int, e: int): nat {
    if e <= s then 0 else (e - s + 3600 - 1) / 3600
  }

  predicate InBucket(s: int, e: int, h: int) {
    HourOf(s) <= h < EndHour(s, e)
  }

  /** Buckets begin in order, and none is empty. */
  ghost predicate Rising(starts: seq<int>, ends: seq<int>) {
    && |starts| == |ends| > 0
    && (forall i :: 0 <= i < |starts| ==> starts[i] < ends[i])
    && (forall i, j :: 0 <= i < j < |starts| ==> starts[i] <= starts[j])
  }

  /** Each bucket but the first begins with the hour at which the one before it stops. */
  ghost predicate Meet(starts: seq<int>, ends: seq<int>)
    requires |starts| == |ends|
  {
    forall i :: 0 < i < |starts| ==> EndHour(starts[i - 1], ends[i - 1]) == HourOf(starts[i])
  }

  ghost predicate InWindow(starts: seq<int>, ends: seq<int>, h: int)
    requires |starts| == |ends| > 0
  {
    HourOf(starts[0]) <= h < EndHour(starts[|starts| - 1], ends[|ends| - 1])
  }

  /** Exactly one bucket looks at this hour. */
  ghost predicate InOneBucket(starts: seq<int>, ends: seq<int>, h: int)
    requires |starts| == |ends|
  {
    exists i :: 0 <= i < |starts| && InBucket(starts[i], ends[i], h)
                && forall j :: 0 <= j < |starts| && InBucket(starts[j], ends[j], h) ==> j == i
  }

  lemma EndHourIs(s: int, e: int)
    requires s < e
    ensures EndHour(s, e) == HourOf(e) + (if e % 3600 > s % 3600 then 1 else 0)
    ensures EndHour(s, e) > HourOf(s)
  {
    var a, r, b, q := s / 3600, s % 3600, e / 3600, e % 3600;
    assert s == 3600 * a + r && e == 3600 * b + q;
    assert e - s + 3600 - 1 == 3600 * (b - a) + (q - r + 3600 - 1);
  }

  lemma LaterHour(s: int, t: int)
    requires s <= t
    ensures HourOf(s) <= HourOf(t)
  {
  }

  lemma {:induction false} FindBucket(starts: seq<int>, ends: seq<int>, n: nat, h: int) returns (k: nat)
    requires Rising(starts, ends) && Meet(starts, ends) && n < |starts|
    requires HourOf(starts[0]) <= h < EndHour(starts[n], ends[n])
    ensures k <= n && InBucket(starts[k], ends[k], h)
  {
    k := n;
    if h < HourOf(starts[n]) {
      k := FindBucket(starts, ends, n - 1, h);
    }
  }

  lemma BucketsApart(starts: seq<int>, ends: seq<int>, i: nat, j: nat, h: int)
    requires Rising(starts, ends) && Meet(starts, ends) && i < j < |starts|
    requires InBucket(starts[i], ends[i], h)
    ensures !InBucket(starts[j], ends[j], h)
  {
    assert EndHour(starts[i + 1 - 1], ends[i + 1 - 1]) == HourOf(starts[i + 1]);
    LaterHour(starts[i + 1], starts[j]);
  }

  lemma OneBucketEach(starts: seq<int>, ends: seq<int>, h: int)
    requires Rising(starts, ends) && Meet(starts, ends) && InWindow(starts, ends, h)
    ensures InOneBucket(starts, ends, h)
  {
    var k := FindBucket(starts, ends, |starts| - 1, h);
    forall j | 0 <= j < |starts| && InBucket(starts[j], ends[j], h)
      ensures j == k
    {
      if j < k {
        BucketsApart(starts, ends, j, k, h);
      } else if k < j {
        BucketsApart(starts, ends, k, j, h);
      }
    }
  }

  lemma InTwoBuckets(starts: seq<int>, ends: seq<int>, i: nat, j: nat, h: int)
    requires |starts| == |ends| && i < j < |starts|
    requires InBucket(starts[i], ends[i], h) && InBucket(starts[j], ends[j], h)
    ensures !InOneBucket(starts, ends, h)
  {
  }

  /** The hours from the start of the window up to the start of any bucket's last hour are in the window. */
  lemma StartInWindow(starts: seq<int>, ends: seq<int>, i: nat, h: int)
    requires Rising(starts, ends) && i < |starts| && HourOf(starts[0]) <= h <= HourOf(starts[i])
    ensures InWindow(starts, ends, h)
  {
    var last := |starts| - 1;
    assert starts[i] <= starts[last];
    EndHourIs(starts[last], ends[last]);
    LaterHour(starts[i], starts[last]);
  }

  /** Two neighbours overlap: the later one's first hour is in both. */
  lemma Overlap(starts: seq<int>, ends: seq<int>, i: nat) returns (h: int)
    requires Rising(starts, ends) && 0 < i < |starts| && EndHour(starts[i - 1], ends[i - 1]) > HourOf(starts[i])
    ensures InWindow(starts, ends, h) && !InOneBucket(starts, ends, h)
  {
    h := HourOf(starts[i]);
    LaterHour(starts[i - 1], starts[i]);
    EndHourIs(starts[i], ends[i]);
    InTwoBuckets(starts, ends, i - 1, i, h);
    assert starts[0] <= starts[i];
    LaterHour(starts[0], starts[i]);
    StartInWindow(starts, ends, i, h);
  }

  /** A bucket that reaches past a later one shares the later one's first hour. */
  lemma ReachesPast(starts: seq<int>, ends: seq<int>, k: nat, j: nat, h: int)
    requires Rising(starts, ends) && k < j < |starts|
    requires InBucket(starts[k], ends[k], h) && EndHour(starts[j], ends[j]) <= h
    ensures !InOneBucket(starts, ends, HourOf(starts[j]))
  {
    LaterHour(starts[k], starts[j]);
    EndHourIs(starts[j], ends[j]);
    InTwoBuckets(starts, ends, k, j, HourOf(starts[j]));
  }

  lemma EarlierBound(s: int, t: int)
    requires HourOf(s) < HourOf(t)
    ensures s < t
  {
  }

  /** An hour past the end of a bucket and before the next one, if some bucket looks at it all the same. */
  lemma ReachedFromBefore(starts: seq<int>, ends: seq<int>, i: nat, h: int)
    requires Rising(starts, ends) && 0 < i < |starts| && InOneBucket(starts, ends, h)
    requires h == EndHour(starts[i - 1], ends[i - 1]) && h < HourOf(starts[i])
    ensures !InOneBucket(starts, ends, HourOf(starts[i - 1]))
  {
    var k :| 0 <= k < |starts| && InBucket(starts[k], ends[k], h);
    EarlierBound(starts[k], starts[i]);
    assert k < i;
    ReachesPast(starts, ends, k, i - 1, h);
  }

  /** A gap between two neighbours: its first hour is in no bucket, or an earlier bucket overlaps the one before it. */
  lemma Gap(starts: seq<int>, ends: seq<int>, i: nat) returns (h: int)
    requires Rising(starts, ends) && 0 < i < |starts| && EndHour(starts[i - 1], ends[i - 1]) < HourOf(starts[i])
    ensures InWindow(starts, ends, h) && !InOneBucket(starts, ends, h)
  {
    var first, next := HourOf(starts[i - 1]), EndHour(starts[i - 1], ends[i - 1]);
    EndHourIs(starts[i - 1], ends[i - 1]);
    LaterHour(starts[0], starts[i - 1]);
    StartInWindow(starts, ends, i - 1, first);
    StartInWindow(starts, ends, i, next);
    h := next;
    if InOneBucket(starts, ends, next) {
      ReachedFromBefore(starts, ends, i, next);
      h := first;
    }
  }

  /**
   Whatever the bounds: every hour of the window lands in exactly one bucket if and only if each bucket
   begins with the hour at which the one before it stops.
   */
  lemma EachHourOnceIff(starts: seq<int>, ends: seq<int>)
    requires Rising(starts, ends)
    ensures (forall h :: InWindow(starts, ends, h) ==> InOneBucket(starts, ends, h)) <==> Meet(starts, ends)
  {
    if Meet(starts, ends) {
      forall h | InWindow(starts, ends, h)
        ensures InOneBucket(starts, ends, h)
      {
        OneBucketEach(starts, ends, h);
      }
    } else {
      var i :| 0 < i < |starts| && EndHour(starts[i - 1], ends[i - 1]) != HourOf(starts[i]);
      if EndHour(starts[i - 1], ends[i - 1]) > HourOf(starts[i]) {
        var h := Overlap(starts, ends, i);
      } else {
        var h := Gap(starts, ends, i);
      }
    }
  }

  // ---- bounds that follow each other ------------------------------------------------------------------

  /** Each bucket ends where the next one begins. */
  ghost predicate Contiguous(starts: seq<int>, ends: seq<int>) {
    Rising(starts, ends) && forall i :: 0 < i < |starts| ==> starts[i] == ends[i - 1]
  }

  /** No bucket but the last ends further into an hour than it began. */
  ghost predicate OnTheHour(starts: seq<int>, ends: seq<int>)
    requires |starts| == |ends|
  {
    forall i :: 0 <= i < |starts| - 1 ==> ends[i] % 3600 <= starts[i] % 3600
  }

  /** With contiguous bounds buckets meet exactly when none but the last ends further into an hour than it began. */
  lemma ContiguousMeetIff(starts: seq<int>, ends: seq<int>)
    requires Contiguous(starts, ends)
    ensures Meet(starts, ends) <==> OnTheHour(starts, ends)
  {
    forall i | 0 < i < |starts|
      ensures EndHour(starts[i - 1], ends[i - 1]) == HourOf(starts[i]) <==> ends[i - 1] % 3600 <= starts[i - 1] % 3600
    {
      EndHourIs(starts[i - 1], ends[i - 1]);
    }
    if Meet(starts, ends) {
      forall i | 0 <= i < |starts| - 1
        ensures ends[i] % 3600 <= starts[i] % 3600
      {
        assert EndHour(starts[i + 1 - 1], ends[i + 1 - 1]) == HourOf(starts[i + 1]);
      }
    }
  }

  /** A day of 24 hours and a half: contiguous, yet hour 24 is in both days. */
  lemma HalfHourDay()
    ensures var starts, ends := [0, 88200], [88200, 174600];
      && Contiguous(starts, ends) && !Meet(starts, ends)
      && InBucket(starts[0], ends[0], 24) && InBucket(starts[1], ends[1], 24)
  {
    var starts, ends := [0, 88200], [88200, 174600];
    assert EndHour(starts[1 - 1], ends[1 - 1]) != HourOf(starts[1]);
  }

  /**
   A day whose midnight is skipped begins an hour late on the clock and is taken to last 24 hours, while the
   next one begins on time: all bounds are on the hour, yet hour 23 is in both days.
   */
  lemma SkippedMidnight()
    ensures var starts, ends := [0, 82800], [86400, 169200];
      && Rising(starts, ends) && OnTheHour(starts, ends) && !Contiguous(starts, ends) && !Meet(starts, ends)
      && InBucket(starts[0], ends[0], 23) && InBucket(starts[1], ends[1], 23)
  {
    var starts, ends := [0, 82800], [86400, 169200];
    assert EndHour(starts[1 - 1], ends[1 - 1]) != HourOf(starts[1]);
    assert starts[1] != ends[1 - 1];
  }

  // ---- what the view shows ----------------------------------------------------------------------------

  datatype View = View(buckets: seq<Rec>, total: Rec)

  function BucketOf(table: Table, s: int, e: int): Rec {
    SumHours(table, HourOf(s), EndHour(s, e))
  }

  ghost predicate Shows(table: Table, starts: seq<int>, ends: seq<int>, view: View)
    requires |starts| == |ends|
  {
    && |view.buckets| == |starts|
    && (forall i :: 0 <= i < |starts| ==> view.buckets[i] == BucketOf(table, starts[i], ends[i]))
    && view.total == SumRecs(view.buckets)
  }

  lemma {:induction false} SumHoursSplit(table: Table, lo: int, mid: int, hi: int)
    requires lo <= mid <= hi
    ensures SumHours(table, lo, hi) == SumHours(table, lo, mid).Plus(SumHours(table, mid, hi))
    decreases hi - mid
  {
    PlusMoves(SumHours(table, lo, mid), ZERO, ZERO);
    if mid < hi {
      SumHoursSplit(table, lo, mid, hi - 1);
      PlusMoves(SumHours(table, lo, mid), SumHours(table, mid, hi - 1), At(table, hi - 1));
    }
  }

  lemma TotalStep(table: Table, lo: int, mid: int, hi: int, buckets: seq<Rec>)
    requires lo <= mid <= hi && buckets != []
    requires SumRecs(buckets[..|buckets| - 1]) == SumHours(table, lo, mid)
    requires buckets[|buckets| - 1] == SumHours(table, mid, hi)
    ensures SumRecs(buckets) == SumHours(table, lo, hi)
  {
    SumHoursSplit(table, lo, mid, hi);
  }

  lemma {:induction false} TotalUpTo(table: Table, starts: seq<int>, ends: seq<int>, view: View, n: nat)
    requires Rising(starts, ends) && Meet(starts, ends) && Shows(table, starts, ends, view) && n < |starts|
    ensures SumRecs(view.buckets[..n + 1]) == SumHours(table, HourOf(starts[0]), EndHour(starts[n], ends[n]))
  {
    var upTo := view.buckets[..n + 1];
    assert upTo[..n] == view.buckets[..n];
    assert upTo[n] == BucketOf(table, starts[n], ends[n]);
    EndHourIs(starts[n], ends[n]);
    if n > 0 {
      TotalUpTo(table, starts, ends, view, n - 1);
      assert starts[0] <= starts[n];
      LaterHour(starts[0], starts[n]);
    } else {
      assert upTo[..n] == [];
    }
    TotalStep(table, HourOf(starts[0]), HourOf(starts[n]), EndHour(starts[n], ends[n]), upTo);
  }

  /** When buckets meet, the totals of a view are the sum over the hours of its window. */
  lemma ViewConserves(table: Table, starts: seq<int>, ends: seq<int>, view: View)
    requires Rising(starts, ends) && Meet(starts, ends) && Shows(table, starts, ends, view)
    ensures view.total == SumHours(table, HourOf(starts[0]), EndHour(starts[|starts| - 1], ends[|ends| - 1]))
  {
    TotalUpTo(table, starts, ends, view, |starts| - 1);
    assert view.buckets[..|starts|] == view.buckets;
  }

  // ---- how often a call is counted --------------------------------------------------------------------

  /** How many buckets look at this hour. */
  function BucketsWith(starts: seq<int>, ends: seq<int>, h: int): nat
    requires |starts| == |ends|
    decreases |starts|
  {
    if starts == [] then 0
    else
      var n := |starts| - 1;
      BucketsWith(starts[..n], ends[..n], h) + (if InBucket(starts[n], ends[n], h) then 1 else 0)
  }

  function Repeat(k: nat, r: Rec): Rec {
    if k == 0 then ZERO else Repeat(k - 1, r).Plus(r)
  }

  /** One call, counted once for each bucket that looks at its hour. */
  function Weight(call: LogRow, starts: seq<int>, ends: seq<int>): Rec
    requires |starts| == |ends|
  {
    if call.ts == None then ZERO else Repeat(BucketsWith(starts, ends, HourOf(call.ts.value)), call.One())
  }

  function Weighted(calls: seq<LogRow>, starts: seq<int>, ends: seq<int>): Rec
    requires |starts| == |ends|
    decreases |calls|
  {
    if calls == [] then ZERO
    else Weighted(calls[..|calls| - 1], starts, ends).Plus(Weight(calls[|calls| - 1], starts, ends))
  }

  function SumBuckets(calls: seq<LogRow>, starts: seq<int>, ends: seq<int>): Rec
    requires |starts| == |ends|
    decreases |starts|
  {
    if starts == [] then ZERO
    else
      var n := |starts| - 1;
      SumBuckets(calls, starts[..n], ends[..n]).Plus(SumRows(calls, HourOf(starts[n]), EndHour(starts[n], ends[n])))
  }

  lemma {:induction false} ViewSumsBuckets(calls: seq<LogRow>, starts: seq<int>, ends: seq<int>, view: View, n: nat)
    requires |starts| == |ends| && Shows(Upserts(map[], calls), starts, ends, view) && n <= |starts|
    ensures SumRecs(view.buckets[..n]) == SumBuckets(calls, starts[..n], ends[..n])
  {
    if n > 0 {
      var upTo, ss, es := view.buckets[..n], starts[..n], ends[..n];
      assert upTo[..n - 1] == view.buckets[..n - 1] && ss[..n - 1] == starts[..n - 1] && es[..n - 1] == ends[..n - 1];
      ViewSumsBuckets(calls, starts, ends, view, n - 1);
      TableHoldsCalls(calls, HourOf(starts[n - 1]), EndHour(starts[n - 1], ends[n - 1]));
    }
  }

  lemma PlusPairs(a: Rec, w: Rec, b: Rec, c: Rec)
    ensures a.Plus(w).Plus(b.Plus(c)) == a.Plus(b).Plus(w.Plus(c))
    ensures a.Plus(w).Plus(b) == a.Plus(b).Plus(w) && a.Plus(ZERO) == a
  {
  }

  lemma SumRowsMore(calls: seq<LogRow>, c: LogRow, lo: int, hi: int)
    ensures SumRows(calls + [c], lo, hi) ==
      if Falls(c, lo, hi) then SumRows(calls, lo, hi).Plus(c.One()) else SumRows(calls, lo, hi)
  {
    assert (calls + [c])[..|calls|] == calls;
  }

  lemma {:induction false} OneMoreCall(calls: seq<LogRow>, c: LogRow, starts: seq<int>, ends: seq<int>)
    requires |starts| == |ends|
    ensures SumBuckets(calls + [c], starts, ends) == SumBuckets(calls, starts, ends).Plus(Weight(c, starts, ends))
    decreases |starts|
  {
    if starts != [] {
      var n := |starts| - 1;
      var ss, es, lo, hi := starts[..n], ends[..n], HourOf(starts[n]), EndHour(starts[n], ends[n]);
      OneMoreCall(calls, c, ss, es);
      SumRowsMore(calls, c, lo, hi);
      PlusPairs(SumBuckets(calls, ss, es), Weight(c, ss, es), SumRows(calls, lo, hi), c.One());
      WeightMore(c, starts, ends);
    }
  }

  lemma WeightMore(c: LogRow, starts: seq<int>, ends: seq<int>)
    requires |starts| == |ends| > 0
    ensures var n := |starts| - 1;
      Weight(c, starts, ends) ==
      if Falls(c, HourOf(starts[n]), EndHour(starts[n], ends[n])) then Weight(c, starts[..n], ends[..n]).Plus(c.One())
      else Weight(c, starts[..n], ends[..n])
  {
  }

  lemma {:induction false} BucketsSumCalls(calls: seq<LogRow>, starts: seq<int>, ends: seq<int>)
    requires |starts| == |ends|
    ensures SumBuckets(calls, starts, ends) == Weighted(calls, starts, ends)
    decreases |calls|
  {
    if calls == [] {
      NoCalls(starts, ends);
    } else {
      var front, last := calls[..|calls| - 1], calls[|calls| - 1];
      assert calls == front + [last];
      BucketsSumCalls(front, starts, ends);
      OneMoreCall(front, last, starts, ends);
      WeightedMore(front, last, starts, ends);
    }
  }

  lemma WeightedMore(calls: seq<LogRow>, c: LogRow, starts: seq<int>, ends: seq<int>)
    requires |starts| == |ends|
    ensures Weighted(calls + [c], starts, ends) == Weighted(calls, starts, ends).Plus(Weight(c, starts, ends))
  {
    assert (calls + [c])[..|calls|] == calls;
  }

  lemma {:induction false} NoCalls(starts: seq<int>, ends: seq<int>)
    requires |starts| == |ends|
    ensures SumBuckets([], starts, ends) == ZERO
    decreases |starts|
  {
    if starts != [] {
      NoCalls(starts[..|starts| - 1], ends[..|starts| - 1]);
    }
  }

  /** For any bounds at all: a view counts each call once for every bucket that looks at its hour. */
  lemma ViewCountsPerBucket(calls: seq<LogRow>, starts: seq<int>, ends: seq<int>, view: View)
    requires |starts| == |ends| && Shows(Upserts(map[], calls), starts, ends, view)
    ensures view.total == Weighted(calls, starts, ends)
  {
    var n := |starts|;
    ViewSumsBuckets(calls, starts, ends, view, n);
    assert view.buckets[..n] == view.buckets && starts[..n] == starts && ends[..n] == ends;
    BucketsSumCalls(calls, starts, ends);
  }

  lemma {:induction false} RepeatCounts(k: nat, r: Rec)
    requires r.n == 1
    ensures Repeat(k, r).n == k
  {
    if k > 0 {
      RepeatCounts(k - 1, r);
    }
  }

  lemma OneCallCounts(call: LogRow, starts: seq<int>, ends: seq<int>, view: View)
    requires |starts| == |ends| && Shows(Upserts(map[], [call]), starts, ends, view) && call.ts.Some?
    ensures view.total.n == BucketsWith(starts, ends, HourOf(call.ts.value))
  {
    ViewCountsPerBucket([call], starts, ends, view);
    assert [call][..0] == [];
    RepeatCounts(BucketsWith(starts, ends, HourOf(call.ts.value)), call.One());
  }

  lemma {:induction false} BucketsWithNone(starts: seq<int>, ends: seq<int>, h: int)
    requires |starts| == |ends| && forall i :: 0 <= i < |starts| ==> !InBucket(starts[i], ends[i], h)
    ensures BucketsWith(starts, ends, h) == 0
    decreases |starts|
  {
    if starts != [] {
      BucketsWithNone(starts[..|starts| - 1], ends[..|starts| - 1], h);
    }
  }

  lemma {:induction false} BucketsWithSome(starts: seq<int>, ends: seq<int>, h: int, i: nat)
    requires |starts| == |ends| && i < |starts| && InBucket(starts[i], ends[i], h)
    ensures BucketsWith(starts, ends, h) >= 1
    ensures BucketsWith(starts, ends, h) == 1 ==>
      forall j :: 0 <= j < |starts| && InBucket(starts[j], ends[j], h) ==> j == i
    ensures (forall j :: 0 <= j < |starts| && InBucket(starts[j], ends[j], h) ==> j == i) ==>
      BucketsWith(starts, ends, h) == 1
    decreases |starts|
  {
    var n := |starts| - 1;
    var ss, es := starts[..n], ends[..n];
    if i < n {
      BucketsWithSome(ss, es, h, i);
      assert forall j :: 0 <= j < n ==> ss[j] == starts[j] && es[j] == ends[j];
    } else if forall j :: 0 <= j < n ==> !InBucket(ss[j], es[j], h) {
      BucketsWithNone(ss, es, h);
    } else {
      var j :| 0 <= j < n && InBucket(ss[j], es[j], h);
      BucketsWithSome(ss, es, h, j);
      assert InBucket(starts[j], ends[j], h) && j != i;
    }
  }

  lemma OneBucketIff(starts: seq<int>, ends: seq<int>, h: int)
    requires |starts| == |ends|
    ensures BucketsWith(starts, ends, h) == 1 <==> InOneBucket(starts, ends, h)
  {
    if exists i :: 0 <= i < |starts| && InBucket(starts[i], ends[i], h) {
      var i :| 0 <= i < |starts| && InBucket(starts[i], ends[i], h);
      BucketsWithSome(starts, ends, h, i);
    } else {
      BucketsWithNone(starts, ends, h);
    }
  }

  /** A call in an hour that two buckets look at is counted more than once. */
  lemma SharedHourCountsTwice(call: LogRow, starts: seq<int>, ends: seq<int>, view: View, i: nat, j: nat)
    requires |starts| == |ends| && i < j < |starts| && Shows(Upserts(map[], [call]), starts, ends, view)
    requires call.ts.Some? && InBucket(starts[i], ends[i], HourOf(call.ts.value))
    requires InBucket(starts[j], ends[j], HourOf(call.ts.value))
    ensures view.total.n >= 2
  {
    OneCallCounts(call, starts, ends, view);
    BucketsWithSome(starts, ends, HourOf(call.ts.value), i);
  }

  /** When buckets meet, the totals are those of the calls made in the window, each counted once. */
  lemma ViewCountsEachCall(calls: seq<LogRow>, starts: seq<int>, ends: seq<int>, view: View)
    requires Rising(starts, ends) && Meet(starts, ends) && Shows(Upserts(map[], calls), starts, ends, view)
    ensures view.total == SumRows(calls, HourOf(starts[0]), EndHour(starts[|starts| - 1], ends[|ends| - 1]))
  {
    ViewConserves(Upserts(map[], calls), starts, ends, view);
    TableHoldsCalls(calls, HourOf(starts[0]), EndHour(starts[|starts| - 1], ends[|ends| - 1]));
  }

  /** The totals of these bounds are right for every history of calls. */
  ghost predicate CountsRight(starts: seq<int>, ends: seq<int>)
    requires |starts| == |ends| > 0
  {
    forall calls, view :: Shows(Upserts(map[], calls), starts, ends, view) ==>
      view.total == SumRows(calls, HourOf(starts[0]), EndHour(starts[|starts| - 1], ends[|ends| - 1]))
  }

  function ViewOf(table: Table, starts: seq<int>, ends: seq<int>): View
    requires |starts| == |ends|
  {
    var buckets := seq(|starts|, i requires 0 <= i < |starts| => BucketOf(table, starts[i], ends[i]));
    View(buckets, SumRecs(buckets))
  }

  /** A view counts every call of its window once, for all calls, if and only if its buckets meet. */
  lemma ViewCountsRightIff(starts: seq<int>, ends: seq<int>)
    requires Rising(starts, ends)
    ensures CountsRight(starts, ends) <==> Meet(starts, ends)
  {
    EachHourOnceIff(starts, ends);
    if Meet(starts, ends) {
      forall calls, view | Shows(Upserts(map[], calls), starts, ends, view)
        ensures view.total == SumRows(calls, HourOf(starts[0]), EndHour(starts[|starts| - 1], ends[|ends| - 1]))
      {
        ViewCountsEachCall(calls, starts, ends, view);
      }
    } else {
      var h :| InWindow(starts, ends, h) && !InOneBucket(starts, ends, h);
      var call := CallIn(h);
      WrongFor(starts, ends, call);
    }
  }

  lemma WrongFor(starts: seq<int>, ends: seq<int>, call: LogRow)
    requires |starts| == |ends| > 0 && call.ts.Some?
    requires InWindow(starts, ends, HourOf(call.ts.value)) && !InOneBucket(starts, ends, HourOf(call.ts.value))
    ensures !CountsRight(starts, ends)
  {
    var lo, hi := HourOf(starts[0]), EndHour(starts[|starts| - 1], ends[|ends| - 1]);
    var view := ViewOf(Upserts(map[], [call]), starts, ends);
    OneCallCounts(call, starts, ends, view);
    OneBucketIff(starts, ends, HourOf(call.ts.value));
    OneCallSum(call, lo, hi);
    assert Shows(Upserts(map[], [call]), starts, ends, view) && view.total != SumRows([call], lo, hi);
  }

  lemma CallIn(h: int) returns (call: LogRow)
    ensures call.ts.Some? && HourOf(call.ts.value) == h
  {
    call := LogRow(Some(h * 3600), 0, 0, 0, 0.0, 0.0);
  }

  lemma OneCallSum(call: LogRow, lo: int, hi: int)
    requires Falls(call, lo, hi)
    ensures SumRows([call], lo, hi).n == 1
  {
    SumRowsMore([], call, lo, hi);
    assert [] + [call] == [call];
  }
}
