/** The store: the request log, the hourly table it keeps up to date, and the loops that read it. */
module BillingStore {
  import opened Wrappers
  import opened Billing
  import opened BillingView

  const LOG_MAX := 500

  class Store {
    var hours: Table
    var log: seq<LogRow>
    /** Every call the table accounts for. */
    ghost var calls: seq<LogRow>

    ghost predicate Valid()
      reads this
    {
      hours == Upserts(map[], calls)
    }

    constructor ()
      ensures Valid() && calls == [] && log == []
    {
      hours, log, calls := map[], [], [];
    }

    /** `Log`: the request log keeps the newest 500 rows, the table every call. */
    method LogCall(row: LogRow)
      requires Valid() && row.ts.Some?
      modifies this
      ensures Valid() && calls == old(calls) + [row]
      ensures log == Newest(old(log) + [row])
    {
      log := log + [row];
      if |log| > LOG_MAX {
        log := log[|log| - LOG_MAX..];
      }
      hours := Upsert(hours, HourOf(row.ts.value), row.One());
      calls := calls + [row];
      assert calls[..|calls| - 1] == old(calls);
    }

    /** Fills an empty table from the log: first grouped by hour, then one upsert an hour, in any order. */
    method Backfill()
      requires Valid()
      modifies this`hours, this`calls
      ensures Valid()
      ensures if old(hours) == map[] then calls == log else hours == old(hours) && calls == old(calls)
    {
      if hours != map[] {
        return;
      }
      var grouped: Table := map[];
      for i := 0 to |log|
        invariant grouped == Upserts(map[], log[..i])
        invariant hours == map[]
      {
        ghost var upTo := log[..i + 1];
        assert upTo[..|upTo| - 1] == log[..i];
        var row := log[i];
        if row.ts == None {
          continue;
        }
        var k := HourOf(row.ts.value);
        var cur := At(grouped, k);
        grouped := grouped[k := cur.Plus(row.One())];
      }
      assert log[..|log|] == log;
      hours := Refilled(grouped);
      calls := log;
    }

    /** The hours listed for a window, one more on either side. */
    method ListHours(from: int, to: int) returns (byHour: Table)
      ensures Listed(hours, byHour, HourOf(from), HourOf(to + 3600))
    {
      byHour := map h | h in hours && HourOf(from) <= h < HourOf(to + 3600) :: hours[h];
    }

    /** The loop over the hours of one bucket. */
    method SumBucket(byHour: Table, ghost lo: int, ghost hi: int, start: int, end: int) returns (b: Rec)
      requires start < end ==> lo <= HourOf(start) && EndHour(start, end) <= hi
      requires Listed(hours, byHour, lo, hi)
      ensures b == BucketOf(hours, start, end)
    {
      var t := start;
      b := ZERO;
      ghost var k := 0;
      while t < end
        invariant 0 <= k <= Steps(start, end) && t == start + k * 3600
        invariant b == SumHours(hours, HourOf(start), HourOf(start) + k)
        decreases end - t
      {
        StepsIff(start, end, k);
        NextSum(hours, byHour, lo, hi, HourOf(start), HourOf(start) + k, b);
        if HourOf(t) in byHour {
          b := b.Plus(byHour[HourOf(t)]);
        }
        t, k := t + 3600, k + 1;
      }
      StepsIff(start, end, k);
    }

    method Overview(starts: seq<int>, ends: seq<int>) returns (view: View)
      requires Enclosed(starts, ends)
      ensures Shows(hours, starts, ends, view)
    {
      var from, to := starts[0] - 3600, ends[|ends| - 1] + 3600;
      var byHour := ListHours(from, to);
      var buckets, total := [], ZERO;
      for i := 0 to |starts|
        invariant |buckets| == i && forall j :: 0 <= j < i ==> buckets[j] == BucketOf(hours, starts[j], ends[j])
        invariant total == SumRecs(buckets)
      {
        var start, end := starts[i], ends[i];
        ListedFor(starts, ends, i);
        var b := SumBucket(byHour, HourOf(from), HourOf(to + 3600), start, end);
        ghost var before := buckets;
        buckets := buckets + [b];
        assert buckets[..|buckets| - 1] == before;
        total := total.Plus(b);
      }
      view := View(buckets, total);
    }
  }

  /** The table `whole` in two parts. */
  ghost predicate Parted(whole: Table, done: Table, rest: Table) {
    forall h :: Look(whole, h) == if h in done then Look(done, h) else Look(rest, h)
  }

  function Look(table: Table, h: int): Option<Rec> {
    if h in table then Some(table[h]) else None
  }

  lemma PartMoves(whole: Table, done: Table, rest: Table, k: int)
    requires Parted(whole, done, rest) && done.Keys !! rest.Keys && k in rest
    ensures var done', rest' := Upsert(done, k, rest[k]), rest - {k};
      Parted(whole, done', rest') && done'.Keys !! rest'.Keys
  {
    var done', rest' := Upsert(done, k, rest[k]), rest - {k};
    forall h
      ensures Look(whole, h) == if h in done' then Look(done', h) else Look(rest', h)
    {
      assert Look(whole, h) == if h in done then Look(done, h) else Look(rest, h);
    }
  }

  lemma AllMoved(whole: Table, done: Table)
    requires Parted(whole, done, map[])
    ensures done == whole
  {
    forall h
      ensures (h in done <==> h in whole) && (h in done && h in whole ==> done[h] == whole[h])
    {
      assert Look(whole, h) == if h in done then Look(done, h) else Look(map[], h);
    }
  }

  method AnyKey<K, V>(m: map<K, V>) returns (k: K)
    requires m != map[]
    ensures k in m
  {
    k :| k in m;
  }

  /** One upsert an hour into an empty table, in any order. */
  method Refilled(grouped: Table) returns (hours: Table)
    ensures hours == grouped
  {
    hours := map[];
    var rest := grouped;
    while rest != map[]
      invariant hours.Keys !! rest.Keys && Parted(grouped, hours, rest)
      decreases |rest|
    {
      var k := AnyKey(rest);
      PartMoves(grouped, hours, rest, k);
      hours := Upsert(hours, k, rest[k]);
      rest := rest - {k};
    }
    AllMoved(grouped, hours);
  }

  function Newest(log: seq<LogRow>): seq<LogRow> {
    if |log| <= LOG_MAX then log else log[|log| - LOG_MAX..]
  }

  ghost predicate Listed(table: Table, listed: Table, lo: int, hi: int) {
    forall h :: lo <= h < hi ==> (h in listed <==> h in table) && (h in listed ==> listed[h] == table[h])
  }

  /** After `k` steps by whole hours the next hour's turn comes exactly while steps are left. */
  lemma StepsIff(s: int, e: int, k: nat)
    ensures s + k * 3600 < e <==> k < Steps(s, e)
    ensures HourOf(s + k * 3600) == HourOf(s) + k
  {
  }

  /** One more hour of a bucket, looked up among the listed ones. */
  lemma NextSum(table: Table, listed: Table, lo: int, hi: int, first: int, h: int, before: Rec)
    requires Listed(table, listed, lo, hi) && lo <= first <= h < hi && before == SumHours(table, first, h)
    ensures (if h in listed then before.Plus(listed[h]) else before) == SumHours(table, first, h + 1)
  {
    var next := h + 1;
    assert SumHours(table, first, next) == SumHours(table, first, next - 1).Plus(At(table, next - 1));
    PlusMoves(before, ZERO, ZERO);
  }

  /** The first bucket begins first and the last one ends last. */
  ghost predicate Enclosed(starts: seq<int>, ends: seq<int>) {
    && |starts| == |ends| > 0
    && (forall i :: 0 <= i < |starts| ==> starts[0] <= starts[i])
    && (forall i :: 0 <= i < |ends| ==> ends[i] <= ends[|ends| - 1])
  }

  /** The hours listed for a window include every hour that its buckets look at. */
  lemma ListedFor(starts: seq<int>, ends: seq<int>, i: nat)
    requires Enclosed(starts, ends) && i < |starts|
    ensures HourOf(starts[0] - 3600) <= HourOf(starts[i])
    ensures starts[i] < ends[i] ==> EndHour(starts[i], ends[i]) <= HourOf(ends[|ends| - 1] + 3600 + 3600)
  {
    LaterHour(starts[0] - 3600, starts[i]);
    if starts[i] < ends[i] {
      EndHourIs(starts[i], ends[i]);
      LaterHour(ends[i] + 3600, ends[|ends| - 1] + 3600 + 3600);
    }
  }
}
