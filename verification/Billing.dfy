/**
 The hourly billing table and the calls it accounts for. Times are whole seconds; an hour is named by the
 number of hours since time zero.
 */
module Billing {
  import opened Wrappers

  datatype Rec = Rec(n: int, prompt: int, completion: int, cached: int, cost: real, saved: real) {
    function Plus(o: Rec): Rec {
      Rec(n + o.n, prompt + o.prompt, completion + o.completion, cached + o.cached, cost + o.cost, saved + o.saved)
    }
  }

  const ZERO := Rec(0, 0, 0, 0, 0.0, 0.0)

  /** A row of the request log; a time stamp that cannot be read is None. */
  datatype LogRow = LogRow(ts: Option<int>, prompt: int, completion: int, cached: int, cost: real, saved: real) {
    function One(): Rec {
      Rec(1, prompt, completion, cached, cost, saved)
    }
  }

  type Table = map<int, Rec>

  function HourOf(t: int): int {
    t / 3600
  }

  function At(table: Table, h: int): Rec {
    if h in table then table[h] else ZERO
  }

  /** The upsert of `addBilling`. */
  function Upsert(table: Table, h: int, r: Rec): Table {
    table[h := if h in table then table[h].Plus(r) else r]
  }

  /** One call entered into the table; a row without a time is skipped. */
  function Entered(table: Table, row: LogRow): Table {
    if row.ts == None then table else Upsert(table, HourOf(row.ts.value), row.One())
  }

  function Upserts(table: Table, rows: seq<LogRow>): Table
    decreases |rows|
  {
    if rows == [] then table else Entered(Upserts(table, rows[..|rows| - 1]), rows[|rows| - 1])
  }

  // ---- the table is what the calls add up to ----------------------------------------------------------

  predicate Falls(row: LogRow, lo: int, hi: int) {
    row.ts.Some? && lo <= HourOf(row.ts.value) < hi
  }

  /** The calls of the hours from `lo` up to, not including, `hi`, added up. */
  function SumRows(rows: seq<LogRow>, lo: int, hi: int): Rec
    decreases |rows|
  {
    if rows == [] then ZERO
    else
      var before, last := SumRows(rows[..|rows| - 1], lo, hi), rows[|rows| - 1];
      if Falls(last, lo, hi) then before.Plus(last.One()) else before
  }

  /** The table's hours from `lo` up to, not including, `hi`, added up. */
  function SumHours(table: Table, lo: int, hi: int): Rec
    decreases hi - lo
  {
    if hi <= lo then ZERO else SumHours(table, lo, hi - 1).Plus(At(table, hi - 1))
  }

  function SumRecs(recs: seq<Rec>): Rec
    decreases |recs|
  {
    if recs == [] then ZERO else SumRecs(recs[..|recs| - 1]).Plus(recs[|recs| - 1])
  }

  lemma {:induction false} UpsertAddsOnce(table: Table, h: int, r: Rec, lo: int, hi: int)
    ensures SumHours(Upsert(table, h, r), lo, hi) ==
      if lo <= h < hi then SumHours(table, lo, hi).Plus(r) else SumHours(table, lo, hi)
    decreases hi - lo
  {
    if lo < hi {
      UpsertAddsOnce(table, h, r, lo, hi - 1);
      AtUpsert(table, h, r, hi - 1);
      PlusMoves(SumHours(table, lo, hi - 1), At(table, hi - 1), r);
    }
  }

  lemma AtUpsert(table: Table, h: int, r: Rec, k: int)
    ensures At(Upsert(table, h, r), k) == if k == h then At(table, h).Plus(r) else At(table, k)
  {
  }

  lemma PlusMoves(a: Rec, b: Rec, c: Rec)
    ensures a.Plus(b).Plus(c) == a.Plus(b.Plus(c)) == a.Plus(c).Plus(b)
    ensures a.Plus(ZERO) == a == ZERO.Plus(a)
  {
  }

  /** A window of the table holds exactly the calls of that window. */
  lemma {:induction false} TableHoldsCalls(rows: seq<LogRow>, lo: int, hi: int)
    ensures SumHours(Upserts(map[], rows), lo, hi) == SumRows(rows, lo, hi)
    decreases |rows|
  {
    if rows == [] {
      EmptySum(lo, hi);
    } else {
      var front, last := rows[..|rows| - 1], rows[|rows| - 1];
      TableHoldsCalls(front, lo, hi);
      if last.ts.Some? {
        UpsertAddsOnce(Upserts(map[], front), HourOf(last.ts.value), last.One(), lo, hi);
      }
    }
  }

  lemma {:induction false} EmptySum(lo: int, hi: int)
    ensures SumHours(map[], lo, hi) == ZERO
    decreases hi - lo
  {
    if lo < hi {
      EmptySum(lo, hi - 1);
    }
  }

  // ---- the order of the calls does not matter ---------------------------------------------------------

  lemma EnteredCommute(table: Table, a: LogRow, b: LogRow)
    ensures Entered(Entered(table, a), b) == Entered(Entered(table, b), a)
  {
  }

  lemma {:induction false} MoveToEnd(table: Table, a: seq<LogRow>, x: LogRow, b: seq<LogRow>)
    ensures Upserts(table, a + [x] + b) == Entered(Upserts(table, a + b), x)
    decreases |b|
  {
    var all, rest := a + [x] + b, a + b;
    if b == [] {
      assert all[..|all| - 1] == a && rest == a;
    } else {
      var b', y := b[..|b| - 1], b[|b| - 1];
      MoveToEnd(table, a, x, b');
      assert all[..|all| - 1] == a + [x] + b' && rest[..|rest| - 1] == a + b';
      EnteredCommute(Upserts(table, a + b'), x, y);
    }
  }

  lemma SameRest(front: seq<LogRow>, rest: seq<LogRow>, x: LogRow, p: seq<LogRow>, q: seq<LogRow>, a: seq<LogRow>,
                 b: seq<LogRow>)
    requires p == front + [x] && q == a + [x] + b && rest == a + b && multiset(p) == multiset(q)
    ensures multiset(front) == multiset(rest)
  {
    assert multiset(p) == multiset(front) + multiset{x};
    assert multiset(q) == multiset(rest) + multiset{x};
    assert multiset(front) == multiset(p) - multiset{x};
  }

  /** Entering the same calls in any order gives the same table. */
  lemma {:induction false} AnyOrder(table: Table, p: seq<LogRow>, q: seq<LogRow>)
    requires multiset(p) == multiset(q)
    ensures Upserts(table, p) == Upserts(table, q)
    decreases |p|
  {
    if p == [] {
      assert |multiset(q)| == 0;
    } else {
      var front, x := p[..|p| - 1], p[|p| - 1];
      assert p == front + [x];
      assert x in multiset(q);
      var i :| 0 <= i < |q| && q[i] == x;
      var a, b := q[..i], q[i + 1..];
      assert q == a + [x] + b;
      SameRest(front, a + b, x, p, q, a, b);
      AnyOrder(table, front, a + b);
      MoveToEnd(table, a, x, b);
    }
  }
}
