/**
 The fixed-window limit on requests per minute. A window opens with the request that finds none
 open, and lasts a minute. Times are the readings of a monotone clock, in nanoseconds.
 */
module RateLimit {
  const MINUTE: int := 60_000_000_000

  type KeyId = int

  datatype Bucket = Bucket(window: int, count: int)

  type Buckets = map<KeyId, Bucket>

  /** `AllowRPM`: the new buckets and the answer. */
  function Allow(buckets: Buckets, key: KeyId, rpm: int, now: int): (Buckets, bool) {
    if rpm <= 0 then (buckets, true)
    else if key !in buckets || now - buckets[key].window >= MINUTE then (buckets[key := Bucket(now, 1)], true)
    else if buckets[key].count >= rpm then (buckets, false)
    else (buckets[key := Bucket(buckets[key].window, buckets[key].count + 1)], true)
  }

  class Service {
    var buckets: Buckets

    constructor ()
      ensures buckets == map[]
    {
      buckets := map[];
    }

    method AllowRPM(key: KeyId, rpm: int, now: int) returns (ok: bool)
      modifies this
      ensures (buckets, ok) == Allow(old(buckets), key, rpm, now)
    {
      if rpm <= 0 {
        return true;
      }
      if key !in buckets || now - buckets[key].window >= MINUTE {
        buckets := buckets[key := Bucket(now, 1)];
        return true;
      }
      if buckets[key].count >= rpm {
        return false;
      }
      buckets := buckets[key := buckets[key].(count := buckets[key].count + 1)];
      return true;
    }
  }

  // ---- whole runs -------------------------------------------------------------------------------

  datatype Call = Call(key: KeyId, now: int)

  /** A grant, with the window that granted it. */
  datatype Grant = Grant(now: int, window: int)

  /** The clock does not go back. */
  ghost predicate Monotone(calls: seq<Call>) {
    forall i, j :: 0 <= i < j < |calls| ==> calls[i].now <= calls[j].now
  }

  /** Every key has a limit of its own that does not change. */
  function After(limits: map<KeyId, int>, calls: seq<Call>): Buckets
    decreases |calls|
  {
    if calls == [] then map[]
    else
      var c := calls[|calls| - 1];
      Allow(After(limits, calls[..|calls| - 1]), c.key, if c.key in limits then limits[c.key] else 0, c.now).0
  }

  function Granted(limits: map<KeyId, int>, calls: seq<Call>): bool
    requires calls != []
  {
    var c := calls[|calls| - 1];
    Allow(After(limits, calls[..|calls| - 1]), c.key, if c.key in limits then limits[c.key] else 0, c.now).1
  }

  /** The grants of one key, in order. */
  function Grants(limits: map<KeyId, int>, calls: seq<Call>, key: KeyId): seq<Grant>
    decreases |calls|
  {
    if calls == [] then []
    else
      var before, c := calls[..|calls| - 1], calls[|calls| - 1];
      if c.key == key && Granted(limits, calls) && key in After(limits, calls)
      then Grants(limits, before, key) + [Grant(c.now, After(limits, calls)[key].window)]
      else Grants(limits, before, key)
  }

  function CountIn(grants: seq<Grant>, from: int, to: int): nat
    decreases |grants|
  {
    if grants == [] then 0
    else CountIn(grants[..|grants| - 1], from, to) + (if from <= grants[|grants| - 1].now < to then 1 else 0)
  }

  function CountOf(grants: seq<Grant>, window: int): nat
    decreases |grants|
  {
    if grants == [] then 0
    else CountOf(grants[..|grants| - 1], window) + (if grants[|grants| - 1].window == window then 1 else 0)
  }

  ghost predicate Inside(grants: seq<Grant>) {
    forall i :: 0 <= i < |grants| ==> grants[i].window <= grants[i].now < grants[i].window + MINUTE
  }

  /** Grants come in time order, and different windows are a minute or more apart. */
  ghost predicate Apart(grants: seq<Grant>) {
    forall i, j :: 0 <= i < j < |grants| ==>
      && grants[i].now <= grants[j].now
      && (grants[i].window == grants[j].window || grants[i].window + MINUTE <= grants[j].window)
  }

  ghost predicate Opens(grants: seq<Grant>, i: int) {
    0 <= i < |grants| && (i == 0 || grants[i - 1].window != grants[i].window)
  }

  /** The first grant of a window is at its very start. */
  ghost predicate OpenedByGrant(grants: seq<Grant>) {
    forall i :: Opens(grants, i) ==> grants[i].now == grants[i].window
  }

  ghost predicate Limited(grants: seq<Grant>, rpm: int) {
    forall w :: CountOf(grants, w) <= rpm
  }

  /** What a run leaves behind for one key. */
  ghost predicate Windowed(grants: seq<Grant>, rpm: int) {
    Inside(grants) && Apart(grants) && OpenedByGrant(grants) && Limited(grants, rpm)
  }

  ghost predicate BucketOk(b: Buckets, grants: seq<Grant>, key: KeyId) {
    if grants == [] then key !in b
    else
      var last := grants[|grants| - 1];
      key in b && b[key].window == last.window && b[key].count == CountOf(grants, last.window)
  }

  lemma {:induction false} NewWindowIsEmpty(grants: seq<Grant>, w: int)
    requires forall i :: 0 <= i < |grants| ==> grants[i].window != w
    ensures CountOf(grants, w) == 0
    decreases |grants|
  {
    if grants != [] {
      NewWindowIsEmpty(grants[..|grants| - 1], w);
    }
  }

  /** A further grant: in the open window while it lasts and has room, else at the start of a new one. */
  ghost predicate Follows(grants: seq<Grant>, rpm: int, g: Grant) {
    if grants == [] then g.window == g.now
    else
      var last := grants[|grants| - 1];
      && last.now <= g.now
      && if g.now < last.window + MINUTE then g.window == last.window && CountOf(grants, g.window) < rpm
         else g.window == g.now
  }

  lemma FollowsApart(grants: seq<Grant>, rpm: int, g: Grant)
    requires Inside(grants) && Apart(grants) && Follows(grants, rpm, g)
    ensures Inside(grants + [g]) && Apart(grants + [g])
    ensures grants != [] && g.window != grants[|grants| - 1].window ==>
      forall i :: 0 <= i < |grants| ==> grants[i].window < g.window
  {
    if grants != [] {
      var n := |grants| - 1;
      assert forall i :: 0 <= i < n ==>
        grants[i].window == grants[n].window || grants[i].window + MINUTE <= grants[n].window;
    }
  }

  lemma CountMore(grants: seq<Grant>, g: Grant, w: int)
    ensures CountOf(grants + [g], w) == CountOf(grants, w) + (if w == g.window then 1 else 0)
  {
    assert (grants + [g])[..|grants|] == grants;
  }

  lemma OpenedMore(grants: seq<Grant>, rpm: int, g: Grant)
    requires OpenedByGrant(grants) && Follows(grants, rpm, g)
    ensures OpenedByGrant(grants + [g])
  {
    var more := grants + [g];
    forall i | Opens(more, i)
      ensures more[i].now == more[i].window
    {
      if i < |grants| {
        assert Opens(grants, i);
      }
    }
  }

  lemma GrantMore(grants: seq<Grant>, rpm: int, g: Grant)
    requires rpm >= 1 && Windowed(grants, rpm) && Follows(grants, rpm, g)
    ensures Windowed(grants + [g], rpm)
    ensures CountOf(grants + [g], g.window) == if grants != [] && g.window == grants[|grants| - 1].window
                                               then CountOf(grants, g.window) + 1 else 1
  {
    FollowsApart(grants, rpm, g);
    OpenedMore(grants, rpm, g);
    if grants == [] || g.window != grants[|grants| - 1].window {
      NewWindowIsEmpty(grants, g.window);
    }
    CountMore(grants, g, g.window);
    forall w
      ensures CountOf(grants + [g], w) <= rpm
    {
      CountMore(grants, g, w);
      assert CountOf(grants, w) <= rpm;
    }
  }

  /** One call for this key, granted or not. */
  lemma CallStep(b: Buckets, grants: seq<Grant>, key: KeyId, rpm: int, now: int)
    requires rpm >= 1 && Windowed(grants, rpm) && BucketOk(b, grants, key)
    requires grants != [] ==> grants[|grants| - 1].now <= now
    ensures var (b', ok) := Allow(b, key, rpm, now);
      var grants' := if ok then grants + [Grant(now, b'[key].window)] else grants;
      Windowed(grants', rpm) && BucketOk(b', grants', key)
  {
    var (b', ok) := Allow(b, key, rpm, now);
    if ok {
      GrantMore(grants, rpm, Grant(now, b'[key].window));
    }
  }

  /** What the last call of a run did for one key. */
  lemma LastCall(limits: map<KeyId, int>, before: seq<Call>, c: Call, key: KeyId)
    requires key in limits && limits[key] >= 1
    ensures var calls, b, grants := before + [c], After(limits, before), Grants(limits, before, key);
      var (b', ok) := Allow(b, key, limits[key], c.now);
      && (c.key == key ==>
        && After(limits, calls) == b'
        && Grants(limits, calls, key) == if ok then grants + [Grant(c.now, b'[key].window)] else grants)
      && (c.key != key ==> Grants(limits, calls, key) == grants && SameBucket(b, After(limits, calls), key))
  {
    assert (before + [c])[..|before|] == before;
  }

  predicate SameBucket(a: Buckets, b: Buckets, key: KeyId) {
    (key in a <==> key in b) && (key in a ==> a[key] == b[key])
  }

  /** A key's grants so far, all by `latest`, and its bucket. */
  ghost predicate Tracks(b: Buckets, grants: seq<Grant>, key: KeyId, rpm: int, latest: int) {
    && Windowed(grants, rpm) && BucketOk(b, grants, key)
    && (grants != [] ==> grants[|grants| - 1].now <= latest)
  }

  lemma NothingYet(key: KeyId, rpm: int, latest: int)
    requires rpm >= 1
    ensures Tracks(map[], [], key, rpm, latest)
  {
    assert forall w :: CountOf([], w) == 0;
  }

  lemma OneCall(limits: map<KeyId, int>, before: seq<Call>, c: Call, key: KeyId, latest: int)
    requires key in limits && limits[key] >= 1 && latest <= c.now
    requires Tracks(After(limits, before), Grants(limits, before, key), key, limits[key], latest)
    ensures Tracks(After(limits, before + [c]), Grants(limits, before + [c], key), key, limits[key], c.now)
  {
    LastCall(limits, before, c, key);
    if c.key == key {
      CallStep(After(limits, before), Grants(limits, before, key), key, limits[key], c.now);
    }
  }

  /** Every run of the service keeps the windows of every limited key. */
  lemma {:induction false} RunIsWindowed(limits: map<KeyId, int>, calls: seq<Call>, key: KeyId, start: int)
    requires Monotone(calls) && key in limits && limits[key] >= 1 && (calls != [] ==> start <= calls[0].now)
    ensures Tracks(After(limits, calls), Grants(limits, calls, key), key, limits[key],
                   if calls == [] then start else calls[|calls| - 1].now)
    decreases |calls|
  {
    if calls == [] {
      NothingYet(key, limits[key], start);
    } else {
      var before, c := calls[..|calls| - 1], calls[|calls| - 1];
      RunIsWindowed(limits, before, key, start);
      assert calls == before + [c];
      OneCall(limits, before, c, key, if before == [] then start else before[|before| - 1].now);
    }
  }

  /** Each window grants at most the limit. */
  lemma WindowBound(limits: map<KeyId, int>, calls: seq<Call>, key: KeyId, window: int)
    requires Monotone(calls) && key in limits && limits[key] >= 1
    ensures CountOf(Grants(limits, calls, key), window) <= limits[key]
  {
    RunIsWindowed(limits, calls, key, if calls == [] then 0 else calls[0].now);
  }

  /** Grants of an interval all come from the windows `w1` and `w2`. */
  lemma {:induction false} TwoWindows(grants: seq<Grant>, from: int, to: int, w1: int, w2: int)
    requires forall i :: 0 <= i < |grants| && from <= grants[i].now < to ==>
      grants[i].window == w1 || grants[i].window == w2
    ensures CountIn(grants, from, to) <= CountOf(grants, w1) + CountOf(grants, w2)
    ensures w1 == w2 ==> CountIn(grants, from, to) <= CountOf(grants, w1)
    decreases |grants|
  {
    if grants != [] {
      TwoWindows(grants[..|grants| - 1], from, to, w1, w2);
    }
  }

  /** ... and when a grant of `w1` falls outside the interval, one less. */
  lemma {:induction false} TwoWindowsButOne(grants: seq<Grant>, from: int, to: int, w1: int, w2: int, k: nat)
    requires forall i :: 0 <= i < |grants| && from <= grants[i].now < to ==>
      grants[i].window == w1 || grants[i].window == w2
    requires k < |grants| && grants[k].window == w1 && !(from <= grants[k].now < to)
    ensures CountIn(grants, from, to) + 1 <= CountOf(grants, w1) + CountOf(grants, w2)
    decreases |grants|
  {
    var n := |grants| - 1;
    if k == n {
      TwoWindows(grants[..n], from, to, w1, w2);
    } else {
      TwoWindowsButOne(grants[..n], from, to, w1, w2, k);
    }
  }

  lemma {:induction false} NoneIn(grants: seq<Grant>, from: int, to: int)
    requires forall i :: 0 <= i < |grants| ==> !(from <= grants[i].now < to)
    ensures CountIn(grants, from, to) == 0
    decreases |grants|
  {
    if grants != [] {
      NoneIn(grants[..|grants| - 1], from, to);
    }
  }

  /** The first grant of the window of grant `i`. */
  lemma {:induction false} Opening(grants: seq<Grant>, i: nat) returns (k: nat)
    requires OpenedByGrant(grants) && i < |grants|
    ensures k <= i && grants[k].window == grants[i].window && grants[k].now == grants[k].window
    decreases i
  {
    if Opens(grants, i) {
      k := i;
    } else {
      k := Opening(grants, i - 1);
    }
  }

  lemma FirstAndLast(grants: seq<Grant>, from: int, to: int) returns (a: nat, b: nat)
    requires exists i :: 0 <= i < |grants| && from <= grants[i].now < to
    ensures a <= b < |grants| && from <= grants[a].now < to && from <= grants[b].now < to
    ensures forall i :: 0 <= i < |grants| && from <= grants[i].now < to ==> a <= i <= b
  {
    a := 0;
    while !(from <= grants[a].now < to)
      invariant a < |grants| && forall i :: 0 <= i < a ==> !(from <= grants[i].now < to)
      invariant exists i :: a <= i < |grants| && from <= grants[i].now < to
      decreases |grants| - a
    {
      a := a + 1;
    }
    b := |grants| - 1;
    while !(from <= grants[b].now < to)
      invariant a <= b < |grants| && forall i :: b < i < |grants| ==> !(from <= grants[i].now < to)
      decreases b
    {
      b := b - 1;
    }
  }

  /** Of the grants of one minute every one is in the window of the first or of the last. */
  lemma MiddleWindow(grants: seq<Grant>, t: int, a: nat, b: nat, i: nat)
    requires Inside(grants) && Apart(grants)
    requires a <= i <= b < |grants| && t <= grants[a].now && grants[b].now < t + MINUTE
    ensures grants[i].window == grants[a].window || grants[i].window == grants[b].window
    ensures grants[a].window != grants[b].window ==> grants[a].window < t
  {
  }

  lemma AnyMinute(grants: seq<Grant>, rpm: int, t: int)
    requires rpm >= 1 && Windowed(grants, rpm)
    ensures CountIn(grants, t, t + MINUTE) <= 2 * rpm - 1
  {
    if exists i :: 0 <= i < |grants| && t <= grants[i].now < t + MINUTE {
      var a, b := FirstAndLast(grants, t, t + MINUTE);
      var w1, w2 := grants[a].window, grants[b].window;
      forall i | 0 <= i < |grants| && t <= grants[i].now < t + MINUTE
        ensures grants[i].window == w1 || grants[i].window == w2
      {
        MiddleWindow(grants, t, a, b, i);
      }
      assert CountOf(grants, w1) <= rpm && CountOf(grants, w2) <= rpm;
      if w1 == w2 {
        TwoWindows(grants, t, t + MINUTE, w1, w2);
      } else {
        MiddleWindow(grants, t, a, b, a);
        var k := Opening(grants, a);
        TwoWindowsButOne(grants, t, t + MINUTE, w1, w2, k);
      }
    } else {
      NoneIn(grants, t, t + MINUTE);
    }
  }

  /** Any half-open minute, wherever it starts, holds at most twice the limit less one grants of a key. */
  lemma RateBound(limits: map<KeyId, int>, calls: seq<Call>, key: KeyId, t: int)
    requires Monotone(calls) && key in limits && limits[key] >= 1
    ensures CountIn(Grants(limits, calls, key), t, t + MINUTE) <= 2 * limits[key] - 1
  {
    RunIsWindowed(limits, calls, key, if calls == [] then 0 else calls[0].now);
    AnyMinute(Grants(limits, calls, key), limits[key], t);
  }

  // ---- the bound is reached ---------------------------------------------------------------------

  lemma OneMoreCall(key: KeyId, rpm: int, calls: seq<Call>, now: int, from: int)
    requires rpm >= 1
    ensures var limits, more := map[key := rpm], calls + [Call(key, now)];
      && After(limits, more) == Allow(After(limits, calls), key, rpm, now).0
      && CountIn(Grants(limits, more, key), from, from + MINUTE)
         == CountIn(Grants(limits, calls, key), from, from + MINUTE)
            + (if Allow(After(limits, calls), key, rpm, now).1 && from <= now < from + MINUTE then 1 else 0)
  {
    var limits, more := map[key := rpm], calls + [Call(key, now)];
    assert more[..|more| - 1] == calls;
    var g := Grants(limits, calls, key);
    if Allow(After(limits, calls), key, rpm, now).1 {
      var last := Grant(now, After(limits, more)[key].window);
      assert (g + [last])[..|g|] == g;
      assert Grants(limits, more, key) == g + [last];
    }
  }

  /** `n` more calls at one instant of an open window with room for them: all are granted. */
  lemma {:induction false} Burst(key: KeyId, rpm: int, calls: seq<Call>, now: int, n: nat, from: int, window: int,
                                 count: int)
    returns (more: seq<Call>)
    requires rpm >= 1 && After(map[key := rpm], calls) == map[key := Bucket(window, count)]
    requires now - window < MINUTE && count + n <= rpm && from <= now < from + MINUTE
    requires Monotone(calls) && (calls != [] ==> calls[|calls| - 1].now <= now)
    ensures After(map[key := rpm], more) == map[key := Bucket(window, count + n)]
    ensures CountIn(Grants(map[key := rpm], more, key), from, from + MINUTE)
         == CountIn(Grants(map[key := rpm], calls, key), from, from + MINUTE) + n
    ensures Monotone(more) && (more != [] ==> more[|more| - 1].now <= now)
    decreases n
  {
    if n == 0 {
      more := calls;
    } else {
      OneMoreCall(key, rpm, calls, now, from);
      more := Burst(key, rpm, calls + [Call(key, now)], now, n - 1, from, window, count + 1);
    }
  }

  /** For every limit there is a run with twice the limit less one grants within one minute. */
  lemma BoundIsReached(key: KeyId, rpm: int) returns (calls: seq<Call>, t: int)
    requires rpm >= 1
    ensures Monotone(calls) && CountIn(Grants(map[key := rpm], calls, key), t, t + MINUTE) == 2 * rpm - 1
  {
    t := 1;
    OneMoreCall(key, rpm, [], 0, t);
    var first := [] + [Call(key, 0)];
    calls := Burst(key, rpm, first, MINUTE - 1, rpm - 1, t, 0, 1);
    OneMoreCall(key, rpm, calls, MINUTE, t);
    calls := calls + [Call(key, MINUTE)];
    calls := Burst(key, rpm, calls, MINUTE, rpm - 1, t, MINUTE, 1);
  }
}
