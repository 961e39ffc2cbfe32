/**
 The queue's sequential methods, as they run when nothing interferes: the sorted waiting list,
 one dispatch call, finish, drop and the counts.
 */
module QueueEngine {
  import opened Wrappers
  import opened QueueModel

  class Waiter {
    const id: string
    const queue: QueueId
    const seqNo: nat
    var status: Status
    var model: string
    var error: string
    var done: bool

    constructor (id: string, queue: QueueId, seqNo: nat)
      ensures this.id == id && this.queue == queue && this.seqNo == seqNo
      ensures status == Waiting && model == "" && error == "" && !done
    {
      this.id, this.queue, this.seqNo := id, queue, seqNo;
      status, model, error, done := Waiting, "", "", false;
    }
  }

  // ---- the plan of a dispatch -----------------------------------------------------------------

  function AddOne(counts: map<string, int>, m: string): map<string, int> {
    counts[m := Get(counts, m) + 1]
  }

  /** The models that `n` waiting jobs get one after the other, until no step has a free slot. */
  function Plan(steps: seq<QueueStep>, routable: set<string>, counts: map<string, int>, n: nat): seq<string>
    decreases n
  {
    if n == 0 then []
    else
      match PickStep(steps, counts, routable)
      case None => []
      case Some(st) => [st.alias] + Plan(steps, routable, AddOne(counts, st.alias), n - 1)
  }

  function Load(counts: map<string, int>, models: seq<string>): map<string, int>
    decreases |models|
  {
    if models == [] then counts else Load(AddOne(counts, models[0]), models[1..])
  }

  function Occurrences(models: seq<string>, m: string): nat {
    if models == [] then 0 else (if models[0] == m then 1 else 0) + Occurrences(models[1..], m)
  }

  lemma {:induction false} LoadCounts(counts: map<string, int>, models: seq<string>, m: string)
    ensures Get(Load(counts, models), m) == Get(counts, m) + Occurrences(models, m)
    decreases |models|
  {
    if models != [] {
      LoadCounts(AddOne(counts, models[0]), models[1..], m);
    }
  }

  /** The plan places every job, or goes on until every routable step is at its cap. */
  lemma {:induction false} PlanIsMaximal(steps: seq<QueueStep>, routable: set<string>, counts: map<string, int>, n: nat)
    ensures var plan := Plan(steps, routable, counts, n);
      && |plan| <= n
      && (|plan| < n ==> forall i :: 0 <= i < |steps| && steps[i].alias in routable ==>
            Get(Load(counts, plan), steps[i].alias) >= steps[i].Cap())
    decreases n
  {
    if n > 0 {
      PickStepNames(steps, counts, routable);
      var st := PickStep(steps, counts, routable);
      if st.Some? {
        var plan := Plan(steps, routable, counts, n);
        assert plan[1..] == Plan(steps, routable, AddOne(counts, st.value.alias), n - 1);
        PlanIsMaximal(steps, routable, AddOne(counts, st.value.alias), n - 1);
      }
    }
  }

  /** No placement goes over the cap of the step that was picked for it. */
  lemma {:induction false} PlanStaysWithinCaps(steps: seq<QueueStep>, routable: set<string>, counts: map<string, int>,
                                               n: nat, k: nat)
    requires k < |Plan(steps, routable, counts, n)|
    ensures var plan := Plan(steps, routable, counts, n);
      exists i :: 0 <= i < |steps| && steps[i].alias == plan[k] && plan[k] in routable
               && Get(Load(counts, plan[..k + 1]), plan[k]) <= steps[i].Cap()
    decreases k
  {
    var plan := Plan(steps, routable, counts, n);
    PickStepNames(steps, counts, routable);
    var st := PickStep(steps, counts, routable).value;
    if k == 0 {
      assert plan[..1] == [st.alias];
      assert Load(counts, [st.alias]) == Load(AddOne(counts, st.alias), []);
    } else {
      PlanStaysWithinCaps(steps, routable, AddOne(counts, st.alias), n - 1, k - 1);
      assert plan[..k + 1][1..] == plan[1..][..k];
    }
  }

  lemma {:induction false} PlanAppend(steps: seq<QueueStep>, routable: set<string>, counts: map<string, int>, n: nat,
                                      done: seq<string>)
    requires |done| <= n
    requires done + Plan(steps, routable, Load(counts, done), n - |done|) == Plan(steps, routable, counts, n)
    ensures var st := PickStep(steps, Load(counts, done), routable);
      if |done| == n || st.None? then done == Plan(steps, routable, counts, n)
      else (done + [st.value.alias]) + Plan(steps, routable, Load(counts, done + [st.value.alias]), n - |done| - 1)
           == Plan(steps, routable, counts, n)
  {
    var st := PickStep(steps, Load(counts, done), routable);
    if |done| < n && st.Some? {
      LoadSnoc(counts, done, st.value.alias);
      var rest := Plan(steps, routable, Load(counts, done + [st.value.alias]), n - |done| - 1);
      assert done + ([st.value.alias] + rest) == (done + [st.value.alias]) + rest;
    }
  }

  lemma {:induction false} LoadSnoc(counts: map<string, int>, models: seq<string>, m: string)
    ensures Load(counts, models + [m]) == AddOne(Load(counts, models), m)
    decreases |models|
  {
    if models == [] {
      assert Load(counts, [m]) == Load(AddOne(counts, m), []);
    } else {
      LoadSnoc(AddOne(counts, models[0]), models[1..], m);
      assert (models + [m])[1..] == models[1..] + [m];
    }
  }

  // ---- the waiting list -------------------------------------------------------------------------

  ghost predicate Sorted(list: seq<Waiter>) {
    forall i, j :: 0 <= i < j < |list| ==> list[i].seqNo <= list[j].seqNo
  }

  /** `b` is `a` with two elements exchanged. */
  ghost predicate Swapped(a: seq<Waiter>, b: seq<Waiter>, i: nat, j: nat) {
    i < |a| && j < |a| && b == a[i := a[j]][j := a[i]]
  }

  lemma SwapPermutes(a: seq<Waiter>, b: seq<Waiter>, i: nat, j: nat)
    requires Swapped(a, b, i, j)
    ensures multiset(b) == multiset(a)
  {
  }

  /** The first `n` are in their final places: sorted, and no larger than anything after them. */
  ghost predicate Settled(list: seq<Waiter>, n: nat) {
    forall a, b :: 0 <= a < b < |list| && a < n ==> list[a].seqNo <= list[b].seqNo
  }

  lemma SwapSettles(a: seq<Waiter>, b: seq<Waiter>, i: nat, j: nat)
    requires i < j && Swapped(a, b, i, j) && Settled(a, i)
    ensures Settled(b, i)
  {
  }

  method Exchange(list: array<Waiter>, i: nat, j: nat)
    requires i < list.Length && j < list.Length
    modifies list
    ensures Swapped(old(list[..]), list[..], i, j)
  {
    list[i], list[j] := list[j], list[i];
  }

  lemma MinimumSettles(list: seq<Waiter>, i: nat)
    requires i < |list| && Settled(list, i)
    requires forall b :: i < b < |list| ==> list[i].seqNo <= list[b].seqNo
    ensures Settled(list, i + 1)
  {
  }

  /** The inner loop: exchanges until place `i` holds the smallest of the rest. */
  method SettleNext(list: array<Waiter>, i: nat)
    requires i < list.Length && Settled(list[..], i)
    modifies list
    ensures Settled(list[..], i + 1)
    ensures multiset(list[..]) == multiset(old(list[..]))
  {
    ghost var start, now := list[..], list[..];
    for j := i + 1 to list.Length
      invariant now == list[..] && Settled(now, i) && multiset(now) == multiset(start)
      invariant forall b :: i < b < j ==> now[i].seqNo <= now[b].seqNo
    {
      if list[j].seqNo < list[i].seqNo {
        Exchange(list, i, j);
        SwapPermutes(now, list[..], i, j);
        SwapSettles(now, list[..], i, j);
        now := list[..];
      }
    }
    MinimumSettles(now, i);
  }

  /** The exchange sort of `waitingLocked`, in place. */
  method ExchangeSort(list: array<Waiter>)
    modifies list
    ensures Sorted(list[..])
    ensures multiset(list[..]) == multiset(old(list[..]))
  {
    for i := 0 to list.Length
      invariant Settled(list[..], i) && multiset(list[..]) == multiset(old(list[..]))
    {
      SettleNext(list, i);
    }
  }

  // ---- dispatch on values -------------------------------------------------------------------------

  /** What a waiter's mutable fields hold. */
  datatype Fields = Fields(status: Status, model: string, error: string, done: bool)

  /** The registered waiters with their fields. */
  type View = map<Waiter, Fields>

  ghost function Waits(v: View, q: QueueId): set<Waiter> {
    set w | w in v && w.queue == q && v[w].status == Waiting
  }

  ghost predicate IsOldest(v: View, q: QueueId, w: Waiter) {
    w in Waits(v, q) && forall u :: u in Waits(v, q) ==> w.seqNo <= u.seqNo
  }

  ghost function Assign(v: View, w: Waiter, m: string): View
    requires w in v
  {
    v[w := v[w].(status := Running, model := m)]
  }

  /** From `v` to `v'` the jobs `started` were committed to `models` one by one, each the oldest at its turn. */
  ghost predicate Started(v: View, v': View, q: QueueId, started: seq<Waiter>, models: seq<string>)
    decreases |started|
  {
    && |started| == |models|
    && if started == [] then v' == v
       else IsOldest(v, q, started[0]) && Started(Assign(v, started[0], models[0]), v', q, started[1..], models[1..])
  }

  lemma {:induction false} StartedMore(v: View, v': View, q: QueueId, started: seq<Waiter>, models: seq<string>,
                                       w: Waiter, m: string)
    requires Started(v, v', q, started, models) && IsOldest(v', q, w)
    ensures Started(v, Assign(v', w, m), q, started + [w], models + [m])
    decreases |started|
  {
    if started == [] {
      assert Started(Assign(v, w, m), Assign(v', w, m), q, [], []);
    } else {
      StartedMore(Assign(v, started[0], models[0]), v', q, started[1..], models[1..], w, m);
      assert (started + [w])[1..] == started[1..] + [w];
      assert (models + [m])[1..] == models[1..] + [m];
    }
  }

  lemma AssignWaits(v: View, q: QueueId, w: Waiter, m: string)
    requires w in Waits(v, q)
    ensures Waits(Assign(v, w, m), q) == Waits(v, q) - {w}
  {
  }

  ghost function Elems(list: seq<Waiter>): set<Waiter> {
    set w | w in list
  }

  lemma ElemsFirst(list: seq<Waiter>)
    requires list != []
    ensures Elems(list) == {list[0]} + Elems(list[1..])
  {
    assert list == [list[0]] + list[1..];
  }

  lemma SortedFirst(list: seq<Waiter>)
    requires list != [] && Sorted(list[1..]) && forall w :: w in Elems(list[1..]) ==> list[0].seqNo <= w.seqNo
    ensures Sorted(list)
  {
    forall i, j | 0 <= i < j < |list|
      ensures list[i].seqNo <= list[j].seqNo
    {
      assert list[j] == list[1..][j - 1] && list[j] in Elems(list[1..]);
      if i > 0 {
        assert list[i] == list[1..][i - 1];
      }
    }
  }

  /** The jobs started are the oldest of the waiting jobs, in order; the others still wait. */
  lemma {:induction false} StartedOldestFirst(v: View, v': View, q: QueueId, started: seq<Waiter>, models: seq<string>)
    requires Started(v, v', q, started, models)
    ensures Sorted(started)
    ensures Elems(started) <= Waits(v, q) && Waits(v', q) == Waits(v, q) - Elems(started)
    ensures forall w, u :: w in Elems(started) && u in Waits(v', q) ==> w.seqNo <= u.seqNo
    ensures |started| + |Waits(v', q)| == |Waits(v, q)|
    decreases |started|
  {
    if started != [] {
      var v1 := Assign(v, started[0], models[0]);
      AssignWaits(v, q, started[0], models[0]);
      StartedOldestFirst(v1, v', q, started[1..], models[1..]);
      ElemsFirst(started);
      SortedFirst(started);
    }
  }

  /** Each started job got its model of the plan, and no other waiter was touched. */
  lemma {:induction false} StartedChangesOnly(v: View, v': View, q: QueueId, started: seq<Waiter>,
                                              models: seq<string>, w: Waiter)
    requires Started(v, v', q, started, models) && w in v
    ensures v'.Keys == v.Keys
    ensures if w in started
            then exists i ::
              0 <= i < |started| && started[i] == w && v'[w] == v[w].(status := Running, model := models[i])
            else v'[w] == v[w]
    decreases |started|
  {
    if started != [] {
      var v1 := Assign(v, started[0], models[0]);
      StartedChangesOnly(v1, v', q, started[1..], models[1..], w);
      StartedOldestFirst(v1, v', q, started[1..], models[1..]);
      AssignWaits(v, q, started[0], models[0]);
      assert w !in started[1..] || w in Elems(started[1..]);
      if w in started[1..] {
        var i :| 0 <= i < |started| - 1 && started[1..][i] == w
          && v'[w] == v1[w].(status := Running, model := models[1..][i]);
        assert started[i + 1] == w;
      } else if w == started[0] {
        assert started[0] == w;
      }
    }
  }

  /** How far a dispatch call has come: the jobs started so far, and a plan whose head they are. */
  ghost predicate Progress(v: View, v': View, counts: map<string, int>, counts': map<string, int>, q: QueueId,
                           steps: seq<QueueStep>, routable: set<string>, started: seq<Waiter>, models: seq<string>) {
    && Started(v, v', q, started, models)
    && OnPlan(steps, routable, counts, counts', |Waits(v, q)|, |Waits(v', q)|, models)
  }

  /** Of a plan for `n` jobs `models` is done, and `left` jobs are left. */
  ghost predicate OnPlan(steps: seq<QueueStep>, routable: set<string>, counts: map<string, int>,
                         counts': map<string, int>, n: nat, left: nat, models: seq<string>) {
    && counts' == Load(counts, models) && |models| + left == n
    && models + Plan(steps, routable, counts', left) == Plan(steps, routable, counts, n)
  }

  lemma PlanGoesOn(steps: seq<QueueStep>, routable: set<string>, counts: map<string, int>, counts': map<string, int>,
                   n: nat, left: nat, models: seq<string>)
    requires OnPlan(steps, routable, counts, counts', n, left, models)
    requires left > 0 && PickStep(steps, counts', routable).Some?
    ensures var m := PickStep(steps, counts', routable).value.alias;
      OnPlan(steps, routable, counts, AddOne(counts', m), n, left - 1, models + [m])
  {
    LoadSnoc(counts, models, PickStep(steps, counts', routable).value.alias);
    PlanAppend(steps, routable, counts, n, models);
  }

  lemma OneFewerWaits(v: View, q: QueueId, w: Waiter, m: string)
    requires w in Waits(v, q)
    ensures |Waits(Assign(v, w, m), q)| == |Waits(v, q)| - 1
  {
    AssignWaits(v, q, w, m);
  }

  lemma ProgressMore(v: View, v': View, counts: map<string, int>, counts': map<string, int>, q: QueueId,
                     steps: seq<QueueStep>, routable: set<string>, started: seq<Waiter>, models: seq<string>, w: Waiter)
    requires Progress(v, v', counts, counts', q, steps, routable, started, models) && IsOldest(v', q, w)
    requires PickStep(steps, counts', routable).Some?
    ensures var m := PickStep(steps, counts', routable).value.alias;
      && Progress(v, Assign(v', w, m), counts, AddOne(counts', m), q, steps, routable, started + [w], models + [m])
      && |Waits(Assign(v', w, m), q)| < |Waits(v', q)|
  {
    var m := PickStep(steps, counts', routable).value.alias;
    OneFewerWaits(v', q, w, m);
    StartedMore(v, v', q, started, models, w, m);
    PlanGoesOn(steps, routable, counts, counts', |Waits(v, q)|, |Waits(v', q)|, models);
  }

  lemma ProgressDone(v: View, v': View, counts: map<string, int>, counts': map<string, int>, q: QueueId,
                     steps: seq<QueueStep>, routable: set<string>, started: seq<Waiter>, models: seq<string>)
    requires Progress(v, v', counts, counts', q, steps, routable, started, models)
    requires Waits(v', q) == {} || PickStep(steps, counts', routable) == None
    ensures models == Plan(steps, routable, counts, |Waits(v, q)|)
  {
    PlanAppend(steps, routable, counts, |Waits(v, q)|, models);
  }

  class Engine {
    var inflight: map<string, int>
    var waiters: map<string, Waiter>

    constructor ()
      ensures inflight == map[] && waiters == map[] && Valid()
    {
      inflight, waiters := map[], map[];
    }

    /** Waiters are filed under their own ids. */
    ghost predicate Valid()
      reads this
    {
      forall k :: k in waiters ==> waiters[k].id == k
    }

    ghost function View(): View
      reads this, waiters.Values
    {
      map w | w in waiters.Values :: Fields(w.status, w.model, w.error, w.done)
    }

    /** The registered, still waiting jobs of one queue. */
    ghost function WaitingSet(q: QueueId): set<Waiter>
      reads this, waiters.Values
    {
      set w | w in waiters.Values && w.queue == q && w.status == Waiting
    }

    lemma ViewWaits(q: QueueId)
      ensures Waits(View(), q) == WaitingSet(q)
    {
    }

    ghost function RunningSet(q: QueueId): set<Waiter>
      reads this, waiters.Values
    {
      set w | w in waiters.Values && w.queue == q && w.status == Running
    }

    /** The scan of the map, in whatever order its keys come. */
    method CollectWaiting(q: QueueId) returns (found: seq<Waiter>)
      requires Valid()
      ensures forall i, j :: 0 <= i < j < |found| ==> found[i] != found[j]
      ensures forall w :: w in found <==> w in WaitingSet(q)
    {
      found := [];
      var keys := waiters.Keys;
      while keys != {}
        invariant keys <= waiters.Keys
        invariant forall w :: w in found ==>
          w.id in waiters && w.id !in keys && waiters[w.id] == w && w in WaitingSet(q)
        invariant forall k :: k in waiters && k !in keys && waiters[k] in WaitingSet(q) ==> waiters[k] in found
        invariant forall i, j :: 0 <= i < j < |found| ==> found[i] != found[j]
        decreases keys
      {
        var k :| k in keys;
        keys := keys - {k};
        if waiters[k].queue == q && waiters[k].status == Waiting {
          found := found + [waiters[k]];
        }
      }
    }

    /** `waitingLocked`: collected, then sorted. */
    method WaitingLocked(q: QueueId) returns (list: seq<Waiter>)
      requires Valid()
      ensures Sorted(list)
      ensures multiset(list) == multiset(WaitingSet(q))
      ensures |list| == |WaitingSet(q)| && forall w :: w in list <==> w in WaitingSet(q)
    {
      var found := CollectWaiting(q);
      DistinctIsSet(found, WaitingSet(q));
      var a := new Waiter[|found|](i requires 0 <= i < |found| => found[i]);
      assert a[..] == found;
      ExchangeSort(a);
      list := a[..];
      assert forall w :: w in list <==> w in multiset(list);
      assert forall w :: w in WaitingSet(q) <==> w in multiset(WaitingSet(q));
      assert |list| == |multiset(list)|;
    }

    /** `counts`: the waiting and running jobs of a queue. */
    method Counts(q: QueueId) returns (waiting: nat, running: nat)
      requires Valid()
      ensures waiting == |WaitingSet(q)| && running == |RunningSet(q)|
    {
      waiting, running := 0, 0;
      var keys := waiters.Keys;
      ghost var w, r: set<Waiter> := {}, {};
      while keys != {}
        invariant keys <= waiters.Keys
        invariant waiting == |w| && running == |r|
        invariant w == set x | x in WaitingSet(q) && x.id !in keys
        invariant r == set x | x in RunningSet(q) && x.id !in keys
        decreases keys
      {
        var k :| k in keys;
        var it := waiters[k];
        keys := keys - {k};
        if it.queue == q {
          if it.status == Waiting {
            waiting, w := waiting + 1, w + {it};
          } else if it.status == Running {
            running, r := running + 1, r + {it};
          }
        }
      }
      assert w == WaitingSet(q) && r == RunningSet(q);
    }

    /** The commit inside the lock. */
    method Commit(wt: Waiter, m: string)
      requires wt in waiters.Values
      modifies this`inflight, wt
      ensures inflight == AddOne(old(inflight), m)
      ensures View() == Assign(old(View()), wt, m)
    {
      inflight := AddOne(inflight, m);
      wt.status := Running;
      wt.model := m;
    }

    /**
     One turn of the dispatch loop: look at the head of the list under the lock, pick a step, take
     the lock again and commit. Alone at the engine neither re-check can fail.
     */
    method Turn(q: QueueId, steps: seq<QueueStep>, routable: set<string>) returns (r: Option<Waiter>)
      requires Valid()
      modifies this`inflight, waiters.Values
      ensures r == None ==>
        && inflight == old(inflight) && View() == old(View())
        && (WaitingSet(q) == {} || PickStep(steps, inflight, routable) == None)
      ensures r.Some? ==>
        var pick := PickStep(steps, old(inflight), routable);
        && pick.Some? && inflight == AddOne(old(inflight), pick.value.alias)
        && IsOldest(old(View()), q, r.value) && View() == Assign(old(View()), r.value, pick.value.alias)
    {
      var wts := WaitingLocked(q);
      if |wts| == 0 {
        return None;
      }
      var wt := wts[0];
      assert wt in WaitingSet(q) && forall u :: u in WaitingSet(q) ==> wt.seqNo <= u.seqNo;
      ViewWaits(q);
      var snap := inflight;
      var pick := PickStep(steps, snap, routable);
      PickStepNames(steps, snap, routable);
      if pick == None {
        return None;
      }
      if wt.status != Waiting || Get(inflight, pick.value.alias) >= pick.value.Cap() {
        assert false;
      }
      Commit(wt, pick.value.alias);
      return Some(wt);
    }

    /**
     `dispatch` with nobody else at the engine. It starts the oldest waiting jobs, in order, on the
     models of the plan, and stops when the list is empty or no routable step has a free slot.
     */
    method Dispatch(q: QueueId, steps: seq<QueueStep>, routable: set<string>) returns (started: seq<Waiter>)
      requires Valid()
      modifies this`inflight, waiters.Values
      ensures var plan := Plan(steps, routable, old(inflight), |old(WaitingSet(q))|);
        Started(old(View()), View(), q, started, plan) && inflight == Load(old(inflight), plan)
      ensures WaitingSet(q) == {} || PickStep(steps, inflight, routable) == None
    {
      started := [];
      ghost var models: seq<string> := [];
      ViewWaits(q);
      while true
        invariant Progress(old(View()), View(), old(inflight), inflight, q, steps, routable, started, models)
        decreases |Waits(View(), q)|
      {
        ghost var before, counts := View(), inflight;
        var r := Turn(q, steps, routable);
        ViewWaits(q);
        if r == None {
          ProgressDone(old(View()), before, old(inflight), counts, q, steps, routable, started, models);
          return;
        }
        ProgressMore(old(View()), before, old(inflight), counts, q, steps, routable, started, models, r.value);
        started, models := started + [r.value], models + [PickStep(steps, counts, routable).value.alias];
      }
    }

    /** The locked part of `finish` and the close; the dispatch that follows is `Dispatch`. */
    method Finish(wt: Waiter)
      requires Valid()
      modifies this, wt`done
      ensures Valid() && wt.done
      ensures waiters == old(waiters) - {wt.id}
      ensures forall m ::
        Get(inflight, m) == old(Get(inflight, m)) -
          (if m == wt.model && m != "" && old(Get(inflight, m)) > 0 then 1 else 0)
    {
      if wt.model != "" && Get(inflight, wt.model) > 0 {
        inflight := inflight[wt.model := Get(inflight, wt.model) - 1];
      }
      waiters := waiters - {wt.id};
      wt.done := true;
    }

    /** `dropWaiter`. */
    method DropWaiter(id: string, reason: string)
      requires Valid()
      modifies this`waiters, waiters.Values
      ensures Valid() && waiters == old(waiters) - {id}
      ensures id in old(waiters) ==>
        var wt := old(waiters)[id]; wt.status == Dropped && wt.error == reason && wt.done && wt.model == old(wt.model)
      ensures forall w :: w in old(waiters.Values) && w.id != id ==>
        w.status == old(w.status) && w.model == old(w.model) && w.done == old(w.done) && w.error == old(w.error)
    {
      if id in waiters {
        var wt := waiters[id];
        waiters := waiters - {id};
        wt.status := Dropped;
        wt.error := reason;
        wt.done := true;
      }
    }
  }

  lemma FrontIsRest(front: seq<Waiter>, last: Waiter, all: set<Waiter>)
    requires last !in front && forall w :: w in front + [last] <==> w in all
    ensures forall w :: w in front <==> w in all - {last}
  {
    forall w
      ensures w in front <==> w in all - {last}
    {
      assert w in front + [last] <==> w in front || w == last;
    }
  }

  /** A sequence without repetitions that lists exactly a set is that set as a multiset. */
  lemma {:induction false} DistinctIsSet(list: seq<Waiter>, all: set<Waiter>)
    requires forall i, j :: 0 <= i < j < |list| ==> list[i] != list[j]
    requires forall w :: w in list <==> w in all
    ensures multiset(list) == multiset(all) && |list| == |all|
  {
    if list == [] {
      assert all == {};
    } else {
      var n := |list| - 1;
      var front, last := list[..n], list[n];
      assert list == front + [last] && last in list;
      FrontIsRest(front, last, all);
      DistinctIsSet(front, all - {last});
      assert all == (all - {last}) + {last};
    }
  }
}
