/** What can still happen: from any reachable state slots can be freed, waiters dropped, and a chosen job started. */
module QueueProgress {
  import opened Wrappers
  import opened QueueModel
  import opened QueueSlots
  import opened QueueFifo
  import opened QueueSteps

  // ---- freeing slots --------------------------------------------------------------------------------

  /** Workers only have moved: waiting jobs, and threads that hold no slot, are as before. */
  ghost predicate Calm(s: State, s': State) {
    && |s'.jobs| == |s.jobs| && |s.threads| <= |s'.threads| && s'.started == s.started
    && (forall j :: 0 <= j < |s.jobs| && s.jobs[j].status == Waiting ==>
          s'.jobs[j] == s.jobs[j] && (j in s'.waiters <==> j in s.waiters))
    && (forall j :: 0 <= j < |s.jobs| && s.jobs[j].status != Waiting ==>
          s'.jobs[j].status != Waiting && s'.jobs[j].queue == s.jobs[j].queue)
    && (forall t :: 0 <= t < |s.threads| && !InSlot(s.threads[t]) ==> s'.threads[t] == s.threads[t])
  }

  lemma CalmJoin(a: State, b: State, c: State)
    requires Calm(a, b) && Calm(b, c)
    ensures Calm(a, c)
  {
  }

  lemma CalmWaiting(s: State, s': State, q: QueueId, x: JobId)
    requires Calm(s, s')
    ensures IsWaiting(s', q, x) <==> IsWaiting(s, q, x)
  {
  }

  lemma WorkerIsCalm(cfg: Config, s: State, t: ThreadId, c: Choice)
    requires Basic(cfg, s) && Enabled(cfg, s, Go(t, c)) && InSlot(s.threads[t])
    ensures Calm(s, Apply(cfg, s, Go(t, c)))
  {
    assert ThreadOk(cfg, s, t, s.threads[t]);
  }

  /** The next step of a worker, or of a dispatcher that has committed. */
  lemma WorkerStep(cfg: Config, s: State, t: ThreadId, m: string)
    requires ValidConfig(cfg) && Inv(cfg, s) && HoldsSlot(s, t, m)
    ensures var a, u := CloserAction(s.threads[t], t, true), NextCloser(s, t);
      && Enabled(cfg, s, a) && Inv(cfg, Apply(cfg, s, a)) && Calm(s, Apply(cfg, s, a))
      && var s' := Apply(cfg, s, a);
      if s.threads[t].Finishing? then Get(s'.inflight, m) == Get(s.inflight, m) - 1
      else && Get(s'.inflight, m) == Get(s.inflight, m) && HoldsSlot(s', u, m)
           && StepsToClose(s'.threads[u]) == StepsToClose(s.threads[t]) - 1
  {
    var pc := s.threads[t];
    var a, j := CloserAction(pc, t, true), pc.job;
    assert ThreadOk(cfg, s, t, pc);
    CloserCanGo(cfg, s, j, t, true);
    WorkerIsCalm(cfg, s, t, a.choice);
    InflightStep(cfg, s, t, a.choice, m);
    StepKeepsInv(cfg, s, a);
    if !pc.Finishing? {
      SlotPassesOn(cfg, s, t, m);
    }
  }

  lemma SlotPassesOn(cfg: Config, s: State, t: ThreadId, m: string)
    requires Basic(cfg, s) && HoldsSlot(s, t, m) && !s.threads[t].Finishing?
    requires Enabled(cfg, s, CloserAction(s.threads[t], t, true))
    ensures var s', u := Apply(cfg, s, CloserAction(s.threads[t], t, true)), NextCloser(s, t);
      HoldsSlot(s', u, m) && StepsToClose(s'.threads[u]) == StepsToClose(s.threads[t]) - 1
  {
    assert ThreadOk(cfg, s, t, s.threads[t]);
  }

  lemma {:induction false} FreeOne(cfg: Config, s: State, t: ThreadId, m: string) returns (more: seq<Action>, s': State)
    requires ValidConfig(cfg) && Inv(cfg, s) && HoldsSlot(s, t, m)
    ensures Leads(cfg, s, more, s') && Inv(cfg, s') && Calm(s, s')
    ensures Get(s'.inflight, m) == Get(s.inflight, m) - 1
    decreases StepsToClose(s.threads[t])
  {
    var a := CloserAction(s.threads[t], t, true);
    WorkerStep(cfg, s, t, m);
    LeadsOne(cfg, s, a);
    more, s' := [a], Apply(cfg, s, a);
    if !s.threads[t].Finishing? {
      var mid := s';
      var rest;
      rest, s' := FreeOne(cfg, mid, NextCloser(s, t), m);
      CalmJoin(s, mid, s');
      LeadsJoin(cfg, s, [a], mid, rest, s');
      more := [a] + rest;
    }
  }

  /** The workers on a model can always run until there is a free slot. */
  lemma {:induction false} FreeEnough(cfg: Config, s: State, m: string, cap: int) returns (more: seq<Action>, s': State)
    requires ValidConfig(cfg) && Inv(cfg, s) && cap > 0
    ensures Leads(cfg, s, more, s') && Inv(cfg, s') && Calm(s, s') && Get(s'.inflight, m) < cap
    decreases Get(s.inflight, m)
  {
    more, s' := [], s;
    if Get(s.inflight, m) >= cap {
      assert Get(s.inflight, m) == |Holders(s, m)|;
      var t: ThreadId :| t in Holders(s, m);
      var mid, rest;
      more, mid := FreeOne(cfg, s, t, m);
      rest, s' := FreeEnough(cfg, mid, m, cap);
      CalmJoin(s, mid, s');
      LeadsJoin(cfg, s, more, mid, rest, s');
      more := more + rest;
    } else {
      LeadsNowhere(cfg, s);
    }
  }

  // ---- dropping waiters -------------------------------------------------------------------------------

  /** Droppers only have taken waiters of `q` off the list, and not `b`. */
  ghost predicate Thinned(s: State, s': State, b: JobId) {
    && s'.jobs == s.jobs && s'.inflight == s.inflight && s'.started == s.started
    && s.threads <= s'.threads && s'.waiters <= s.waiters && (b in s.waiters ==> b in s'.waiters)
  }

  ghost function Others(s: State, q: QueueId, b: JobId): set<JobId> {
    set x | x in s.waiters && IsWaiting(s, q, x) && x != b
  }

  lemma DropOne(cfg: Config, s: State, q: QueueId, b: JobId, w: JobId) returns (more: seq<Action>, s': State)
    requires ValidConfig(cfg) && Inv(cfg, s) && w in Others(s, q, b)
    ensures Leads(cfg, s, more, s') && Inv(cfg, s') && Thinned(s, s', b) && Others(s', q, b) == Others(s, q, b) - {w}
  {
    var t := |s.threads|;
    var mid := Apply(cfg, s, StartDrop(w));
    StepKeepsInv(cfg, s, StartDrop(w));
    LeadsOne(cfg, s, StartDrop(w));
    UnlistStep(cfg, mid, t, w);
    StepKeepsInv(cfg, mid, Go(t, Plain));
    LeadsOn(cfg, s, [StartDrop(w)], mid, Go(t, Plain));
    more, s' := [StartDrop(w)] + [Go(t, Plain)], Apply(cfg, mid, Go(t, Plain));
  }

  /** All waiting jobs of a queue but one can be dropped. */
  lemma {:induction false} DropOthers(cfg: Config, s: State, q: QueueId, b: JobId)
    returns (more: seq<Action>, s': State)
    requires ValidConfig(cfg) && Inv(cfg, s)
    ensures Leads(cfg, s, more, s') && Inv(cfg, s') && Thinned(s, s', b)
    ensures forall x: JobId :: IsWaiting(s', q, x) ==> x == b
    decreases |Others(s, q, b)|
  {
    more, s' := [], s;
    LeadsNowhere(cfg, s);
    if Others(s, q, b) != {} {
      var w: JobId :| w in Others(s, q, b);
      var mid, rest;
      more, mid := DropOne(cfg, s, q, b, w);
      rest, s' := DropOthers(cfg, mid, q, b);
      LeadsJoin(cfg, s, more, mid, rest, s');
      more := more + rest;
    } else {
      assert forall x: JobId :: IsWaiting(s, q, x) && x != b ==> x in Others(s, q, b);
    }
  }

  // ---- starting a chosen job --------------------------------------------------------------------------

  /** No job but that of thread `t` that waits to be registered has been touched. */
  ghost predicate Spares(s: State, s': State, t: ThreadId) {
    && |s'.jobs| == |s.jobs| && |s.threads| <= |s'.threads|
    && forall u :: 0 <= u < |s.threads| && u != t && s.threads[u].Inserted? && s.threads[u].job < |s.jobs| ==>
         s'.threads[u] == s.threads[u] && s'.jobs[s.threads[u].job] == s.jobs[s.threads[u].job]
  }

  lemma SparesJoin(a: State, b: State, c: State, t: ThreadId)
    requires Spares(a, b, t) && Spares(b, c, t)
    ensures Spares(a, c, t)
  {
  }

  lemma CalmSpares(cfg: Config, s: State, s': State, t: ThreadId)
    requires Basic(cfg, s) && Calm(s, s')
    ensures Spares(s, s', t)
  {
    assert forall u :: 0 <= u < |s.threads| ==> ThreadOk(cfg, s, u, s.threads[u]);
  }

  /** A job is registered, and its handler reaches the loop. */
  lemma JoinQueue(cfg: Config, s: State, t: ThreadId, j: JobId, q: QueueId) returns (more: seq<Action>, s': State)
    requires ValidConfig(cfg) && Inv(cfg, s) && t < |s.threads| && s.threads[t] == Inserted(j) && j < |s.jobs|
    requires s.jobs[j].queue == q && q in cfg
    ensures Leads(cfg, s, more, s') && Inv(cfg, s') && Spares(s, s', t) && IsWaiting(s', q, j)
    ensures t < |s'.threads| && s'.threads[t] == Head(q, ToSelect(j)) && s'.started == s.started
  {
    assert ThreadOk(cfg, s, t, s.threads[t]);
    assert forall u :: 0 <= u < |s.threads| ==> ThreadOk(cfg, s, u, s.threads[u]);
    var a := Go(t, Plain);
    RegisterStep(cfg, s, t, j);
    var mid := Apply(cfg, s, a);
    LeadsOne(cfg, s, a);
    StepKeepsInv(cfg, s, a);
    LoopStep(cfg, mid, t, q, ToSelect(j));
    StepKeepsInv(cfg, mid, a);
    LeadsOn(cfg, s, [a], mid, a);
    more, s' := [a] + [a], Apply(cfg, mid, a);
  }

  /** The only waiting job of a queue, with a free slot on the first step, is picked. */
  lemma PickOnly(cfg: Config, s: State, t: ThreadId, q: QueueId, j: JobId) returns (more: seq<Action>, s': State)
    requires ValidConfig(cfg) && Inv(cfg, s) && t < |s.threads| && s.threads[t] == Head(q, ToSelect(j))
    requires q in cfg && cfg[q] != [] && Get(s.inflight, cfg[q][0].alias) < cfg[q][0].Cap()
    requires IsWaiting(s, q, j) && forall x: JobId :: IsWaiting(s, q, x) ==> x == j
    ensures Leads(cfg, s, more, s') && Inv(cfg, s')
    ensures s' == s.(threads := s.threads[t := Picked(q, j, cfg[q][0].alias, cfg[q][0].Cap(), ToSelect(j))])
  {
    var st, after := cfg[q][0], ToSelect(j);
    var a1, a2 := Go(t, First(j)), Go(t, Routes({st.alias}));
    SnapshotStep(cfg, s, t, q, after, j);
    var s1 := Apply(cfg, s, a1);
    StepKeepsInv(cfg, s, a1);
    LeadsOne(cfg, s, a1);
    assert PickStep(cfg[q], s.inflight, {st.alias}) == Some(st);
    PickSlotStep(cfg, s1, t, q, j, s.inflight, after, {st.alias});
    StepKeepsInv(cfg, s1, a2);
    LeadsOn(cfg, s, [a1], s1, a2);
    more, s' := [a1] + [a2], Apply(cfg, s1, a2);
  }

  /** And committed. */
  lemma CommitOnly(cfg: Config, s: State, t: ThreadId, q: QueueId, j: JobId) returns (more: seq<Action>, s': State)
    requires ValidConfig(cfg) && Inv(cfg, s) && t < |s.threads| && s.threads[t] == Head(q, ToSelect(j))
    requires q in cfg && cfg[q] != [] && Get(s.inflight, cfg[q][0].alias) < cfg[q][0].Cap()
    requires IsWaiting(s, q, j) && forall x: JobId :: IsWaiting(s, q, x) ==> x == j
    ensures Leads(cfg, s, more, s') && Inv(cfg, s') && Spares(s, s', t) && s'.started == s.started + [j]
  {
    assert forall u :: 0 <= u < |s.threads| ==> ThreadOk(cfg, s, u, s.threads[u]);
    var a := Go(t, Plain);
    var m1, s1 := PickOnly(cfg, s, t, q, j);
    CommitStep(cfg, s1, t, q, j, cfg[q][0].alias, cfg[q][0].Cap(), ToSelect(j));
    StepKeepsInv(cfg, s1, a);
    LeadsOn(cfg, s, m1, s1, a);
    more, s' := m1 + [a], Apply(cfg, s1, a);
  }

  /** A job whose handler is about to register it can always be started next, whatever else is going on. */
  lemma StartNext(cfg: Config, s: State, t: ThreadId, j: JobId, q: QueueId) returns (more: seq<Action>, s': State)
    requires ValidConfig(cfg) && Inv(cfg, s) && t < |s.threads| && s.threads[t] == Inserted(j) && j < |s.jobs|
    requires s.jobs[j].queue == q && q in cfg && cfg[q] != []
    ensures Leads(cfg, s, more, s') && Inv(cfg, s') && Spares(s, s', t) && s'.started == s.started + [j]
  {
    var m1, s1 := JoinQueue(cfg, s, t, j, q);
    var m2, s2 := DropOthers(cfg, s1, q, j);
    assert IsWaiting(s2, q, j) && s2.threads[t] == s1.threads[t];
    assert Spares(s1, s2, t);
    var m3, s3 := FreeEnough(cfg, s2, cfg[q][0].alias, cfg[q][0].Cap());
    CalmSpares(cfg, s2, s3, t);
    forall x: JobId
      ensures IsWaiting(s3, q, x) <==> x == j
    {
      CalmWaiting(s2, s3, q, x);
    }
    var m4;
    m4, s' := CommitOnly(cfg, s3, t, q, j);
    SparesJoin(s, s1, s2, t);
    SparesJoin(s, s2, s3, t);
    SparesJoin(s, s3, s', t);
    LeadsJoin(cfg, s, m1, s1, m2, s2);
    LeadsJoin(cfg, s, m1 + m2, s2, m3, s3);
    LeadsJoin(cfg, s, m1 + m2 + m3, s3, m4, s');
    more := m1 + m2 + m3 + m4;
  }
}
