/** When a later arrival can start before an earlier one: exactly while the earlier one waits to be registered. */
module QueueOvertaking {
  import opened Wrappers
  import opened QueueModel
  import opened QueueSlots
  import opened QueueFifo
  import opened QueueSteps
  import opened QueueProgress

  /** Job `b` was started before a job of its queue that had arrived earlier. */
  ghost predicate Overtakes(s: State, b: JobId) {
    exists i, k :: 0 <= i < k < |s.started| && s.started[i] == b && s.started[k] < b < |s.jobs|
                   && s.jobs[s.started[k]].queue == s.jobs[b].queue
  }

  /** The job has arrived and its handler has not registered it yet. */
  predicate Unregistered(s: State, a: JobId) {
    a < |s.jobs| && s.jobs[a].regMark == None && s.jobs[a].status == Waiting
  }

  // ---- unregistered jobs have a handler ---------------------------------------------------------------

  ghost predicate HandlersWait(s: State) {
    forall a: JobId :: Unregistered(s, a) ==>
      s.jobs[a].handler < |s.threads| && s.threads[s.jobs[a].handler] == Inserted(a)
  }

  lemma StepKeepsHandlers(cfg: Config, s: State, a: Action)
    requires Basic(cfg, s) && Enabled(cfg, s, a) && HandlersWait(s)
    ensures HandlersWait(Apply(cfg, s, a))
  {
    var s' := Apply(cfg, s, a);
    StepEvolves(cfg, s, a);
    forall j: JobId | Unregistered(s', j)
      ensures s'.jobs[j].handler < |s'.threads| && s'.threads[s'.jobs[j].handler] == Inserted(j)
    {
      if j < |s.jobs| {
        assert JobEvolves(s.jobs[j], s'.jobs[j]);
        assert Unregistered(s, j);
      }
    }
  }

  lemma {:induction false} HandlersAlwaysWait(cfg: Config, run: seq<Action>, s: State)
    requires ValidConfig(cfg) && Reaches(cfg, run, s)
    ensures HandlersWait(s)
    decreases |run|
  {
    if run != [] {
      var before := run[..|run| - 1];
      var mid := Exec(cfg, Init(), before).value;
      HandlersAlwaysWait(cfg, before, mid);
      Always(cfg, before, mid);
      StepKeepsHandlers(cfg, mid, run[|run| - 1]);
    }
  }

  // ---- who overtakes was there first -------------------------------------------------------------------

  /** What is never taken back, over a whole run: a registration, and that a job is past registering. */
  ghost predicate MarksStay(s: State, s': State) {
    && |s.jobs| <= |s'.jobs|
    && forall j :: 0 <= j < |s.jobs| ==>
         && s'.jobs[j].queue == s.jobs[j].queue
         && (s.jobs[j].regMark.Some? ==> s'.jobs[j].regMark == s.jobs[j].regMark)
         && (s.jobs[j].regMark == None && s.jobs[j].status != Waiting ==>
               s'.jobs[j].regMark == None && s'.jobs[j].status != Waiting)
  }

  lemma StepKeepsMarks(cfg: Config, s: State, a: Action)
    requires Basic(cfg, s) && Enabled(cfg, s, a)
    ensures MarksStay(s, Apply(cfg, s, a))
  {
    var s' := Apply(cfg, s, a);
    StepEvolves(cfg, s, a);
    forall j | 0 <= j < |s.jobs|
      ensures && s'.jobs[j].queue == s.jobs[j].queue
              && (s.jobs[j].regMark.Some? ==> s'.jobs[j].regMark == s.jobs[j].regMark)
              && (s.jobs[j].regMark == None && s.jobs[j].status != Waiting ==>
                    s'.jobs[j].regMark == None && s'.jobs[j].status != Waiting)
    {
      assert JobEvolves(s.jobs[j], s'.jobs[j]);
      if a.Go? {
        assert ThreadOk(cfg, s, a.thread, s.threads[a.thread]);
      }
    }
  }

  lemma MarksJoin(a: State, b: State, c: State)
    requires MarksStay(a, b) && MarksStay(b, c)
    ensures MarksStay(a, c)
  {
  }

  lemma {:induction false} RunKeepsMarks(cfg: Config, s: State, more: seq<Action>, s': State)
    requires ValidConfig(cfg) && Inv(cfg, s) && Exec(cfg, s, more) == Some(s')
    ensures Inv(cfg, s') && MarksStay(s, s')
    decreases |more|
  {
    if more != [] {
      var before, a := more[..|more| - 1], more[|more| - 1];
      var mid := Exec(cfg, s, before).value;
      RunKeepsMarks(cfg, s, before, mid);
      StepKeepsInv(cfg, mid, a);
      StepKeepsMarks(cfg, mid, a);
      MarksJoin(s, mid, s');
    }
  }

  /** A new arrival only ever overtakes jobs that were unregistered when it arrived. */
  lemma OvertakenWasUnregistered(cfg: Config, run: seq<Action>, s: State, q: QueueId, n: nat, more: seq<Action>,
                                 s': State)
    requires ValidConfig(cfg) && Reaches(cfg, run, s) && IsNextSeq(s.rows, q, n)
    requires Exec(cfg, Apply(cfg, s, Insert(q, n)), more) == Some(s') && Overtakes(s', |s.jobs|)
    ensures exists a: JobId :: Unregistered(s, a) && s.jobs[a].queue == q
  {
    var b, ins := |s.jobs|, Insert(q, n);
    var s1 := Apply(cfg, s, ins);
    Always(cfg, run, s);
    StepKeepsInv(cfg, s, ins);
    StepKeepsMarks(cfg, s, ins);
    RunKeepsMarks(cfg, s1, more, s');
    ExecLast(cfg, Init(), run, ins);
    ExecJoin(cfg, Init(), run + [ins], s1, more);
    var i, k :| 0 <= i < k < |s'.started| && s'.started[i] == b && s'.started[k] < b < |s'.jobs|
      && s'.jobs[s'.started[k]].queue == s'.jobs[b].queue;
    StartsInArrivalOrder(cfg, run + [ins] + more, s', i, k);
    var a := s'.started[k];
    assert JobOk(s, a);
    assert s'.jobs[a].regMark.Some? && b < s'.jobs[a].regMark.value;
    assert s1.jobs[a] == s.jobs[a] && s1.jobs[b].queue == q;
    assert Unregistered(s, a);
  }

  // ---- an unregistered job can be overtaken -------------------------------------------------------------

  /** From the arrival of `b` on, `b` and then `a` are registered and started, in that order. */
  lemma UnregisteredIsOvertaken(cfg: Config, run: seq<Action>, s: State, q: QueueId, n: nat, a: JobId)
    returns (more: seq<Action>, s': State)
    requires ValidConfig(cfg) && Reaches(cfg, run, s) && IsNextSeq(s.rows, q, n)
    requires q in cfg && cfg[q] != [] && Unregistered(s, a) && s.jobs[a].queue == q
    ensures Leads(cfg, Apply(cfg, s, Insert(q, n)), more, s') && Overtakes(s', |s.jobs|)
  {
    var b, ins := |s.jobs|, Insert(q, n);
    var s1 := Apply(cfg, s, ins);
    Always(cfg, run, s);
    HandlersAlwaysWait(cfg, run, s);
    StepKeepsInv(cfg, s, ins);
    var ta, tb := s.jobs[a].handler, |s.threads|;
    assert s1.threads[ta] == Inserted(a) && s1.threads[tb] == Inserted(b) && s1.jobs[b].queue == q;
    var m1, s2 := StartNext(cfg, s1, tb, b, q);
    assert s2.threads[ta] == Inserted(a) && s2.jobs[a] == s1.jobs[a];
    var m2;
    m2, s' := StartNext(cfg, s2, ta, a, q);
    LeadsJoin(cfg, s1, m1, s2, m2, s');
    more := m1 + m2;
    RunKeepsMarks(cfg, s1, more, s');
    StartedBoth(s1, s', b, a);
  }

  lemma StartedBoth(s: State, s': State, b: JobId, a: JobId)
    requires s'.started == s.started + [b] + [a] && MarksStay(s, s')
    requires a < b < |s.jobs| && s.jobs[a].queue == s.jobs[b].queue
    ensures Overtakes(s', b)
  {
    var i := |s.started|;
    assert s'.started[i] == b && s'.started[i + 1] == a;
    assert s'.jobs[s'.started[i + 1]].queue == s'.jobs[b].queue;
  }

  /** The new job `b` can start before an earlier one; with `quiet`, without any further arrival. */
  ghost predicate CanOvertake(cfg: Config, s: State, b: JobId, quiet: bool) {
    exists more, s' :: Exec(cfg, s, more) == Some(s') && (quiet ==> NoArrival(more)) && Overtakes(s', b)
  }

  /**
   The exact condition for overtaking: a job that arrives now can start before an earlier one of its queue,
   with or without further arrivals, if and only if some earlier one has not been registered yet.
   */
  lemma CanOvertakeIff(cfg: Config, run: seq<Action>, s: State, q: QueueId, n: nat, quiet: bool)
    requires ValidConfig(cfg) && Reaches(cfg, run, s) && IsNextSeq(s.rows, q, n) && q in cfg && cfg[q] != []
    ensures CanOvertake(cfg, Apply(cfg, s, Insert(q, n)), |s.jobs|, quiet)
       <==> exists a: JobId :: Unregistered(s, a) && s.jobs[a].queue == q
  {
    var s1, b := Apply(cfg, s, Insert(q, n)), |s.jobs|;
    if CanOvertake(cfg, s1, b, quiet) {
      var more, s' :| Exec(cfg, s1, more) == Some(s') && (quiet ==> NoArrival(more)) && Overtakes(s', b);
      OvertakenWasUnregistered(cfg, run, s, q, n, more, s');
    }
    if a: JobId :| Unregistered(s, a) && s.jobs[a].queue == q {
      var more, s' := UnregisteredIsOvertaken(cfg, run, s, q, n, a);
    }
  }
}
