/**
 The request queue as a step system. Every section the engine runs under its mutex is one
 atomic step, and so is every unlocked statement that touches shared job data: the row
 insert, each row update, the unlocked status writes, and the close of the `done` channel.
 Threads are handlers, dispatchers, workers and droppers; any number of each may be alive.

 A job is named by its arrival number, its index in `jobs`.
 */
module QueueModel {
  import opened Wrappers

  type QueueId = int
  type JobId = nat
  type ThreadId = nat

  datatype QueueStep = QueueStep(alias: string, maxConcurrent: int) {
    /** A step without a positive limit runs one job at a time. */
    function Cap(): int {
      if maxConcurrent <= 0 then 1 else maxConcurrent
    }
  }

  type Config = map<QueueId, seq<QueueStep>>

  /** The store never keeps a step without a model alias. */
  ghost predicate ValidConfig(cfg: Config) {
    forall q, i :: q in cfg && 0 <= i < |cfg[q]| ==> cfg[q][i].alias != ""
  }

  ghost predicate Names(cfg: Config, q: QueueId, model: string) {
    q in cfg && exists i :: 0 <= i < |cfg[q]| && cfg[q][i].alias == model
  }

  datatype Status = Waiting | Running | Done | Failed | Dropped | Overflow

  /** A job and its waiter. The last three fields are history: nothing reads them back. */
  datatype Job = Job(
    queue: QueueId,
    seqNo: nat,
    status: Status,
    model: string,
    done: bool,               // the `done` channel is closed (`once` has fired)
    handler: ThreadId,
    regMark: Option<nat>,     // how many jobs had arrived when the waiter was registered
    commits: nat,             // how often a dispatcher committed the job
    closes: nat               // how often `close(done)` was called
  )

  datatype Row = Row(queue: QueueId, seqNo: nat, status: Status)

  /** What a `dispatch` call returns to: the select of its handler, or the end of its goroutine. */
  datatype After = ToSelect(job: JobId) | Return

  datatype Thread =
    | Inserted(job: JobId)
    | Dispatch(queue: QueueId, after: After)
    | Head(queue: QueueId, after: After)
    | Snapped(queue: QueueId, job: JobId, snap: map<string, int>, after: After)
    | Picked(queue: QueueId, job: JobId, model: string, cap: int, after: After)
    | Committed(queue: QueueId, job: JobId, after: After)
    | Spawning(queue: QueueId, job: JobId, after: After)
    | Forwarding(job: JobId)
    | Finishing(job: JobId)
    | FinishRow(job: JobId)
    | FinishClose(job: JobId)
    | Select(job: JobId)
    | TimedOut(job: JobId)
    | AwaitDone(job: JobId)
    | DropLock(job: JobId)
    | DropMark(job: JobId)
    | DropRow(job: JobId)
    | DropClose(job: JobId)
    | Exited

  datatype State = State(
    jobs: seq<Job>,
    rows: map<JobId, Row>,
    waiters: set<JobId>,
    inflight: map<string, int>,
    threads: seq<Thread>,
    started: seq<JobId>       // history: jobs committed while still registered, in order
  )

  function Init(): State {
    State([], map[], {}, map[], [], [])
  }

  /** What a step leaves to chance. */
  datatype Choice =
    | Plain
    | First(job: JobId)             // the smallest waiting job, as sorted
    | Routes(routable: set<string>) // the models with a healthy backend at this moment
    | Outcome(ok: bool)             // how a forward ends
    | Woken
    | Expired

  datatype Action =
    | Insert(queue: QueueId, seqNo: nat)
    | InsertOverflow(queue: QueueId, seqNo: nat)
    | TickDispatch(queue: QueueId)
    | StartDrop(job: JobId)
    | PurgeRows(gone: set<JobId>)
    | Go(thread: ThreadId, choice: Choice)

  /** A Go map read: zero for a missing key. */
  function Get(m: map<string, int>, k: string): int {
    if k in m then m[k] else 0
  }

  /** The step has a free slot in the snapshot, and its model a route. */
  predicate IsFree(st: QueueStep, snap: map<string, int>, routable: set<string>) {
    Get(snap, st.alias) < st.Cap() && st.alias in routable
  }

  /** `pickStep`: the first step whose model has a free slot in the snapshot and a route. */
  function PickStep(steps: seq<QueueStep>, snap: map<string, int>, routable: set<string>): Option<QueueStep> {
    if steps == [] then None
    else if IsFree(steps[0], snap, routable) then Some(steps[0])
    else PickStep(steps[1..], snap, routable)
  }

  /** The jobs `waitingLocked` lists: registered, of this queue, and still waiting. */
  ghost predicate IsWaiting(s: State, q: QueueId, j: JobId) {
    j in s.waiters && j < |s.jobs| && s.jobs[j].queue == q && s.jobs[j].status == Waiting
  }

  /** `COALESCE(MAX(seq),0)+1` over the rows of one queue. */
  ghost predicate IsNextSeq(rows: map<JobId, Row>, q: QueueId, n: nat) {
    && n >= 1
    && (forall r :: r in rows && rows[r].queue == q ==> rows[r].seqNo < n)
    && (n == 1 || exists r :: r in rows && rows[r].queue == q && rows[r].seqNo == n - 1)
  }

  function Resume(after: After): Thread {
    match after
    case ToSelect(j) => Select(j)
    case Return => Exited
  }

  /** The job a thread has in hand. */
  function Own(pc: Thread): Option<JobId> {
    match pc
    case Dispatch(_, _) => None
    case Head(_, _) => None
    case DropLock(_) => None
    case Exited => None
    case _ => Some(pc.job)
  }

  /** When a thread at `pc` can take its next step. */
  ghost predicate CanGo(cfg: Config, s: State, pc: Thread, c: Choice) {
    && (Own(pc).Some? ==> Own(pc).value < |s.jobs|)
    && match pc
       case Head(q, _) =>
         && q in cfg
         && (|| (c.Plain? && forall x: JobId :: !IsWaiting(s, q, x))
             || (c.First? && IsWaiting(s, q, c.job)
                 && forall x: JobId :: IsWaiting(s, q, x) ==> s.jobs[c.job].seqNo <= s.jobs[x].seqNo))
       case Snapped(q, _, _, _) => c.Routes? && q in cfg
       case Forwarding(_) => c.Outcome?
       case Select(j) => (c.Woken? && s.jobs[j].done) || c.Expired?
       case AwaitDone(j) => c.Woken? && s.jobs[j].done
       case Exited => false
       case _ => c.Plain?
  }

  ghost predicate Enabled(cfg: Config, s: State, a: Action) {
    match a
    case Insert(q, n) => IsNextSeq(s.rows, q, n)
    case InsertOverflow(q, n) => IsNextSeq(s.rows, q, n)
    case TickDispatch(_) => true
    case StartDrop(_) => true
    case PurgeRows(gone) =>
      forall r :: r in gone && r in s.rows ==> s.rows[r].status != Waiting && s.rows[r].status != Running
    case Go(t, c) => t < |s.threads| && CanGo(cfg, s, s.threads[t], c)
  }

  /**
   What one step of a thread does: where the thread goes, the new value of its own job, whether
   that job is in `waiters` afterwards, the status its row gets, the counters, a worker it spawns,
   and whether the job counts as started. Everything else stays as it is.
   */
  datatype Effect = Effect(
    next: Thread,
    inflight: map<string, int>,
    job: Option<Job> := None,
    listed: Option<bool> := None,
    row: Option<Status> := None,
    spawned: seq<Thread> := [],
    starts: bool := false
  )

  /** `waiter.complete`: the channel is closed the first time only. */
  function Complete(job: Job): Job {
    if job.done then job else job.(done := true, closes := job.closes + 1)
  }

  ghost function Step(cfg: Config, s: State, pc: Thread, c: Choice): Effect
    requires CanGo(cfg, s, pc, c)
  {
    var fl := s.inflight;
    match pc
    // handle, from its insert to the dispatch call
    case Inserted(j) =>
      Effect(Dispatch(s.jobs[j].queue, ToSelect(j)), fl,
             job := Some(s.jobs[j].(regMark := Some(|s.jobs|))), listed := Some(true))
    // dispatch
    case Dispatch(q, after) => Effect(if q in cfg then Head(q, after) else Resume(after), fl)
    case Head(q, after) => Effect(if c.First? then Snapped(q, c.job, fl, after) else Resume(after), fl)
    case Snapped(q, j, snap, after) =>
      Effect(match PickStep(cfg[q], snap, c.routable)
             case None => Resume(after)
             case Some(st) => Picked(q, j, st.alias, st.Cap(), after), fl)
    case Picked(q, j, model, cap, after) =>
      var job := s.jobs[j];
      if job.status != Waiting || Get(fl, model) >= cap then Effect(Head(q, after), fl)
      else
        Effect(Committed(q, j, after), fl[model := Get(fl, model) + 1],
               job := Some(job.(status := Running, model := model, commits := job.commits + 1)),
               starts := j in s.waiters)
    case Committed(q, j, after) => Effect(Spawning(q, j, after), fl, row := Some(Running))
    case Spawning(q, j, after) => Effect(Head(q, after), fl, spawned := [Forwarding(j)])
    // run and finish
    case Forwarding(j) =>
      Effect(Finishing(j), fl, job := Some(s.jobs[j].(status := if c.ok then Done else Failed)))
    case Finishing(j) =>
      var model := s.jobs[j].model;
      Effect(FinishRow(j),
             if model != "" && Get(fl, model) > 0 then fl[model := Get(fl, model) - 1] else fl,
             listed := Some(false))
    case FinishRow(j) => Effect(FinishClose(j), fl, row := Some(s.jobs[j].status))
    case FinishClose(j) => Effect(Dispatch(s.jobs[j].queue, Return), fl, job := Some(Complete(s.jobs[j])))
    // handle, waiting for its answer
    case Select(j) => Effect(if c.Woken? then Exited else TimedOut(j), fl)
    case TimedOut(j) => Effect(if s.jobs[j].status == Waiting then DropLock(j) else AwaitDone(j), fl)
    case AwaitDone(_) => Effect(Exited, fl)
    // dropWaiter
    case DropLock(j) =>
      if j in s.waiters then Effect(DropMark(j), fl, listed := Some(false)) else Effect(Exited, fl)
    case DropMark(j) => Effect(DropRow(j), fl, job := Some(s.jobs[j].(status := Dropped)))
    case DropRow(j) => Effect(DropClose(j), fl, row := Some(s.jobs[j].status))
    case DropClose(j) => Effect(Exited, fl, job := Some(Complete(s.jobs[j])))
  }

  function NewJob(s: State, q: QueueId, n: nat, status: Status): Job {
    Job(q, n, status, "", false, |s.threads|, None, 0, 0)
  }

  function UpdateJob(jobs: seq<Job>, pc: Thread, job: Option<Job>): seq<Job> {
    if Own(pc).Some? && Own(pc).value < |jobs| && job.Some? then jobs[Own(pc).value := job.value] else jobs
  }

  function UpdateWaiters(waiters: set<JobId>, pc: Thread, listed: Option<bool>): set<JobId> {
    if pc == Exited || pc.Dispatch? || pc.Head? || listed == None then waiters
    else if listed == Some(true) then waiters + {pc.job}
    else waiters - {pc.job}
  }

  /** `UpdateQueueJob` changes an existing row only. */
  function UpdateRow(rows: map<JobId, Row>, pc: Thread, status: Option<Status>): map<JobId, Row> {
    if Own(pc).Some? && status.Some? && Own(pc).value in rows
    then rows[Own(pc).value := rows[Own(pc).value].(status := status.value)]
    else rows
  }

  /** The state after a step. */
  ghost function Apply(cfg: Config, s: State, a: Action): State
    requires Enabled(cfg, s, a)
  {
    match a
    case Insert(q, n) =>
      s.(jobs := s.jobs + [NewJob(s, q, n, Waiting)],
         rows := s.rows[|s.jobs| := Row(q, n, Waiting)],
         threads := s.threads + [Inserted(|s.jobs|)])
    case InsertOverflow(q, n) =>
      s.(jobs := s.jobs + [NewJob(s, q, n, Overflow)],
         rows := s.rows[|s.jobs| := Row(q, n, Overflow)])
    case TickDispatch(q) => s.(threads := s.threads + [Dispatch(q, Return)])
    case StartDrop(j) => s.(threads := s.threads + [DropLock(j)])
    case PurgeRows(gone) => s.(rows := s.rows - gone)
    case Go(t, c) =>
      var pc := s.threads[t];
      var e := Step(cfg, s, pc, c);
      State(UpdateJob(s.jobs, pc, e.job),
            UpdateRow(s.rows, pc, e.row),
            UpdateWaiters(s.waiters, pc, e.listed),
            e.inflight,
            s.threads[t := e.next] + e.spawned,
            if e.starts then s.started + [pc.job] else s.started)
  }

  /** Runs a list of steps from `s`; None when some step was not enabled. */
  ghost function Exec(cfg: Config, s: State, run: seq<Action>): Option<State>
    decreases |run|
  {
    if run == [] then Some(s)
    else
      match Exec(cfg, s, run[..|run| - 1])
      case None => None
      case Some(mid) =>
        var a := run[|run| - 1];
        if Enabled(cfg, mid, a) then Some(Apply(cfg, mid, a)) else None
  }

  /** `s` is a state the engine can be in after the steps `run` from an empty start. */
  ghost predicate Reaches(cfg: Config, run: seq<Action>, s: State) {
    Exec(cfg, Init(), run) == Some(s)
  }

  // ---- how a step may change a job ------------------------------------------------------------

  ghost predicate JobEvolves(a: Job, b: Job) {
    && a.queue == b.queue && a.seqNo == b.seqNo && a.handler == b.handler
    && (a.regMark.Some? ==> b.regMark == a.regMark)
    && (a.status != Waiting ==> b.status != Waiting && b.model == a.model && b.commits == a.commits)
    && (a.done ==> b.done)
  }

  /** Nothing a step does is undone: jobs stay, keep their place, never wait again, never re-register. */
  ghost predicate Evolves(s: State, s': State) {
    && |s.jobs| <= |s'.jobs|
    && (forall j :: 0 <= j < |s.jobs| ==> JobEvolves(s.jobs[j], s'.jobs[j]))
    && (forall j :: 0 <= j < |s.jobs| && s.jobs[j].regMark.Some? && j !in s.waiters ==> j !in s'.waiters)
    && s.started <= s'.started
  }

  /** Registered jobs exist and carry their mark; an inserted job is not registered before its handler acts. */
  ghost predicate Registered(s: State, j: JobId) {
    j < |s.jobs| && s.jobs[j].regMark.Some?
  }

  ghost predicate AfterOk(s: State, after: After) {
    after.ToSelect? ==> Registered(s, after.job)
  }

  /** The job has been committed and its slot is held. */
  ghost predicate SlotOk(cfg: Config, s: State, j: JobId) {
    && Registered(s, j)
    && s.jobs[j].status != Waiting && s.jobs[j].commits == 1
    && s.jobs[j].model != "" && Names(cfg, s.jobs[j].queue, s.jobs[j].model)
  }

  ghost predicate Removed(s: State, j: JobId) {
    Registered(s, j) && j !in s.waiters
  }

  ghost predicate HasStep(cfg: Config, q: QueueId, model: string, cap: int) {
    q in cfg && exists i :: 0 <= i < |cfg[q]| && cfg[q][i].alias == model && cfg[q][i].Cap() == cap
  }

  /** What each program point knows about its job. */
  ghost predicate ThreadOk(cfg: Config, s: State, t: ThreadId, pc: Thread) {
    match pc
    case Inserted(j) =>
      && j < |s.jobs| && s.jobs[j].regMark == None && s.jobs[j].status == Waiting && s.jobs[j].handler == t
      && j !in s.waiters
    case Dispatch(q, after) => AfterOk(s, after)
    case Head(q, after) => AfterOk(s, after) && q in cfg
    case Snapped(q, j, _, after) => AfterOk(s, after) && q in cfg && Registered(s, j) && s.jobs[j].queue == q
    case Picked(q, j, model, cap, after) =>
      AfterOk(s, after) && HasStep(cfg, q, model, cap) && Registered(s, j) && s.jobs[j].queue == q
    case Committed(q, j, after) => AfterOk(s, after) && q in cfg && SlotOk(cfg, s, j) && s.jobs[j].queue == q
    case Spawning(q, j, after) => AfterOk(s, after) && q in cfg && SlotOk(cfg, s, j) && s.jobs[j].queue == q
    case Forwarding(j) => SlotOk(cfg, s, j)
    case Finishing(j) => SlotOk(cfg, s, j)
    case FinishRow(j) => Removed(s, j) && s.jobs[j].status != Waiting
    case FinishClose(j) => Removed(s, j) && s.jobs[j].status != Waiting
    case Select(j) => Registered(s, j)
    case TimedOut(j) => Registered(s, j)
    case AwaitDone(j) => Registered(s, j) && s.jobs[j].status != Waiting
    case DropLock(_) => true
    case DropMark(j) => Removed(s, j)
    case DropRow(j) => Removed(s, j) && s.jobs[j].status != Waiting
    case DropClose(j) => Removed(s, j) && s.jobs[j].status != Waiting
    case Exited => true
  }

  ghost predicate ThreadsOk(cfg: Config, s: State) {
    forall t :: 0 <= t < |s.threads| ==> ThreadOk(cfg, s, t, s.threads[t])
  }

  ghost predicate JobOk(s: State, j: JobId) {
    j < |s.jobs| &&
    var job := s.jobs[j];
    && (job.status == Waiting ==> job.commits == 0)
    && job.commits <= 1
    && job.closes == (if job.done then 1 else 0)
    && (j in s.waiters ==> job.regMark.Some?)
    && (job.regMark.Some? ==> j < job.regMark.value <= |s.jobs|)
  }

  ghost predicate JobsOk(s: State) {
    && (forall j :: 0 <= j < |s.jobs| ==> JobOk(s, j))
    && (forall j :: j in s.waiters ==> j < |s.jobs|)
  }

  ghost predicate Basic(cfg: Config, s: State) {
    ThreadsOk(cfg, s) && JobsOk(s)
  }

  ghost predicate FirstFree(steps: seq<QueueStep>, snap: map<string, int>, routable: set<string>, i: int) {
    0 <= i < |steps| && IsFree(steps[i], snap, routable) && forall k :: 0 <= k < i ==> !IsFree(steps[k], snap, routable)
  }

  /** The pick is the first step that is below its cap in the snapshot and routable; none when there is no such step. */
  lemma {:induction false} PickStepIsFirst(steps: seq<QueueStep>, snap: map<string, int>, routable: set<string>)
    ensures var r := PickStep(steps, snap, routable);
      && (r.Some? ==> exists i :: FirstFree(steps, snap, routable, i) && steps[i] == r.value)
      && (r.None? <==> forall i :: 0 <= i < |steps| ==> !IsFree(steps[i], snap, routable))
  {
    if steps != [] {
      var rest := steps[1..];
      PickStepIsFirst(rest, snap, routable);
      assert forall i :: 1 <= i < |steps| ==> steps[i] == rest[i - 1];
      if IsFree(steps[0], snap, routable) {
        assert FirstFree(steps, snap, routable, 0);
      } else if PickStep(rest, snap, routable).Some? {
        var i :| FirstFree(rest, snap, routable, i) && rest[i] == PickStep(rest, snap, routable).value;
        assert FirstFree(steps, snap, routable, i + 1);
      }
    }
  }

  lemma PickStepNames(steps: seq<QueueStep>, snap: map<string, int>, routable: set<string>)
    ensures var r := PickStep(steps, snap, routable);
      r.Some? ==> r.value in steps && Get(snap, r.value.alias) < r.value.Cap() && r.value.alias in routable
    ensures PickStep(steps, snap, routable).None? <==>
      forall i :: 0 <= i < |steps| ==> Get(snap, steps[i].alias) >= steps[i].Cap() || steps[i].alias !in routable
  {
    PickStepIsFirst(steps, snap, routable);
    assert forall i :: 0 <= i < |steps| ==>
      (IsFree(steps[i], snap, routable) <==> Get(snap, steps[i].alias) < steps[i].Cap() && steps[i].alias in routable);
  }

  lemma OwnJobEvolves(cfg: Config, s: State, t: ThreadId, pc: Thread, c: Choice)
    requires ThreadOk(cfg, s, t, pc) && CanGo(cfg, s, pc, c)
    requires Own(pc).Some? && Step(cfg, s, pc, c).job.Some?
    ensures JobEvolves(s.jobs[Own(pc).value], Step(cfg, s, pc, c).job.value)
  {
  }

  lemma StepEvolves(cfg: Config, s: State, a: Action)
    requires Basic(cfg, s) && Enabled(cfg, s, a)
    ensures Evolves(s, Apply(cfg, s, a))
  {
    if a.Go? {
      var pc := s.threads[a.thread];
      assert ThreadOk(cfg, s, a.thread, pc);
      if Own(pc).Some? && Step(cfg, s, pc, a.choice).job.Some? {
        OwnJobEvolves(cfg, s, a.thread, pc, a.choice);
      }
      assert Step(cfg, s, pc, a.choice).listed == Some(true) ==> pc.Inserted?;
    }
  }

  /** A thread that does not move keeps its knowledge. */
  lemma ThreadFrame(cfg: Config, s: State, s': State, t: ThreadId, pc: Thread)
    requires ThreadOk(cfg, s, t, pc) && Evolves(s, s')
    requires pc.Inserted? ==> s'.jobs[pc.job] == s.jobs[pc.job] && (pc.job in s'.waiters ==> pc.job in s.waiters)
    ensures ThreadOk(cfg, s', t, pc)
  {
  }

  lemma OwnJobStep(cfg: Config, s: State, t: ThreadId, pc: Thread, c: Choice)
    requires ThreadOk(cfg, s, t, pc) && JobsOk(s) && CanGo(cfg, s, pc, c)
    requires Own(pc).Some? && Step(cfg, s, pc, c).job.Some?
    ensures var a, b := s.jobs[Own(pc).value], Step(cfg, s, pc, c).job.value;
      && (b.status == Waiting ==> b.commits == 0) && b.commits <= 1
      && b.closes == (if b.done then 1 else 0)
      && (b.regMark == a.regMark || b.regMark == Some(|s.jobs|))
  {
    assert JobOk(s, Own(pc).value);
  }

  lemma OtherJobStep(cfg: Config, s: State, t: ThreadId, c: Choice, j: JobId)
    requires Basic(cfg, s) && Enabled(cfg, s, Go(t, c)) && j < |s.jobs|
    ensures var pc, s' := s.threads[t], Apply(cfg, s, Go(t, c));
      && (j in s'.waiters ==> j in s.waiters || (pc.Inserted? && pc.job == j))
      && ((Own(pc) == Some(j) && Step(cfg, s, pc, c).job.Some?) || s'.jobs[j] == s.jobs[j])
      && |s'.jobs| == |s.jobs|
  {
    assert ThreadOk(cfg, s, t, s.threads[t]);
  }

  lemma JobStep(cfg: Config, s: State, t: ThreadId, c: Choice, j: JobId)
    requires Basic(cfg, s) && Enabled(cfg, s, Go(t, c)) && j < |s.jobs|
    ensures JobOk(Apply(cfg, s, Go(t, c)), j)
  {
    var pc := s.threads[t];
    assert ThreadOk(cfg, s, t, pc);
    assert JobOk(s, j);
    if Own(pc).Some? && Step(cfg, s, pc, c).job.Some? {
      OwnJobStep(cfg, s, t, pc, c);
      OwnJobEvolves(cfg, s, t, pc, c);
    }
    OtherJobStep(cfg, s, t, c, j);
  }

  lemma StepKeepsJobs(cfg: Config, s: State, a: Action)
    requires Basic(cfg, s) && Enabled(cfg, s, a)
    ensures JobsOk(Apply(cfg, s, a))
  {
    var s' := Apply(cfg, s, a);
    forall j | 0 <= j < |s'.jobs|
      ensures JobOk(s', j)
    {
      if a.Go? {
        JobStep(cfg, s, a.thread, a.choice, j);
      } else if j < |s.jobs| {
        assert JobOk(s, j);
      }
    }
  }

  /** Program points of `dispatch`. */
  predicate Dispatching(pc: Thread) {
    pc.Dispatch? || pc.Head? || pc.Snapped? || pc.Picked? || pc.Committed? || pc.Spawning?
  }

  lemma MovedDispatcher(cfg: Config, s: State, t: ThreadId, c: Choice)
    requires ValidConfig(cfg) && Basic(cfg, s) && Enabled(cfg, s, Go(t, c)) && Dispatching(s.threads[t])
    requires Evolves(s, Apply(cfg, s, Go(t, c)))
    ensures ThreadOk(cfg, Apply(cfg, s, Go(t, c)), t, Step(cfg, s, s.threads[t], c).next)
  {
    var pc := s.threads[t];
    assert ThreadOk(cfg, s, t, pc);
    if pc.Snapped? {
      PickStepNames(cfg[pc.queue], pc.snap, c.routable);
    } else if c.First? {
      assert JobOk(s, c.job);
    } else if pc.Picked? {
      assert JobOk(s, pc.job);
    }
  }

  lemma MovedOther(cfg: Config, s: State, t: ThreadId, c: Choice)
    requires Basic(cfg, s) && Enabled(cfg, s, Go(t, c)) && !Dispatching(s.threads[t])
    requires Evolves(s, Apply(cfg, s, Go(t, c)))
    ensures ThreadOk(cfg, Apply(cfg, s, Go(t, c)), t, Step(cfg, s, s.threads[t], c).next)
  {
    var pc := s.threads[t];
    assert ThreadOk(cfg, s, t, pc);
    if pc.DropLock? && pc.job in s.waiters {
      assert JobOk(s, pc.job);
    }
  }

  lemma StepKeepsThreads(cfg: Config, s: State, a: Action)
    requires ValidConfig(cfg) && Basic(cfg, s) && Enabled(cfg, s, a)
    ensures ThreadsOk(cfg, Apply(cfg, s, a))
  {
    var s' := Apply(cfg, s, a);
    StepEvolves(cfg, s, a);
    forall t | 0 <= t < |s'.threads|
      ensures ThreadOk(cfg, s', t, s'.threads[t])
    {
      if a.Go? && t == a.thread {
        if Dispatching(s.threads[t]) {
          MovedDispatcher(cfg, s, t, a.choice);
        } else {
          MovedOther(cfg, s, t, a.choice);
        }
      } else if t < |s.threads| {
        OtherThread(cfg, s, a, t);
      } else if a.Go? {
        assert ThreadOk(cfg, s, a.thread, s.threads[a.thread]);
      }
    }
  }

  lemma OtherThread(cfg: Config, s: State, a: Action, t: ThreadId)
    requires Basic(cfg, s) && Enabled(cfg, s, a) && t < |s.threads| && (a.Go? ==> a.thread != t)
    requires Evolves(s, Apply(cfg, s, a))
    ensures ThreadOk(cfg, Apply(cfg, s, a), t, s.threads[t])
  {
    assert ThreadOk(cfg, s, t, s.threads[t]);
    if a.Go? {
      assert ThreadOk(cfg, s, a.thread, s.threads[a.thread]);
    }
    ThreadFrame(cfg, s, Apply(cfg, s, a), t, s.threads[t]);
  }

  lemma StepKeepsBasic(cfg: Config, s: State, a: Action)
    requires ValidConfig(cfg) && Basic(cfg, s) && Enabled(cfg, s, a)
    ensures Basic(cfg, Apply(cfg, s, a))
  {
    StepKeepsJobs(cfg, s, a);
    StepKeepsThreads(cfg, s, a);
  }
}
