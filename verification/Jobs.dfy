/**
 Background jobs of the backends: at most one runs on a backend at a time, and the list is trimmed
 without losing a running one. A job's progress is read from the lines its process prints.
 */
module Jobs {
  import opened Wrappers
  import opened Text

  const MAX_JOBS := 12
  const LOG_LINES := 4

  datatype Status = Running | Done | Failed

  datatype Job = Job(
    id: string, kind: string, backendId: int, backend: string, model: string,
    status: Status, percent: int, message: string, error: string, log: string)

  /** What a progress line says, if it is a JSON object; a missing or ill-typed member is empty or zero. */
  datatype Progress = Progress(status: string, error: string, total: real, completed: real)

  type Parser = string -> Option<Progress>

  function Starting(kind: string): string {
    if kind == "load" then "загрузка в RAM…"
    else if kind == "pull" then "скачивание…"
    else "выполняется…"
  }

  // ---- the log of a job ---------------------------------------------------------------------------

  function Split(s: string): seq<string> {
    Lines(s) + [Tail(s)]
  }

  function JoinLines(parts: seq<string>): string {
    if parts == [] then "" else if |parts| == 1 then parts[0] else parts[0] + "\n" + JoinLines(parts[1..])
  }

  function LastOf(parts: seq<string>, n: nat): seq<string> {
    if |parts| <= n then parts else parts[|parts| - n..]
  }

  function TailLog(s: string, n: nat): string {
    var t := TrimSpace(s);
    if t == "" then "" else JoinLines(LastOf(Split(t), n))
  }

  function LogWith(j: Job, line: string): Job {
    j.(log := TailLog(TrimSpace(j.log + "\n" + line), LOG_LINES))
  }

  lemma NewlineAtFirst(part: string, rest: string)
    requires NoNewline(part)
    ensures NewlineAt(part + "\n" + rest) == |part|
  {
    var s := part + "\n" + rest;
    assert s[|part|] == '\n';
    assert forall k :: 0 <= k < |part| ==> s[k] == part[k];
  }

  /** Joining and splitting lines loses nothing. */
  lemma {:induction false} SplitJoins(parts: seq<string>)
    requires parts != [] && forall i :: 0 <= i < |parts| ==> NoNewline(parts[i])
    ensures Split(JoinLines(parts)) == parts
    decreases |parts|
  {
    var s := JoinLines(parts);
    if |parts| == 1 {
      assert NewlineAt(s) == |s|;
    } else {
      var rest := JoinLines(parts[1..]);
      NewlineAtFirst(parts[0], rest);
      assert s == parts[0] + "\n" + rest;
      assert s[..|parts[0]|] == parts[0] && s[|parts[0]| + 1..] == rest;
      assert Lines(s) == [parts[0]] + Lines(rest) && Tail(s) == Tail(rest);
      SplitJoins(parts[1..]);
      assert parts == [parts[0]] + parts[1..];
    }
  }

  /** A log keeps the last lines of what it is made of, and no more than it may. */
  lemma TailLogKeepsLast(s: string, n: nat)
    requires n > 0
    ensures TrimSpace(s) != "" ==> Split(TailLog(s, n)) == LastOf(Split(TrimSpace(s)), n)
    ensures |Split(TailLog(s, n))| <= n
  {
    var t := TrimSpace(s);
    if t != "" {
      LinesAreWhole(t);
      SplitJoins(LastOf(Split(t), n));
    } else {
      assert Split("") == [""];
    }
  }

  // ---- one operation ------------------------------------------------------------------------------

  predicate Busy(jobs: seq<Job>, backendId: int) {
    exists i :: 0 <= i < |jobs| && jobs[i].status == Running && jobs[i].backendId == backendId
  }

  function NewJob(id: string, kind: string, backendId: int, backend: string, model: string): Job {
    Job(id, kind, backendId, backend, model, Running, 0, Starting(kind), "", "")
  }

  function RunningOf(jobs: seq<Job>): seq<Job> {
    if jobs == [] then []
    else if jobs[0].status == Running then [jobs[0]] + RunningOf(jobs[1..])
    else RunningOf(jobs[1..])
  }

  /** The newest twelve jobs, and of the older ones those that still run. */
  function Trimmed(jobs: seq<Job>): seq<Job> {
    if |jobs| <= MAX_JOBS then jobs else jobs[..MAX_JOBS] + RunningOf(jobs[MAX_JOBS..])
  }

  function Find(jobs: seq<Job>, id: string): (i: nat)
    ensures i <= |jobs| && (i < |jobs| ==> jobs[i].id == id) && forall k :: 0 <= k < i ==> jobs[k].id != id
  {
    if jobs == [] || jobs[0].id == id then 0 else 1 + Find(jobs[1..], id)
  }

  function JobFailed(j: Job, msg: string): Job {
    LogWith(j.(status := Failed, error := msg, message := msg), msg)
  }

  function JobDone(j: Job): Job {
    j.(status := Done, percent := 100,
       message := if j.message == "" || j.message == Starting(j.kind) then "готово" else j.message)
  }

  function Truncate(x: real): int {
    if x >= 0.0 then x.Floor else -((-x).Floor)
  }

  function Percent(completed: real, total: real): int
    requires total > 0.0
  {
    var pct := Truncate(100.0 * completed / total);
    if pct < 0 then 0 else if pct > 100 then 100 else pct
  }

  /** What a line reports about its job; one that is no JSON object is the message itself. */
  function Reported(progress: Option<Progress>, j: Job, line: string): Job {
    match progress
    case None => j.(message := line)
    case Some(p) =>
      j.(message := if p.error != "" then p.error else if p.status != "" then p.status else j.message,
         status := if p.error != "" then Failed else j.status,
         error := if p.error != "" then p.error else j.error,
         percent := if p.total > 0.0 then Percent(p.completed, p.total)
                    else if p.status == "success" then 100 else j.percent)
  }

  /** What one printed line does to its job. */
  function LineApplied(parse: Parser, j: Job, line: string): Job {
    Reported(parse(line), LogWith(j, line), line)
  }

  datatype Op =
    | Begin(id: string, kind: string, backendId: int, backend: string, model: string)
    | Fail(id: string, msg: string)
    | Finish(id: string)
    | SetMessage(id: string, msg: string)
    | Line(id: string, line: string)

  function Changed(parse: Parser, j: Job, op: Op): Job {
    match op
    case Begin(_, _, _, _, _) => j
    case Fail(_, msg) => JobFailed(j, msg)
    case Finish(_) => JobDone(j)
    case SetMessage(_, msg) => j.(message := msg)
    case Line(_, line) => LineApplied(parse, j, line)
  }

  function Next(parse: Parser, jobs: seq<Job>, op: Op): seq<Job> {
    if op.Begin? then
      if Busy(jobs, op.backendId) then jobs
      else Trimmed([NewJob(op.id, op.kind, op.backendId, op.backend, op.model)] + jobs)
    else
      var i := Find(jobs, op.id);
      if i == |jobs| then jobs else jobs[i := Changed(parse, jobs[i], op)]
  }

  function Run(parse: Parser, jobs: seq<Job>, ops: seq<Op>): seq<Job>
    decreases |ops|
  {
    if ops == [] then jobs else Next(parse, Run(parse, jobs, ops[..|ops| - 1]), ops[|ops| - 1])
  }

  // ---- what every run keeps -----------------------------------------------------------------------

  ghost predicate OneRunningEach(jobs: seq<Job>) {
    forall i, j :: 0 <= i < j < |jobs| && jobs[i].status == Running && jobs[j].status == Running ==>
      jobs[i].backendId != jobs[j].backendId
  }

  ghost predicate SoundJob(j: Job) {
    0 <= j.percent <= 100 && |Split(j.log)| <= LOG_LINES
  }

  ghost predicate Sound(jobs: seq<Job>) {
    OneRunningEach(jobs) && forall i :: 0 <= i < |jobs| ==> SoundJob(jobs[i])
  }

  /** The running jobs are some of the jobs, in order. */
  lemma {:induction false} RunningAreJobs(jobs: seq<Job>, j: Job)
    ensures j in RunningOf(jobs) <==> j in jobs && j.status == Running
  {
    if jobs != [] {
      RunningAreJobs(jobs[1..], j);
      assert j in jobs <==> j == jobs[0] || j in jobs[1..];
    }
  }

  lemma {:induction false} RunningAppend(a: seq<Job>, b: seq<Job>)
    ensures RunningOf(a + b) == RunningOf(a) + RunningOf(b)
    decreases |a|
  {
    if a == [] {
      assert a + b == b;
    } else {
      RunningAppend(a[1..], b);
      assert (a + b)[1..] == a[1..] + b;
    }
  }

  lemma {:induction false} RunningTwice(jobs: seq<Job>)
    ensures RunningOf(RunningOf(jobs)) == RunningOf(jobs)
  {
    if jobs != [] {
      RunningTwice(jobs[1..]);
    }
  }

  /** Trimming loses no running job and keeps their order. */
  lemma TrimKeepsRunning(jobs: seq<Job>)
    ensures RunningOf(Trimmed(jobs)) == RunningOf(jobs)
    ensures forall j :: j in Trimmed(jobs) ==> j in jobs
  {
    if |jobs| > MAX_JOBS {
      var a, b := jobs[..MAX_JOBS], jobs[MAX_JOBS..];
      RunningAppend(a, RunningOf(b));
      RunningAppend(a, b);
      RunningTwice(b);
      assert jobs == a + b;
      forall j | j in RunningOf(b)
        ensures j in jobs
      {
        RunningAreJobs(b, j);
      }
    }
  }

  ghost predicate DistinctBackends(running: seq<Job>) {
    forall i, j :: 0 <= i < j < |running| ==> running[i].backendId != running[j].backendId
  }

  /** One job at a time on a backend, said of the running jobs alone. */
  lemma {:induction false} OneEachIff(jobs: seq<Job>)
    ensures OneRunningEach(jobs) <==> DistinctBackends(RunningOf(jobs))
  {
    if jobs != [] {
      var rest, r := jobs[1..], RunningOf(jobs[1..]);
      OneEachIff(rest);
      assert OneRunningEach(jobs) <==>
        OneRunningEach(rest) && (jobs[0].status == Running ==> !Busy(rest, jobs[0].backendId)) by {
        OneEachFirst(jobs);
      }
      assert Busy(rest, jobs[0].backendId) <==> exists i :: 0 <= i < |r| && r[i].backendId == jobs[0].backendId by {
        BusyIff(rest, jobs[0].backendId);
      }
      if jobs[0].status == Running {
        DistinctFirst(jobs[0], r);
      }
    }
  }

  lemma DistinctFirst(j: Job, r: seq<Job>)
    ensures DistinctBackends([j] + r) <==>
      DistinctBackends(r) && !exists i :: 0 <= i < |r| && r[i].backendId == j.backendId
  {
    var all := [j] + r;
    assert forall i :: 1 <= i < |all| ==> all[i] == r[i - 1];
    if DistinctBackends(all) {
      forall i | 0 <= i < |r|
        ensures r[i].backendId != j.backendId
      {
        assert all[i + 1] == r[i] && all[0] == j;
      }
      forall i, k | 0 <= i < k < |r|
        ensures r[i].backendId != r[k].backendId
      {
        assert all[i + 1] == r[i] && all[k + 1] == r[k];
      }
    }
  }

  lemma OneEachFirst(jobs: seq<Job>)
    requires jobs != []
    ensures OneRunningEach(jobs) <==>
      OneRunningEach(jobs[1..]) && (jobs[0].status == Running ==> !Busy(jobs[1..], jobs[0].backendId))
  {
    var rest := jobs[1..];
    assert forall i :: 1 <= i < |jobs| ==> jobs[i] == rest[i - 1];
    if OneRunningEach(jobs) {
      forall i, j | 0 <= i < j < |rest| && rest[i].status == Running && rest[j].status == Running
        ensures rest[i].backendId != rest[j].backendId
      {
        assert jobs[i + 1] == rest[i] && jobs[j + 1] == rest[j];
      }
      forall i | 0 <= i < |rest| && rest[i].status == Running && jobs[0].status == Running
        ensures rest[i].backendId != jobs[0].backendId
      {
        assert jobs[i + 1] == rest[i];
      }
    }
  }

  lemma BusyIff(jobs: seq<Job>, backendId: int)
    ensures Busy(jobs, backendId) <==>
      exists i :: 0 <= i < |RunningOf(jobs)| && RunningOf(jobs)[i].backendId == backendId
  {
    var r := RunningOf(jobs);
    if Busy(jobs, backendId) {
      var i :| 0 <= i < |jobs| && jobs[i].status == Running && jobs[i].backendId == backendId;
      RunningAreJobs(jobs, jobs[i]);
      assert jobs[i] in r;
    }
    if exists i :: 0 <= i < |r| && r[i].backendId == backendId {
      var i :| 0 <= i < |r| && r[i].backendId == backendId;
      RunningAreJobs(jobs, r[i]);
      var k :| 0 <= k < |jobs| && jobs[k] == r[i];
    }
  }

  lemma BeginSound(jobs: seq<Job>, j: Job)
    requires Sound(jobs) && !Busy(jobs, j.backendId) && SoundJob(j)
    ensures Sound(Trimmed([j] + jobs))
  {
    var all := [j] + jobs;
    OneEachFirst(all);
    assert all[1..] == jobs;
    OneEachIff(all);
    TrimKeepsRunning(all);
    OneEachIff(Trimmed(all));
    forall i | 0 <= i < |Trimmed(all)|
      ensures SoundJob(Trimmed(all)[i])
    {
      assert Trimmed(all)[i] in all;
    }
  }

  lemma LineSound(parse: Parser, j: Job, line: string)
    requires SoundJob(j)
    ensures SoundJob(LineApplied(parse, j, line))
  {
    var log := TrimSpace(j.log + "\n" + line);
    TailLogKeepsLast(log, LOG_LINES);
    assert LineApplied(parse, j, line).log == TailLog(log, LOG_LINES);
  }

  lemma ChangeSound(parse: Parser, j: Job, op: Op)
    requires SoundJob(j) && !op.Begin?
    ensures var j' := Changed(parse, j, op);
      && SoundJob(j') && j'.id == j.id && j'.kind == j.kind && j'.backendId == j.backendId
      && (j'.status == Running ==> j.status == Running)
  {
    match op
    case Fail(_, msg) => TailLogKeepsLast(TrimSpace(j.log + "\n" + msg), LOG_LINES);
    case Line(_, line) => LineSound(parse, j, line);
    case _ =>
  }

  lemma NextSound(parse: Parser, jobs: seq<Job>, op: Op)
    requires Sound(jobs)
    ensures Sound(Next(parse, jobs, op))
  {
    if op.Begin? {
      if !Busy(jobs, op.backendId) {
        var j := NewJob(op.id, op.kind, op.backendId, op.backend, op.model);
        assert Split("") == [""];
        BeginSound(jobs, j);
      }
    } else if Find(jobs, op.id) < |jobs| {
      ChangeSound(parse, jobs[Find(jobs, op.id)], op);
    }
  }

  /** From an empty list, every run keeps one running job a backend, percentages in range and short logs. */
  lemma {:induction false} EveryRunIsSound(parse: Parser, ops: seq<Op>)
    ensures Sound(Run(parse, [], ops))
    decreases |ops|
  {
    if ops != [] {
      EveryRunIsSound(parse, ops[..|ops| - 1]);
      NextSound(parse, Run(parse, [], ops[..|ops| - 1]), ops[|ops| - 1]);
    }
  }

  /** The same job, unchanged or changed by an operation on its id. */
  predicate SameJob(before: Job, after: Job, op: Op) {
    && after.id == before.id && after.backendId == before.backendId
    && (after == before || (!op.Begin? && op.id == before.id))
  }

  /** A running job stays listed, whatever happens, until after it has ended. */
  lemma RunningStaysListed(parse: Parser, jobs: seq<Job>, op: Op, i: nat)
    requires Sound(jobs) && i < |jobs| && jobs[i].status == Running
    ensures exists k :: 0 <= k < |Next(parse, jobs, op)| && SameJob(jobs[i], Next(parse, jobs, op)[k], op)
  {
    var after := Next(parse, jobs, op);
    if op.Begin? && !Busy(jobs, op.backendId) {
      var all := [NewJob(op.id, op.kind, op.backendId, op.backend, op.model)] + jobs;
      TrimKeepsRunning(all);
      assert all[i + 1] == jobs[i];
      RunningAreJobs(all, jobs[i]);
      RunningAreJobs(after, jobs[i]);
      var k :| 0 <= k < |after| && after[k] == jobs[i];
      assert SameJob(jobs[i], after[k], op);
    } else {
      if !op.Begin? && Find(jobs, op.id) == i {
        ChangeSound(parse, jobs[i], op);
      }
      assert SameJob(jobs[i], after[i], op);
    }
  }

  // ---- the lines of a job's output ----------------------------------------------------------------

  /** The trimmed lines, without the empty ones. */
  function Wanted(lines: seq<string>): seq<string> {
    if lines == [] then []
    else (if TrimSpace(lines[0]) == "" then [] else [TrimSpace(lines[0])]) + Wanted(lines[1..])
  }

  lemma {:induction false} WantedAppend(a: seq<string>, b: seq<string>)
    ensures Wanted(a + b) == Wanted(a) + Wanted(b)
    decreases |a|
  {
    if a == [] {
      assert a + b == b;
    } else {
      WantedAppend(a[1..], b);
      assert (a + b)[1..] == a[1..] + b;
    }
  }

  /** A writer: the unfinished line, and the lines it has applied. */
  datatype Output = Output(buf: string, applied: seq<string>)

  function Written(o: Output, p: string): Output {
    Output(Tail(o.buf + p), o.applied + Wanted(Lines(o.buf + p)))
  }

  function WrittenAll(o: Output, chunks: seq<string>): Output
    decreases |chunks|
  {
    if chunks == [] then o else Written(WrittenAll(o, chunks[..|chunks| - 1]), chunks[|chunks| - 1])
  }

  function Closed(o: Output): Output {
    Output("", o.applied + Wanted(Split(o.buf)))
  }

  lemma {:induction false} WritesAdd(chunks: seq<string>)
    ensures WrittenAll(Output("", []), chunks) == Output(Tail(Join(chunks)), Wanted(Lines(Join(chunks))))
    decreases |chunks|
  {
    if chunks != [] {
      var front, p := chunks[..|chunks| - 1], chunks[|chunks| - 1];
      WritesAdd(front);
      assert chunks == front + [p];
      JoinLast(front, p);
      LinesAppend(Join(front), p);
      WantedAppend(Lines(Join(front)), Lines(Tail(Join(front)) + p));
    }
  }

  lemma {:induction false} TailHasNoLines(s: string)
    ensures Lines(Tail(s)) == [] && Tail(Tail(s)) == Tail(s)
    decreases |s|
  {
    if NewlineAt(s) < |s| {
      TailHasNoLines(s[NewlineAt(s) + 1..]);
    }
  }

  /** However the output is cut into writes, exactly its non-empty trimmed lines are applied, the last on close. */
  lemma AnySplitAppliesAllLines(chunks: seq<string>)
    ensures Closed(WrittenAll(Output("", []), chunks)).applied == Wanted(Split(Join(chunks)))
  {
    var all := Join(chunks);
    WritesAdd(chunks);
    TailHasNoLines(all);
    WantedAppend(Lines(all), [Tail(all)]);
    assert Split(Tail(all)) == [Tail(all)];
  }
}
