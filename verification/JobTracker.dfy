/** The job tracker and the writer that feeds it a process's output. */
module JobTracker {
  import opened Wrappers
  import opened Text
  import opened Jobs

  class Tracker {
    const parse: Parser
    var jobs: seq<Job>

    constructor (parse: Parser)
      ensures this.parse == parse && jobs == [] && Sound(jobs)
    {
      this.parse := parse;
      jobs := [];
    }

    /** Starts a job, unless one is running on the backend: then that one is returned. */
    method Begin(id: string, kind: string, backendId: int, backend: string, model: string)
      returns (started: Option<Job>, busy: Option<Job>)
      modifies this
      ensures jobs == Next(parse, old(jobs), Op.Begin(id, kind, backendId, backend, model))
      ensures old(Sound(jobs)) ==> Sound(jobs)
      ensures started.Some? <==> !Busy(old(jobs), backendId)
      ensures started.Some? ==>
        busy == None && jobs != [] && jobs[0] == started.value && started.value.status == Running
      ensures started == None ==>
        busy.Some? && busy.value in old(jobs) && busy.value.status == Running && busy.value.backendId == backendId
    {
      if Sound(jobs) {
        NextSound(parse, jobs, Op.Begin(id, kind, backendId, backend, model));
      }
      for i := 0 to |jobs|
        invariant jobs == old(jobs)
        invariant forall k :: 0 <= k < i ==> jobs[k].status != Running || jobs[k].backendId != backendId
      {
        if jobs[i].status != Running {
          continue;
        }
        if jobs[i].backendId == backendId {
          return None, Some(jobs[i]);
        }
      }
      var j := NewJob(id, kind, backendId, backend, model);
      jobs := [j] + jobs;
      if |jobs| > MAX_JOBS {
        var kept := Trim(jobs);
        jobs := kept;
      }
      return Some(j), None;
    }

    method Fail(id: string, msg: string)
      modifies this
      ensures jobs == Next(parse, old(jobs), Op.Fail(id, msg))
      ensures old(Sound(jobs)) ==> Sound(jobs)
    {
      if Sound(jobs) {
        NextSound(parse, jobs, Op.Fail(id, msg));
      }
      var i := IndexOf(id);
      if i == |jobs| {
        return;
      }
      var j := jobs[i];
      j := j.(status := Failed);
      j := j.(error := msg);
      j := j.(message := msg);
      j := AppendLog(j, msg);
      jobs := jobs[i := j];
    }

    method Done(id: string)
      modifies this
      ensures jobs == Next(parse, old(jobs), Op.Finish(id))
      ensures old(Sound(jobs)) ==> Sound(jobs)
    {
      if Sound(jobs) {
        NextSound(parse, jobs, Op.Finish(id));
      }
      var i := IndexOf(id);
      if i == |jobs| {
        return;
      }
      var j := jobs[i];
      j := j.(status := Status.Done);
      j := j.(percent := 100);
      if j.message == "" || j.message == Starting(j.kind) {
        j := j.(message := "готово");
      }
      jobs := jobs[i := j];
    }

    method SetMessage(id: string, msg: string)
      modifies this
      ensures jobs == Next(parse, old(jobs), Op.SetMessage(id, msg))
      ensures old(Sound(jobs)) ==> Sound(jobs)
    {
      if Sound(jobs) {
        NextSound(parse, jobs, Op.SetMessage(id, msg));
      }
      var i := IndexOf(id);
      if i == |jobs| {
        return;
      }
      jobs := jobs[i := jobs[i].(message := msg)];
    }

    method ApplyLine(id: string, line: string)
      modifies this
      ensures jobs == Next(parse, old(jobs), Op.Line(id, line))
      ensures old(Sound(jobs)) ==> Sound(jobs)
    {
      if Sound(jobs) {
        NextSound(parse, jobs, Op.Line(id, line));
      }
      var i := IndexOf(id);
      if i == |jobs| {
        return;
      }
      var j := AppendLog(jobs[i], line);
      j := ReadLine(j, line);
      jobs := jobs[i := j];
    }

    /** What a line reports about its job. */
    method ReadLine(before: Job, line: string) returns (j: Job)
      ensures j == Reported(parse(line), before, line)
    {
      j := before;
      var m := parse(line);
      if m == None {
        j := j.(message := line);
        return;
      }
      var p := m.value;
      if p.status != "" {
        j := j.(message := p.status);
        if p.status == "success" {
          j := j.(percent := 100);
        }
      }
      if p.error != "" {
        j := j.(status := Failed);
        j := j.(error := p.error);
        j := j.(message := p.error);
      }
      if p.total > 0.0 {
        var pct := Truncate(100.0 * p.completed / p.total);
        if pct < 0 {
          pct := 0;
        }
        if pct > 100 {
          pct := 100;
        }
        j := j.(percent := pct);
      }
    }

    method AppendLog(before: Job, line: string) returns (j: Job)
      ensures j == LogWith(before, line)
    {
      j := before.(log := TailLog(TrimSpace(before.log + "\n" + line), LOG_LINES));
    }

    /** `find`: the first job with this id. */
    method IndexOf(id: string) returns (i: nat)
      ensures i <= |jobs| && (i < |jobs| ==> jobs[i].id == id) && forall k :: 0 <= k < i ==> jobs[k].id != id
      ensures i == Find(jobs, id)
    {
      i := 0;
      while i < |jobs|
        invariant i <= |jobs| && forall k :: 0 <= k < i ==> jobs[k].id != id
      {
        if jobs[i].id == id {
          return;
        }
        i := i + 1;
      }
    }
  }

  /** Keeps the running jobs, and others while there is room. */
  method Trim(jobs: seq<Job>) returns (kept: seq<Job>)
    ensures kept == Trimmed(jobs)
  {
    kept := [];
    for i := 0 to |jobs|
      invariant kept == KeptOf(jobs, i)
    {
      if jobs[i].status == Running || |kept| < MAX_JOBS {
        kept := kept + [jobs[i]];
      }
    }
    KeptIsTrimmed(jobs, |jobs|);
    assert jobs[..|jobs|] == jobs;
  }

  /** What the loop has kept of the first `n` jobs. */
  function KeptOf(jobs: seq<Job>, n: nat): seq<Job>
    requires n <= |jobs|
  {
    if n == 0 then []
    else
      var kept, j := KeptOf(jobs, n - 1), jobs[n - 1];
      if j.status == Running || |kept| < MAX_JOBS then kept + [j] else kept
  }

  lemma {:induction false} KeptIsTrimmed(jobs: seq<Job>, n: nat)
    requires n <= |jobs|
    ensures KeptOf(jobs, n) == Trimmed(jobs[..n])
  {
    if n > 0 {
      KeptIsTrimmed(jobs, n - 1);
      TrimOneMore(jobs, n - 1);
    }
  }

  lemma TrimOneMore(jobs: seq<Job>, i: nat)
    requires i < |jobs|
    ensures |Trimmed(jobs[..i])| < MAX_JOBS <==> i < MAX_JOBS
    ensures Trimmed(jobs[..i + 1]) ==
      if jobs[i].status == Running || i < MAX_JOBS then Trimmed(jobs[..i]) + [jobs[i]] else Trimmed(jobs[..i])
  {
    assert jobs[..i + 1] == jobs[..i] + [jobs[i]];
    if i >= MAX_JOBS {
      var a, b := jobs[..i], jobs[..i + 1];
      assert b[..MAX_JOBS] == jobs[..MAX_JOBS] && a[..MAX_JOBS] == jobs[..MAX_JOBS];
      assert b[MAX_JOBS..] == a[MAX_JOBS..] + [jobs[i]];
      RunningAppend(a[MAX_JOBS..], [jobs[i]]);
      assert RunningOf([jobs[i]]) == if jobs[i].status == Running then [jobs[i]] else [];
      if i == MAX_JOBS {
        assert a[MAX_JOBS..] == [];
      }
    }
  }

  // ---- lines taken one by one ---------------------------------------------------------------------

  /** What one line does to a job list. */
  function LineStep(parse: Parser, id: string): (seq<Job>, string) -> seq<Job> {
    (jobs, line) => Next(parse, jobs, Op.Line(id, line))
  }

  /** A state after a step for each of these lines. */
  function Applied<S>(step: (S, string) -> S, s: S, lines: seq<string>): S
    decreases |lines|
  {
    if lines == [] then s else step(Applied(step, s, lines[..|lines| - 1]), lines[|lines| - 1])
  }

  /** Whatever a process prints, the job list stays sound. */
  lemma {:induction false} OutputKeepsSound(parse: Parser, id: string, jobs: seq<Job>, lines: seq<string>)
    requires Sound(jobs)
    ensures Sound(Applied(LineStep(parse, id), jobs, lines))
    decreases |lines|
  {
    if lines != [] {
      var front := lines[..|lines| - 1];
      OutputKeepsSound(parse, id, jobs, front);
      NextSound(parse, Applied(LineStep(parse, id), jobs, front), Op.Line(id, lines[|lines| - 1]));
    }
  }

  /** The lines applied so far, and the state they have led to. */
  datatype Effect<S> = Effect(applied: seq<string>, state: S)

  /** One line, unless it is blank. */
  function Taken<S>(step: (S, string) -> S, e: Effect<S>, raw: string): Effect<S> {
    var line := TrimSpace(raw);
    if line == "" then e else Effect(e.applied + [line], step(e.state, line))
  }

  function TakenAll<S>(step: (S, string) -> S, e: Effect<S>, lines: seq<string>): Effect<S>
    decreases |lines|
  {
    if lines == [] then e else TakenAll(step, Taken(step, e, lines[0]), lines[1..])
  }

  lemma TakenOnward<S>(step: (S, string) -> S, start: S, before: seq<string>, fed: seq<string>, raw: string)
    ensures var e := Taken(step, Effect(before + fed, Applied(step, start, fed)), raw);
      var fed' := fed + Wanted([raw]);
      e == Effect(before + fed', Applied(step, start, fed'))
  {
    var line := TrimSpace(raw);
    OneWanted(raw);
    if line == "" {
      assert fed + [] == fed;
    } else {
      assert (fed + [line])[..|fed|] == fed;
      assert before + fed + [line] == before + (fed + [line]);
    }
  }

  lemma OneWanted(raw: string)
    ensures Wanted([raw]) == if TrimSpace(raw) == "" then [] else [TrimSpace(raw)]
  {
    assert Wanted([raw]) == (if TrimSpace(raw) == "" then [] else [TrimSpace(raw)]) + Wanted([]);
  }

  /** Taking lines applies exactly the wanted ones, in order. */
  lemma {:induction false} TakenAllIs<S>(step: (S, string) -> S, start: S, before: seq<string>, fed: seq<string>,
                                         lines: seq<string>)
    ensures var fed' := fed + Wanted(lines);
      TakenAll(step, Effect(before + fed, Applied(step, start, fed)), lines)
      == Effect(before + fed', Applied(step, start, fed'))
    decreases |lines|
  {
    if lines == [] {
      assert fed + Wanted(lines) == fed;
    } else {
      var first, rest := lines[0], lines[1..];
      TakenOnward(step, start, before, fed, first);
      TakenAllIs(step, start, before, fed + Wanted([first]), rest);
      assert lines == [first] + rest;
      WantedAppend([first], rest);
      assert fed + Wanted([first]) + Wanted(rest) == fed + Wanted(lines);
    }
  }

  lemma TakenAllFrom<S>(step: (S, string) -> S, e: Effect<S>, lines: seq<string>)
    ensures TakenAll(step, e, lines) == Effect(e.applied + Wanted(lines), Applied(step, e.state, Wanted(lines)))
  {
    TakenAllIs(step, e.state, e.applied, [], lines);
    assert e.applied + [] == e.applied && [] + Wanted(lines) == Wanted(lines);
    assert e == Effect(e.applied, e.state);
  }

  lemma {:induction false} TakenAllAppend<S>(step: (S, string) -> S, e: Effect<S>, a: seq<string>, b: seq<string>)
    ensures TakenAll(step, e, a + b) == TakenAll(step, TakenAll(step, e, a), b)
    decreases |a|
  {
    if a == [] {
      assert a + b == b;
    } else {
      TakenAllAppend(step, Taken(step, e, a[0]), a[1..], b);
      assert (a + b)[1..] == a[1..] + b;
    }
  }

  lemma TakeFirst<S>(step: (S, string) -> S, e: Effect<S>, s: string)
    requires NewlineAt(s) < |s|
    ensures var rest := s[NewlineAt(s) + 1..];
      && Tail(s) == Tail(rest)
      && TakenAll(step, e, Lines(s)) == TakenAll(step, Taken(step, e, s[..NewlineAt(s)]), Lines(rest))
  {
    FirstLine(s);
    assert Lines(s)[1..] == Lines(s[NewlineAt(s) + 1..]);
  }

  lemma TakeOne<S>(step: (S, string) -> S, e: Effect<S>, raw: string)
    ensures TakenAll(step, e, [raw]) == Taken(step, e, raw)
    ensures Taken(step, e, "") == e
  {
    assert [raw][1..] == [];
  }

  /** Collects a process's output and applies it to one job, line by line. */
  class Writer {
    const t: Tracker
    const id: string
    var buf: string
    /** The lines applied so far. */
    ghost var applied: seq<string>

    constructor (t: Tracker, id: string)
      ensures this.t == t && this.id == id && State() == Output("", [])
    {
      this.t, this.id := t, id;
      buf, applied := "", [];
    }

    ghost function State(): Output
      reads this
    {
      Output(buf, applied)
    }

    ghost function Now(): Effect<seq<Job>>
      reads this, t
    {
      Effect(applied, t.jobs)
    }

    method Write(p: string) returns (n: nat)
      modifies this, t
      ensures State() == Written(old(State()), p) && n == |p|
      ensures t.jobs == Applied(LineStep(t.parse, id), old(t.jobs), Wanted(Lines(old(buf) + p)))
    {
      TakenAllFrom(LineStep(t.parse, id), Now(), Lines(buf + p));
      buf := buf + p;
      Flush(false);
      n := |p|;
    }

    method Close()
      modifies this, t
      ensures State() == Closed(old(State()))
      ensures t.jobs == Applied(LineStep(t.parse, id), old(t.jobs), Wanted(Split(old(buf))))
    {
      TakenAllFrom(LineStep(t.parse, id), Now(), Split(buf));
      Flush(true);
    }

    /** Applies every finished line, and with `all` the unfinished one as well. */
    method Flush(all: bool)
      modifies this, t
      ensures buf == if all then "" else Tail(old(buf))
      ensures Now() == TakenAll(LineStep(t.parse, id), old(Now()), if all then Split(old(buf)) else Lines(old(buf)))
    {
      ghost var tail := Tail(buf);
      TakenAllAppend(LineStep(t.parse, id), Now(), Lines(buf), [tail]);
      while NewlineAt(buf) < |buf|
        invariant Tail(buf) == tail
        invariant TakenAll(LineStep(t.parse, id), Now(), Lines(buf)) ==
          TakenAll(LineStep(t.parse, id), old(Now()), Lines(old(buf)))
        decreases |buf|
      {
        var i := NewlineAt(buf);
        var raw := buf[..i];
        TakeFirst(LineStep(t.parse, id), Now(), buf);
        buf := buf[i + 1..];
        ApplyTrimmed(raw);
      }
      if all {
        TakeOne(LineStep(t.parse, id), Now(), tail);
        if |buf| > 0 {
          ApplyTrimmed(buf);
          buf := "";
        }
      }
    }

    /** Applies one line, unless it is blank. */
    method ApplyTrimmed(raw: string)
      modifies this`applied, t
      ensures Now() == Taken(LineStep(t.parse, id), old(Now()), raw)
    {
      var line := TrimSpace(raw);
      if line != "" {
        t.ApplyLine(id, line);
        applied := applied + [line];
      }
    }
  }
}
