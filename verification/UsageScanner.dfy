/**
 The incremental usage scanner of a streamed answer: it sees the stream chunk by chunk, keeps
 only the unfinished line, and remembers the last payload that carries usage.
 The lines are those of server-sent events (section 9.2 of the WHATWG HTML standard) and NDJSON.
 */
module UsageScanner {
  import opened Wrappers
  import opened Text

  const TAIL_MAX := 65536
  const CHUNK_MAX := 32768

  /** The payload of a line: what follows `data:`, or a bare JSON line. */
  function Payload(raw: string): Option<string> {
    var line := TrimRight(raw, c => c == '\r');
    if line == "" || line[0] == ':' then None
    else if "data:" <= line then
      var payload := TrimSpace(line[5..]);
      if payload == "" || payload == "[DONE]" then None else Some(payload)
    else if line[0] == '{' then Some(line)
    else None
  }

  /** The usage payload a line carries, `isUsage` telling which payloads do. */
  function Usage(isUsage: string -> bool, raw: string): Option<string> {
    match Payload(raw)
    case None => None
    case Some(payload) => if |payload| <= TAIL_MAX && isUsage(payload) then Some(payload) else None
  }

  /** The last usage payload among the lines, or `before` when there is none. */
  function LastUsage(isUsage: string -> bool, lines: seq<string>, before: Option<string>): Option<string> {
    if lines == [] then before
    else LastUsage(isUsage, lines[1..], if Usage(isUsage, lines[0]).Some? then Usage(isUsage, lines[0]) else before)
  }

  lemma {:induction false} LastUsageIsLast(isUsage: string -> bool, lines: seq<string>, before: Option<string>)
    ensures var r := LastUsage(isUsage, lines, before);
      || (r == before && forall i :: 0 <= i < |lines| ==> Usage(isUsage, lines[i]) == None)
      || exists i :: 0 <= i < |lines| && Usage(isUsage, lines[i]).Some? && r == Usage(isUsage, lines[i])
                  && forall j :: i < j < |lines| ==> Usage(isUsage, lines[j]) == None
  {
    if lines != [] {
      var next := if Usage(isUsage, lines[0]).Some? then Usage(isUsage, lines[0]) else before;
      LastUsageIsLast(isUsage, lines[1..], next);
      if exists i :: 0 <= i < |lines| - 1 && Usage(isUsage, lines[1..][i]).Some?
                     && LastUsage(isUsage, lines[1..], next) == Usage(isUsage, lines[1..][i])
                     && forall j :: i < j < |lines| - 1 ==> Usage(isUsage, lines[1..][j]) == None {
        var i :| 0 <= i < |lines| - 1 && Usage(isUsage, lines[1..][i]).Some?
          && LastUsage(isUsage, lines[1..], next) == Usage(isUsage, lines[1..][i])
          && forall j :: i < j < |lines| - 1 ==> Usage(isUsage, lines[1..][j]) == None;
        assert lines[i + 1] == lines[1..][i];
        assert forall j :: i + 1 < j < |lines| ==> lines[j] == lines[1..][j - 1];
      } else {
        assert forall j :: 1 <= j < |lines| ==> lines[j] == lines[1..][j - 1];
      }
    }
  }

  lemma {:induction false} LastUsageAppend(isUsage: string -> bool, a: seq<string>, b: seq<string>,
                                           before: Option<string>)
    ensures LastUsage(isUsage, a + b, before) == LastUsage(isUsage, b, LastUsage(isUsage, a, before))
    decreases |a|
  {
    if a == [] {
      assert a + b == b;
    } else {
      LastUsageAppend(isUsage, a[1..], b, if Usage(isUsage, a[0]).Some? then Usage(isUsage, a[0]) else before);
      assert (a + b)[1..] == a[1..] + b;
    }
  }

  lemma LastUsageFirst(isUsage: string -> bool, raw: string, rest: seq<string>, before: Option<string>)
    ensures LastUsage(isUsage, [raw] + rest, before)
         == LastUsage(isUsage, rest, if Usage(isUsage, raw).Some? then Usage(isUsage, raw) else before)
  {
    assert ([raw] + rest)[1..] == rest;
  }

  datatype Scan = Scan(frag: string, last: Option<string>)

  /** One `Feed`: a fragment that grows past the limit is dropped with everything in it. */
  function FeedStep(isUsage: string -> bool, s: Scan, p: string): Scan {
    var all := s.frag + p;
    if p == "" then s
    else if |all| > TAIL_MAX then Scan("", s.last)
    else Scan(Tail(all), LastUsage(isUsage, Lines(all), s.last))
  }

  function FeedAll(isUsage: string -> bool, s: Scan, chunks: seq<string>): Scan
    decreases |chunks|
  {
    if chunks == [] then s
    else FeedStep(isUsage, FeedAll(isUsage, s, chunks[..|chunks| - 1]), chunks[|chunks| - 1])
  }

  lemma FeedNext(isUsage: string -> bool, s: Scan, chunks: seq<string>, i: nat)
    requires i < |chunks|
    ensures FeedAll(isUsage, s, chunks[..i + 1]) == FeedStep(isUsage, FeedAll(isUsage, s, chunks[..i]), chunks[i])
    ensures FeedStep(isUsage, s, "") == s
  {
    var upTo := chunks[..i + 1];
    assert upTo[..|upTo| - 1] == chunks[..i];
  }

  class Scanner {
    const isUsage: string -> bool
    var frag: string
    var lastUsage: Option<string>

    constructor (isUsage: string -> bool)
      ensures this.isUsage == isUsage && State() == Scan("", None)
    {
      this.isUsage := isUsage;
      frag, lastUsage := "", None;
    }

    function State(): Scan
      reads this
    {
      Scan(frag, lastUsage)
    }

    method Feed(p: string)
      modifies this
      ensures State() == FeedStep(isUsage, old(State()), p)
      ensures |old(frag)| <= TAIL_MAX ==> |frag| <= TAIL_MAX
    {
      if |p| == 0 {
        return;
      }
      frag := frag + p;
      ghost var all := frag;
      if |frag| > TAIL_MAX {
        frag := "";
        return;
      }
      while true
        invariant |frag| <= |all| <= TAIL_MAX
        invariant Tail(frag) == Tail(all)
        invariant LastUsage(isUsage, Lines(frag), lastUsage) == LastUsage(isUsage, Lines(all), old(lastUsage))
        decreases |frag|
      {
        var i := NewlineAt(frag);
        if i == |frag| {
          return;
        }
        var raw := frag[..i];
        LastUsageFirst(isUsage, raw, Lines(frag[i + 1..]), lastUsage);
        frag := frag[i + 1..];
        var payload := Payload(raw);
        if payload.Some? && |payload.value| <= TAIL_MAX && isUsage(payload.value) {
          lastUsage := payload;
        }
      }
    }
  }

  /** Before each chunk the unfinished line and the chunk together fit. */
  ghost predicate Fits(chunks: seq<string>) {
    forall i :: 0 <= i < |chunks| ==> |Tail(Join(chunks[..i]))| + |chunks[i]| <= TAIL_MAX
  }

  /** Feeding chunk by chunk comes to the same as scanning the whole stream at once. */
  lemma {:induction false} IncrementalIsBatch(isUsage: string -> bool, chunks: seq<string>)
    requires Fits(chunks)
    ensures FeedAll(isUsage, Scan("", None), chunks)
         == Scan(Tail(Join(chunks)), LastUsage(isUsage, Lines(Join(chunks)), None))
    decreases |chunks|
  {
    if chunks != [] {
      var n := |chunks| - 1;
      var front, p := chunks[..n], chunks[n];
      assert Fits(front) by {
        assert forall i :: 0 <= i < n ==> front[..i] == chunks[..i] && front[i] == chunks[i];
      }
      IncrementalIsBatch(isUsage, front);
      JoinLast(front, p);
      assert chunks == front + [p];
      LinesAppend(Join(front), p);
      LastUsageAppend(isUsage, Lines(Join(front)), Lines(Tail(Join(front)) + p), None);
      if p == "" {
        assert Join(front) + p == Join(front);
      }
    }
  }

  /** Chunks and lines of at most 32 KiB always fit, so nothing is ever dropped. */
  lemma SmallChunksAndLinesFit(chunks: seq<string>)
    requires forall i :: 0 <= i < |chunks| ==> |chunks[i]| <= CHUNK_MAX
    requires forall i :: 0 <= i < |Lines(Join(chunks))| ==> |Lines(Join(chunks))[i]| <= CHUNK_MAX
    requires |Tail(Join(chunks))| <= CHUNK_MAX
    ensures Fits(chunks)
  {
    forall i | 0 <= i < |chunks|
      ensures |Tail(Join(chunks[..i]))| + |chunks[i]| <= TAIL_MAX
    {
      JoinSplit(chunks, i);
      UnfinishedLineFits(Join(chunks[..i]), Join(chunks[i..]), CHUNK_MAX);
    }
  }

  /** For every split of a stream of short lines into short chunks, the scanner finds its last usage payload. */
  lemma ScannerFindsLastUsage(isUsage: string -> bool, chunks: seq<string>)
    requires forall i :: 0 <= i < |chunks| ==> |chunks[i]| <= CHUNK_MAX
    requires forall i :: 0 <= i < |Lines(Join(chunks))| ==> |Lines(Join(chunks))[i]| <= CHUNK_MAX
    requires |Tail(Join(chunks))| <= CHUNK_MAX
    ensures FeedAll(isUsage, Scan("", None), chunks).last == LastUsage(isUsage, Lines(Join(chunks)), None)
  {
    SmallChunksAndLinesFit(chunks);
    IncrementalIsBatch(isUsage, chunks);
  }

  /** Whatever arrives, the fragment never holds more than 64 KiB. */
  lemma {:induction false} FragmentBounded(isUsage: string -> bool, s: Scan, chunks: seq<string>)
    requires |s.frag| <= TAIL_MAX
    ensures |FeedAll(isUsage, s, chunks).frag| <= TAIL_MAX
    decreases |chunks|
  {
    if chunks != [] {
      var before := FeedAll(isUsage, s, chunks[..|chunks| - 1]);
      FragmentBounded(isUsage, s, chunks[..|chunks| - 1]);
      TailShort(before.frag + chunks[|chunks| - 1]);
    }
  }

  lemma {:induction false} TailShort(s: string)
    ensures |Tail(s)| <= |s|
    decreases |s|
  {
    if NewlineAt(s) < |s| {
      TailShort(s[NewlineAt(s) + 1..]);
    }
  }
}
