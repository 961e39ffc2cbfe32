/** How an upstream answer reaches the client: streamed, held back for the guard, or buffered for its usage. */
module PassThrough {
  import opened Wrappers
  import opened Text
  import opened UsageScanner

  const MAX_USAGE_BUFFER := 1048576

  /** A final status code, as an HTTP client hands it over. */
  type Status = c: int | 200 <= c <= 999 witness 200

  /** The client's side of a call: the response heads written so far, and the body bytes. */
  class Response {
    var heads: seq<int>
    var body: string

    constructor ()
      ensures heads == [] && body == ""
    {
      heads, body := [], "";
    }

    method WriteHead(code: int)
      modifies this`heads
      ensures heads == old(heads) + [code]
    {
      heads := heads + [code];
    }

    method Write(p: string) returns (n: nat)
      modifies this`body
      ensures body == old(body) + p && n == |p|
    {
      body := body + p;
      n := |p|;
    }
  }

  /** How the answer is passed on; `post` gives the guarded body, or None when the guard blocks it. */
  datatype Mode = Streamed(isUsage: string -> bool) | Guarded(post: string -> Option<string>) | Buffered

  /** What the client got, the text the usage is read from, and the bytes counted. */
  datatype Passed = Blocked | Sent(usage: Option<string>, count: nat)

  /** Whether the guard stops this answer. */
  predicate Stops(mode: Mode, text: string) {
    mode.Guarded? && mode.post(text) == None
  }

  /** The body the client is to receive. */
  function Delivered(mode: Mode, text: string): string
    requires !Stops(mode, text)
  {
    if mode.Guarded? then mode.post(text).value else text
  }

  /** Every chunk goes straight out; the scanner watches for the usage. */
  method StreamBody(w: Response, code: Status, chunks: seq<string>, isUsage: string -> bool) returns (r: Passed)
    modifies w
    ensures w.heads == old(w.heads) + [code]
    ensures w.body == old(w.body) + Join(chunks)
    ensures r == Sent(FeedAll(isUsage, Scan("", None), chunks).last, |Join(chunks)|)
  {
    w.WriteHead(code);
    var sc := new Scanner(isUsage);
    var nout := 0;
    for i := 0 to |chunks|
      invariant fresh(sc) && sc.isUsage == isUsage
      invariant w.heads == old(w.heads) + [code]
      invariant w.body == old(w.body) + Join(chunks[..i]) && nout == |Join(chunks[..i])|
      invariant sc.State() == FeedAll(isUsage, Scan("", None), chunks[..i])
    {
      JoinNext(chunks, i);
      FeedNext(isUsage, Scan("", None), chunks, i);
      if chunks[i] != "" {
        var wn := w.Write(chunks[i]);
        nout := nout + wn;
        sc.Feed(chunks[i]);
      }
    }
    assert chunks[..|chunks|] == chunks;
    r := Sent(sc.lastUsage, nout);
  }

  /** The whole answer is held back until the guard has seen it. */
  method GuardBody(w: Response, code: Status, chunks: seq<string>, post: string -> Option<string>) returns (r: Passed)
    modifies w
    ensures post(Join(chunks)) == None ==> r == Blocked && w.heads == old(w.heads) && w.body == old(w.body)
    ensures post(Join(chunks)).Some? ==>
      var text := post(Join(chunks)).value;
      w.heads == old(w.heads) + [code] && w.body == old(w.body) + text && r == Sent(Some(text), |text|)
  {
    var held := "";
    for i := 0 to |chunks|
      invariant held == Join(chunks[..i])
      invariant w.heads == old(w.heads) && w.body == old(w.body)
    {
      JoinNext(chunks, i);
      held := held + chunks[i];
    }
    assert chunks[..|chunks|] == chunks;
    if post(held) == None {
      return Blocked;
    }
    w.WriteHead(code);
    var wn := w.Write(post(held).value);
    r := Sent(Some(post(held).value), wn);
  }

  /**
   The answer is buffered so that the head can tell its usage, but never more than 1 MiB of it: a longer
   one goes out as it comes. `peak` is the most that was ever held.
   */
  method BufferBody(w: Response, code: Status, chunks: seq<string>) returns (r: Passed, ghost peak: nat)
    modifies w
    ensures w.heads == old(w.heads) + [code]
    ensures w.body == old(w.body) + Join(chunks)
    ensures r == Sent(if |Join(chunks)| <= MAX_USAGE_BUFFER then Some(Join(chunks)) else None, |Join(chunks)|)
    ensures peak <= MAX_USAGE_BUFFER
  {
    var buf, overflow, nout := "", false, 0;
    peak := 0;
    for i := 0 to |chunks|
      invariant |buf| <= peak <= MAX_USAGE_BUFFER
      invariant overflow <==> |Join(chunks[..i])| > MAX_USAGE_BUFFER
      invariant !overflow ==> w.heads == old(w.heads) && w.body == old(w.body) && buf == Join(chunks[..i]) && nout == 0
      invariant overflow ==> w.heads == old(w.heads) + [code] && buf == ""
      invariant overflow ==> w.body == old(w.body) + Join(chunks[..i]) && nout == |Join(chunks[..i])|
    {
      JoinNext(chunks, i);
      if chunks[i] != "" {
        if !overflow && |buf| + |chunks[i]| <= MAX_USAGE_BUFFER {
          buf := buf + chunks[i];
          peak := if |buf| > peak then |buf| else peak;
        } else {
          if !overflow {
            overflow := true;
            w.WriteHead(code);
            var held := w.Write(buf);
            nout := nout + held;
            buf := "";
          }
          var wn := w.Write(chunks[i]);
          nout := nout + wn;
        }
      }
    }
    assert chunks[..|chunks|] == chunks;
    if overflow {
      r := Sent(None, nout);
    } else {
      w.WriteHead(code);
      var wn := w.Write(buf);
      r := Sent(Some(buf), wn);
    }
  }

  /** Unless the guard stops it, the client gets one head and the whole body, however it was chunked. */
  method WriteUpstream(w: Response, code: Status, chunks: seq<string>, mode: Mode) returns (r: Passed)
    modifies w
    ensures r.Blocked? <==> Stops(mode, Join(chunks))
    ensures r.Blocked? ==> w.heads == old(w.heads) && w.body == old(w.body)
    ensures r.Sent? ==>
      && w.heads == old(w.heads) + [code]
      && w.body == old(w.body) + Delivered(mode, Join(chunks))
      && r.count == |Delivered(mode, Join(chunks))|
    ensures mode.Streamed? ==> r.Sent? && r.usage == FeedAll(mode.isUsage, Scan("", None), chunks).last
    ensures mode.Guarded? && r.Sent? ==> r.usage == Some(Delivered(mode, Join(chunks)))
    ensures mode.Buffered? ==>
      r.Sent? && r.usage == if |Join(chunks)| <= MAX_USAGE_BUFFER then Some(Join(chunks)) else None
  {
    match mode
    case Streamed(isUsage) => r := StreamBody(w, code, chunks, isUsage);
    case Guarded(post) => r := GuardBody(w, code, chunks, post);
    case Buffered =>
      ghost var peak;
      r, peak := BufferBody(w, code, chunks);
  }
}
