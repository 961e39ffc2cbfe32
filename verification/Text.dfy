/** Splitting a byte stream into lines, and trimming. A byte is a `char`. */
module Text {
  /** The place of the first newline, or the length. */
  function NewlineAt(s: string): (i: nat)
    ensures i <= |s| && (forall k :: 0 <= k < i ==> s[k] != '\n') && (i < |s| ==> s[i] == '\n')
  {
    if s == "" || s[0] == '\n' then 0 else 1 + NewlineAt(s[1..])
  }

  /** The newline-terminated lines, without their newlines. */
  function Lines(s: string): seq<string>
    decreases |s|
  {
    var i := NewlineAt(s);
    if i == |s| then [] else [s[..i]] + Lines(s[i + 1..])
  }

  /** What follows the last newline. */
  function Tail(s: string): string
    decreases |s|
  {
    var i := NewlineAt(s);
    if i == |s| then s else Tail(s[i + 1..])
  }

  function Unlines(lines: seq<string>): string {
    if lines == [] then "" else lines[0] + "\n" + Unlines(lines[1..])
  }

  function Join(parts: seq<string>): string {
    if parts == [] then "" else parts[0] + Join(parts[1..])
  }

  lemma UnlinesFirst(line: string, rest: seq<string>, tail: string)
    ensures Unlines([line] + rest) + tail == line + "\n" + (Unlines(rest) + tail)
  {
    assert ([line] + rest)[1..] == rest;
    var head, u := line + "\n", Unlines(rest);
    assert (head + u) + tail == head + (u + tail);
  }

  lemma CutAt(s: string, i: nat)
    requires i < |s| && s[i] == '\n'
    ensures s == s[..i] + "\n" + s[i + 1..]
  {
  }

  /** Splitting loses nothing. */
  lemma {:induction false} LinesRoundTrip(s: string)
    ensures Unlines(Lines(s)) + Tail(s) == s
    decreases |s|
  {
    var i := NewlineAt(s);
    if i < |s| {
      var line, rest := s[..i], s[i + 1..];
      LinesRoundTrip(rest);
      CutAt(s, i);
      UnlinesFirst(line, Lines(rest), Tail(rest));
    }
  }

  ghost predicate NoNewline(s: string) {
    forall k :: 0 <= k < |s| ==> s[k] != '\n'
  }

  /** A line holds no newline, and neither does the tail. */
  lemma {:induction false} LinesAreWhole(s: string)
    ensures forall i :: 0 <= i < |Lines(s)| ==> NoNewline(Lines(s)[i])
    ensures NoNewline(Tail(s))
    decreases |s|
  {
    var i := NewlineAt(s);
    if i < |s| {
      LinesAreWhole(s[i + 1..]);
      assert NoNewline(s[..i]);
    }
  }

  lemma NewlineAtAppend(a: string, b: string)
    ensures NewlineAt(a) < |a| ==> NewlineAt(a + b) == NewlineAt(a)
  {
    var i := NewlineAt(a);
    if i < |a| {
      assert (a + b)[i] == '\n';
      assert forall k :: 0 <= k < i ==> (a + b)[k] == a[k];
    }
  }

  lemma FirstLine(s: string)
    requires NewlineAt(s) < |s|
    ensures var i := NewlineAt(s); Lines(s) == [s[..i]] + Lines(s[i + 1..]) && Tail(s) == Tail(s[i + 1..])
  {
  }

  /** The lines of a stream are those of its beginning, then those completed by the rest. */
  lemma {:induction false} LinesAppend(a: string, b: string)
    ensures Lines(a + b) == Lines(a) + Lines(Tail(a) + b)
    ensures Tail(a + b) == Tail(Tail(a) + b)
    decreases |a|
  {
    var i := NewlineAt(a);
    if i < |a| {
      var line, rest := a[..i], a[i + 1..];
      NewlineAtAppend(a, b);
      assert (a + b)[..i] == line && (a + b)[i + 1..] == rest + b;
      FirstLine(a);
      FirstLine(a + b);
      LinesAppend(rest, b);
    }
  }

  /** An unfinished line is part of the line, or of the tail, that it grows into. */
  lemma UnfinishedLineFits(a: string, b: string, n: nat)
    requires forall i :: 0 <= i < |Lines(a + b)| ==> |Lines(a + b)[i]| <= n
    requires |Tail(a + b)| <= n
    ensures |Tail(a)| <= n
  {
    LinesAppend(a, b);
    LinesAreWhole(a);
    var t := Tail(a) + b;
    if NewlineAt(t) < |t| {
      assert Lines(a + b)[|Lines(a)|] == t[..NewlineAt(t)];
      assert t[..|Tail(a)|] == Tail(a);
    }
  }

  lemma {:induction false} JoinLast(parts: seq<string>, p: string)
    ensures Join(parts + [p]) == Join(parts) + p
  {
    if parts == [] {
      assert Join([p]) == p + Join([]);
    } else {
      JoinLast(parts[1..], p);
      assert (parts + [p])[1..] == parts[1..] + [p];
    }
  }

  lemma JoinNext(parts: seq<string>, i: nat)
    requires i < |parts|
    ensures Join(parts[..i + 1]) == Join(parts[..i]) + parts[i]
  {
    assert parts[..i + 1] == parts[..i] + [parts[i]];
    JoinLast(parts[..i], parts[i]);
  }

  lemma {:induction false} JoinSplit(parts: seq<string>, k: nat)
    requires k <= |parts|
    ensures Join(parts) == Join(parts[..k]) + Join(parts[k..])
    decreases k
  {
    if k > 0 {
      JoinSplit(parts[1..], k - 1);
      assert parts[..k][1..] == parts[1..][..k - 1];
      assert parts[k..] == parts[1..][k - 1..];
    } else {
      assert parts[..0] == [] && parts[0..] == parts;
    }
  }

  /** ASCII white space. */
  predicate IsSpace(c: char) {
    c == ' ' || ('\t' <= c && c <= '\r')
  }

  function TrimLeft(s: string): string {
    if s != "" && IsSpace(s[0]) then TrimLeft(s[1..]) else s
  }

  function TrimRight(s: string, drop: char -> bool): string {
    if s != "" && drop(s[|s| - 1]) then TrimRight(s[..|s| - 1], drop) else s
  }

  function TrimSpace(s: string): string {
    TrimRight(TrimLeft(s), IsSpace)
  }

  /** `t` is `s` without its first `a` and last `b` bytes, all of which are in `drop`. */
  ghost predicate CutsEnds(s: string, t: string, a: nat, b: nat, drop: char -> bool) {
    && a + b <= |s| && t == s[a..|s| - b]
    && (forall i :: 0 <= i < a ==> drop(s[i])) && (forall i :: |s| - b <= i < |s| ==> drop(s[i]))
  }

  lemma {:induction false} TrimLeftCut(s: string) returns (a: nat)
    ensures CutsEnds(s, TrimLeft(s), a, 0, IsSpace)
    ensures TrimLeft(s) != "" ==> !IsSpace(TrimLeft(s)[0])
  {
    a := 0;
    if s != "" && IsSpace(s[0]) {
      var k := TrimLeftCut(s[1..]);
      a := k + 1;
      assert forall i :: 1 <= i < a ==> s[i] == s[1..][i - 1];
    }
  }

  lemma {:induction false} TrimRightCut(s: string, drop: char -> bool) returns (b: nat)
    ensures CutsEnds(s, TrimRight(s, drop), 0, b, drop)
    ensures var t := TrimRight(s, drop); t != "" ==> !drop(t[|t| - 1]) && t[0] == s[0]
  {
    b := 0;
    if s != "" && drop(s[|s| - 1]) {
      var k := TrimRightCut(s[..|s| - 1], drop);
      b := k + 1;
      assert forall i :: |s| - b <= i < |s| - 1 ==> s[i] == s[..|s| - 1][i];
    }
  }

  /** Trimming cuts white space off both ends and nothing else. */
  lemma TrimSpaceCuts(s: string) returns (a: nat, b: nat)
    ensures CutsEnds(s, TrimSpace(s), a, b, IsSpace)
    ensures var t := TrimSpace(s); t != "" ==> !IsSpace(t[0]) && !IsSpace(t[|t| - 1])
  {
    a := TrimLeftCut(s);
    b := TrimRightCut(TrimLeft(s), IsSpace);
    var left := TrimLeft(s);
    assert forall i :: 0 <= i < |left| ==> left[i] == s[a + i];
  }
}
