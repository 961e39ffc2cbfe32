/** Chat completions: the parser that merges a plain answer or a stream of chunks. */
module ChatModel {
  import opened Wrappers
  import opened Json

  // ---- decoding -----------------------------------------------------------------------------------

  /** An `int` field; the decoder rejects numbers out of its range. */
  type Int64 = n: int | -0x8000_0000_0000_0000 <= n < 0x8000_0000_0000_0000

  datatype RawCall = RawCall(id: string, index: Option<Int64>, kind: string, name: string, arguments: Option<Json>) {
    function Idx(): Int64 {
      match index
      case None => 0
      case Some(i) => i
    }

    /** Arguments as text: a string as it is, any other value in compact form. */
    function Arguments(compact: Json -> string): string {
      match arguments
      case None => ""
      case Some(Str(s)) => s
      case Some(v) => compact(v)
    }
  }

  datatype Part = Part(content: Json, reasoning: Json, reasoningContent: Json, calls: seq<RawCall>)

  datatype Choice = Choice(finish: Option<string>, message: Part, delta: Part)

  datatype Chunk = Chunk(id: string, model: string, usage: Option<Json>, choices: seq<Choice>)

  const NoPart := Part(Null, Null, Null, [])

  /** A string field: missing and null leave it empty, another type is an error. */
  function DecodeString(j: Option<Json>): Option<string> {
    match j
    case None => Some("")
    case Some(Null) => Some("")
    case Some(Str(s)) => Some(s)
    case Some(_) => None
  }

  function DecodeIndex(j: Option<Json>): Option<Option<Int64>> {
    match j
    case None => Some(None)
    case Some(Null) => Some(None)
    case Some(Int(n)) => if -0x8000_0000_0000_0000 <= n < 0x8000_0000_0000_0000 then Some(Some(n)) else None
    case Some(_) => None
  }

  function DecodeFinish(j: Option<Json>): Option<Option<string>> {
    match j
    case None => Some(None)
    case Some(Null) => Some(None)
    case Some(Str(s)) => Some(Some(s))
    case Some(_) => None
  }

  function DecodeCall(j: Json): Option<RawCall> {
    if !j.Obj? && !j.Null? then None
    else
      var f := j.MemberOrNull(Key.Function);
      var id, kind := DecodeString(j.Member(Key.Id)), DecodeString(j.Member(Key.Type));
      var index := DecodeIndex(j.Member(Key.Index));
      var name := DecodeString(f.Member(Key.Name));
      if id == None || index == None || kind == None || name == None || !(f.Obj? || f.Null?) then None
      else Some(RawCall(id.value, index.value, kind.value, name.value, f.Member(Key.Arguments)))
  }

  function DecodeCalls(items: seq<Json>): Option<seq<RawCall>> {
    if items == [] then Some([])
    else
      var first, rest := DecodeCall(items[0]), DecodeCalls(items[1..]);
      if first == None || rest == None then None else Some([first.value] + rest.value)
  }

  function DecodePart(j: Json): Option<Part> {
    if j.Null? then Some(NoPart)
    else if !j.Obj? then None
    else
      var calls := match j.MemberOrNull(Key.ToolCalls) {
        case Null => Some([])
        case Arr(items) => DecodeCalls(items)
        case _ => None
      };
      if calls == None then None
      else
        Some(Part(j.MemberOrNull(Key.Content), j.MemberOrNull(Key.Reasoning), j.MemberOrNull(Key.ReasoningContent),
                  calls.value))
  }

  function DecodeChoice(j: Json): Option<Choice> {
    if !j.Obj? && !j.Null? then None
    else
      var finish := DecodeFinish(j.Member(Key.FinishReason));
      var message, delta := DecodePart(j.MemberOrNull(Key.Message)), DecodePart(j.MemberOrNull(Key.Delta));
      if finish == None || message == None || delta == None then None
      else Some(Choice(finish.value, message.value, delta.value))
  }

  function DecodeChoices(items: seq<Json>): Option<seq<Choice>> {
    if items == [] then Some([])
    else
      var first, rest := DecodeChoice(items[0]), DecodeChoices(items[1..]);
      if first == None || rest == None then None else Some([first.value] + rest.value)
  }

  /** One chunk; None when some field has the wrong type, and then the whole chunk is ignored. */
  function DecodeChunk(j: Json): Option<Chunk> {
    if j.Null? then Some(Chunk("", "", None, []))
    else if !j.Obj? then None
    else
      var id, model := DecodeString(j.Member(Key.Id)), DecodeString(j.Member(Key.Model));
      var choices := match j.MemberOrNull(Key.Choices) {
        case Null => Some([])
        case Arr(items) => DecodeChoices(items)
        case _ => None
      };
      if id == None || model == None || choices == None then None
      else Some(Chunk(id.value, model.value, j.Member(Key.Usage), choices.value))
  }

  /** `anyText`: a string, or the texts of an array of parts one after the other. */
  function TextOf(v: Json): string {
    match v
    case Str(s) => s
    case Arr(items) => TextsOf(items)
    case _ => ""
  }

  function TextsOf(items: seq<Json>): string {
    if items == [] then ""
    else
      (match items[0]
       case Str(s) => s
       case Obj(_) => (match items[0].MemberOrNull(Key.Text) case Str(s) => s case _ => "")
       case _ => "") + TextsOf(items[1..])
  }

  // ---- merging tool calls ---------------------------------------------------------------------

  datatype ToolCall = ToolCall(id: string, index: Int64, kind: string, name: string, arguments: string)

  function JoinName(old': string, name: string): string {
    if name == "" || name == old' then old' else old' + name
  }

  /** A slot after one more fragment. */
  function Absorb(compact: Json -> string, t: ToolCall, c: RawCall): ToolCall {
    ToolCall(if c.id != "" then c.id else t.id, t.index, if c.kind != "" then c.kind else t.kind,
             JoinName(t.name, c.name), t.arguments + c.Arguments(compact))
  }

  function NewSlot(index: Int64): ToolCall {
    ToolCall("", index, "", "", "")
  }

  /** The place of the slot for a stream index. */
  function SlotOf(list: seq<ToolCall>, index: int): (r: Option<nat>)
    ensures r.Some? ==> r.value < |list| && list[r.value].index == index
    ensures r == None ==> forall i :: 0 <= i < |list| ==> list[i].index != index
  {
    if list == [] then None
    else if list[|list| - 1].index == index then Some(|list| - 1)
    else SlotOf(list[..|list| - 1], index)
  }

  function AddCall(compact: Json -> string, list: seq<ToolCall>, c: RawCall): seq<ToolCall> {
    match SlotOf(list, c.Idx())
    case None => list + [Absorb(compact, NewSlot(c.Idx()), c)]
    case Some(pos) => list[pos := Absorb(compact, list[pos], c)]
  }

  function AddCalls(compact: Json -> string, list: seq<ToolCall>, calls: seq<RawCall>): seq<ToolCall>
    decreases |calls|
  {
    if calls == [] then list
    else AddCall(compact, AddCalls(compact, list, calls[..|calls| - 1]), calls[|calls| - 1])
  }

  ghost predicate DistinctSlots(list: seq<ToolCall>) {
    forall i, j :: 0 <= i < j < |list| ==> list[i].index != list[j].index
  }

  // ---- what merging should produce, said without slots ------------------------------------------

  function Indices(list: seq<ToolCall>): seq<int> {
    seq(|list|, i requires 0 <= i < |list| => list[i].index)
  }

  /** The stream indices in order of first occurrence. */
  function FirstSeen(calls: seq<RawCall>): seq<int>
    decreases |calls|
  {
    if calls == [] then []
    else
      var before, i := FirstSeen(calls[..|calls| - 1]), calls[|calls| - 1].Idx();
      if i in before then before else before + [i]
  }

  /** All argument fragments for one stream index, in stream order. */
  function ArgumentsFor(compact: Json -> string, calls: seq<RawCall>, index: int): string
    decreases |calls|
  {
    if calls == [] then ""
    else
      var c := calls[|calls| - 1];
      ArgumentsFor(compact, calls[..|calls| - 1], index) + (if c.Idx() == index then c.Arguments(compact) else "")
  }

  /** The last non-empty id among the calls with one stream index. */
  function IdFor(calls: seq<RawCall>, index: int): string
    decreases |calls|
  {
    if calls == [] then ""
    else
      var c := calls[|calls| - 1];
      if c.Idx() == index && c.id != "" then c.id else IdFor(calls[..|calls| - 1], index)
  }

  /** The last non-empty type among the calls with one stream index. */
  function KindFor(calls: seq<RawCall>, index: int): string
    decreases |calls|
  {
    if calls == [] then ""
    else
      var c := calls[|calls| - 1];
      if c.Idx() == index && c.kind != "" then c.kind else KindFor(calls[..|calls| - 1], index)
  }

  /** The name fragments joined; a provider that repeats the whole name does not double it. */
  function NameFor(calls: seq<RawCall>, index: int): string
    decreases |calls|
  {
    if calls == [] then ""
    else
      var c := calls[|calls| - 1];
      var before := NameFor(calls[..|calls| - 1], index);
      if c.Idx() == index then JoinName(before, c.name) else before
  }

  ghost predicate SlotIs(compact: Json -> string, calls: seq<RawCall>, t: ToolCall) {
    && t.arguments == ArgumentsFor(compact, calls, t.index)
    && t.id == IdFor(calls, t.index) && t.kind == KindFor(calls, t.index)
    && t.name == NameFor(calls, t.index)
  }

  lemma {:induction false} UnseenIsEmpty(compact: Json -> string, calls: seq<RawCall>, index: Int64)
    requires index !in FirstSeen(calls)
    ensures SlotIs(compact, calls, NewSlot(index))
    decreases |calls|
  {
    if calls != [] {
      UnseenIsEmpty(compact, calls[..|calls| - 1], index);
    }
  }

  lemma IndexInList(list: seq<ToolCall>, index: int)
    ensures index in Indices(list) <==> exists i :: 0 <= i < |list| && list[i].index == index
  {
    if index in Indices(list) {
      var i :| 0 <= i < |list| && Indices(list)[i] == index;
      assert list[i].index == index;
    }
    if exists i :: 0 <= i < |list| && list[i].index == index {
      var i :| 0 <= i < |list| && list[i].index == index;
      assert Indices(list)[i] == index;
    }
  }

  ghost predicate Merged(compact: Json -> string, calls: seq<RawCall>, list: seq<ToolCall>) {
    && Indices(list) == FirstSeen(calls) && DistinctSlots(list)
    && forall i :: 0 <= i < |list| ==> SlotIs(compact, calls, list[i])
  }

  /** A fragment for another index leaves a slot as it is; one for its own index is absorbed. */
  lemma SlotStep(compact: Json -> string, calls: seq<RawCall>, c: RawCall, t: ToolCall)
    requires SlotIs(compact, calls, t)
    ensures SlotIs(compact, calls + [c], if t.index == c.Idx() then Absorb(compact, t, c) else t)
  {
    assert (calls + [c])[..|calls|] == calls;
  }

  lemma FirstSeenStep(calls: seq<RawCall>, c: RawCall)
    ensures FirstSeen(calls + [c]) ==
      if c.Idx() in FirstSeen(calls) then FirstSeen(calls) else FirstSeen(calls) + [c.Idx()]
  {
    assert (calls + [c])[..|calls|] == calls;
  }

  lemma MergedStep(compact: Json -> string, calls: seq<RawCall>, list: seq<ToolCall>, c: RawCall)
    requires Merged(compact, calls, list)
    ensures Merged(compact, calls + [c], AddCall(compact, list, c))
  {
    var list' := AddCall(compact, list, c);
    FirstSeenStep(calls, c);
    IndexInList(list, c.Idx());
    if SlotOf(list, c.Idx()) == None {
      UnseenIsEmpty(compact, calls, c.Idx());
      SlotStep(compact, calls, c, NewSlot(c.Idx()));
      assert Indices(list') == Indices(list) + [c.Idx()];
    } else {
      assert Indices(list') == Indices(list);
    }
    forall i | 0 <= i < |list'|
      ensures SlotIs(compact, calls + [c], list'[i])
    {
      if i < |list| {
        SlotStep(compact, calls, c, list[i]);
      }
    }
  }

  lemma AddCallsLast(compact: Json -> string, list: seq<ToolCall>, calls: seq<RawCall>, c: RawCall, more: seq<RawCall>)
    requires more == calls + [c]
    ensures AddCalls(compact, list, more) == AddCall(compact, AddCalls(compact, list, calls), c)
  {
    assert more[..|calls|] == calls;
  }

  lemma MergedNext(compact: Json -> string, calls: seq<RawCall>, list: seq<ToolCall>, c: RawCall, more: seq<RawCall>)
    requires Merged(compact, calls, list) && list == AddCalls(compact, [], calls) && more == calls + [c]
    ensures Merged(compact, more, AddCall(compact, list, c)) && AddCall(compact, list, c) == AddCalls(compact, [], more)
  {
    MergedStep(compact, calls, list, c);
    AddCallsLast(compact, [], calls, c, more);
  }

  lemma {:induction false} MergedAfter(compact: Json -> string, calls: seq<RawCall>) returns (list: seq<ToolCall>)
    ensures list == AddCalls(compact, [], calls) && Merged(compact, calls, list)
    decreases |calls|
  {
    if calls == [] {
      list := [];
    } else {
      var before, c := calls[..|calls| - 1], calls[|calls| - 1];
      var list0 := MergedAfter(compact, before);
      MergedNext(compact, before, list0, c, calls);
      list := AddCall(compact, list0, c);
    }
  }

  /**
   However calls are interleaved and fragments split: slots appear in order of first occurrence, with
   distinct indices, and each holds the concatenation of its fragments in stream order.
   */
  lemma ToolCallsMerge(compact: Json -> string, calls: seq<RawCall>)
    ensures Merged(compact, calls, AddCalls(compact, [], calls))
  {
    var list := MergedAfter(compact, calls);
  }

  // ---- merging chunks -------------------------------------------------------------------------

  datatype Chat = Chat(
    id: string, model: string, content: string, reasoning: string, calls: seq<ToolCall>,
    finish: string, usage: Option<Json>, found: bool)

  const NoChat := Chat("", "", "", "", [], "", None, false)

  function PartReasoning(p: Part): string {
    TextOf(p.reasoning) + TextOf(p.reasoningContent)
  }

  function MergeFirst(compact: Json -> string, r: Chat, c: Choice): Chat {
    var m, d := c.message, c.delta;
    r.(found := true,
       content := r.content + (TextOf(m.content) + TextOf(d.content)),
       reasoning := r.reasoning + (PartReasoning(m) + PartReasoning(d)),
       calls := AddCalls(compact, r.calls, m.calls + d.calls),
       finish := if c.finish.Some? && c.finish.value != "" then c.finish.value else r.finish)
  }

  /** `mergeChunk`: the first id and model, the last usage and finish, all text and calls of the first choice. */
  function MergeChunk(compact: Json -> string, r: Chat, c: Chunk): Chat {
    var r1 := r.(id := if r.id == "" then c.id else r.id,
                 model := if r.model == "" then c.model else r.model,
                 usage := if c.usage.Some? then c.usage else r.usage);
    if c.choices == [] then r1 else MergeFirst(compact, r1, c.choices[0])
  }

  function MergeValue(compact: Json -> string, r: Chat, j: Json): Chat {
    match DecodeChunk(j)
    case None => r
    case Some(c) => MergeChunk(compact, r, c)
  }

  /** A line of an event stream, with its payload decoded. */
  datatype Line = Data(j: Json) | BadData | DoneMark | Other

  datatype Body = Blank | Plain(j: Json) | Stream(lines: seq<Line>)

  function MergeLines(compact: Json -> string, r: Chat, lines: seq<Line>): Chat
    decreases |lines|
  {
    if lines == [] then r
    else
      var before := MergeLines(compact, r, lines[..|lines| - 1]);
      match lines[|lines| - 1]
      case Data(j) => MergeValue(compact, before, j)
      case _ => before
  }

  function Parse(compact: Json -> string, body: Body): Chat {
    match body
    case Blank => NoChat
    case Plain(j) => MergeValue(compact, NoChat, j)
    case Stream(lines) => MergeLines(compact, NoChat, lines)
  }

  lemma AppendOneMore(compact: Json -> string, list: seq<ToolCall>, a: seq<RawCall>, front: seq<RawCall>, c: RawCall,
                      b: seq<RawCall>)
    requires AddCalls(compact, list, a + front) == AddCalls(compact, AddCalls(compact, list, a), front)
    requires b == front + [c]
    ensures AddCalls(compact, list, a + b) == AddCalls(compact, AddCalls(compact, list, a), b)
  {
    assert a + b == (a + front) + [c];
    AddCallsLast(compact, list, a + front, c, a + b);
    AddCallsLast(compact, AddCalls(compact, list, a), front, c, b);
  }

  lemma {:induction false} AddCallsAppend(compact: Json -> string, list: seq<ToolCall>, a: seq<RawCall>,
                                          b: seq<RawCall>)
    ensures AddCalls(compact, list, a + b) == AddCalls(compact, AddCalls(compact, list, a), b)
    decreases |b|
  {
    if b == [] {
      assert a + b == a;
    } else {
      var front, last := b[..|b| - 1], b[|b| - 1];
      AddCallsAppend(compact, list, a, front);
      AppendOneMore(compact, list, a, front, last, b);
    }
  }

  /** The fragments one line carries: of its first choice, the message's before the delta's. */
  function LineCalls(l: Line): seq<RawCall> {
    if !l.Data? then []
    else
      match DecodeChunk(l.j)
      case None => []
      case Some(c) => if c.choices == [] then [] else c.choices[0].message.calls + c.choices[0].delta.calls
  }

  /** All tool call fragments of a stream, in stream order. */
  function CallsOf(lines: seq<Line>): seq<RawCall>
    decreases |lines|
  {
    if lines == [] then [] else CallsOf(lines[..|lines| - 1]) + LineCalls(lines[|lines| - 1])
  }

  /** The tool calls of a parsed stream are the merge of all its fragments. */
  lemma {:induction false} StreamMergesCalls(compact: Json -> string, lines: seq<Line>)
    ensures MergeLines(compact, NoChat, lines).calls == AddCalls(compact, [], CallsOf(lines))
    decreases |lines|
  {
    if lines != [] {
      var before, l := lines[..|lines| - 1], lines[|lines| - 1];
      StreamMergesCalls(compact, before);
      AddCallsAppend(compact, [], CallsOf(before), LineCalls(l));
    }
  }

  /** The chunk a line carries, an empty one if none. */
  function ChunkOf(l: Line): Chunk {
    if l.Data? && DecodeChunk(l.j).Some? then DecodeChunk(l.j).value else Chunk("", "", None, [])
  }

  /** The first choice of a chunk, an empty one if it has none. */
  function FirstChoice(c: Chunk): Choice {
    if c.choices == [] then Choice(None, NoPart, NoPart) else c.choices[0]
  }

  function ContentOf(lines: seq<Line>): string
    decreases |lines|
  {
    if lines == [] then ""
    else
      var c := FirstChoice(ChunkOf(lines[|lines| - 1]));
      ContentOf(lines[..|lines| - 1]) + (TextOf(c.message.content) + TextOf(c.delta.content))
  }

  function ReasoningOf(lines: seq<Line>): string
    decreases |lines|
  {
    if lines == [] then ""
    else
      var c := FirstChoice(ChunkOf(lines[|lines| - 1]));
      ReasoningOf(lines[..|lines| - 1]) + (PartReasoning(c.message) + PartReasoning(c.delta))
  }

  lemma Alone(s: string)
    ensures "" + (s + "") == s && "" + s == s && s + "" == s
  {
  }

  /** What one chunk adds to an answer, field by field. */
  ghost predicate Adds(r0: Chat, c: Chunk, r: Chat) {
    var first := FirstChoice(c);
    && r.content == r0.content + (TextOf(first.message.content) + TextOf(first.delta.content))
    && r.reasoning == r0.reasoning + (PartReasoning(first.message) + PartReasoning(first.delta))
    && r.id == (if r0.id == "" then c.id else r0.id) && r.model == (if r0.model == "" then c.model else r0.model)
    && r.usage == (if c.usage.Some? then c.usage else r0.usage)
    && r.finish == (if FinishOf(c) == "" then r0.finish else FinishOf(c))
  }

  lemma NothingAdded(r: Chat, c: Chunk)
    requires FirstChoice(c) == Choice(None, NoPart, NoPart)
    ensures Adds(r, c, r.(id := if r.id == "" then c.id else r.id, model := if r.model == "" then c.model else r.model,
                          usage := if c.usage.Some? then c.usage else r.usage))
  {
    Alone(r.content);
    Alone(r.reasoning);
    Alone("");
  }

  lemma ChunkAdds(compact: Json -> string, r0: Chat, c: Chunk)
    ensures Adds(r0, c, MergeChunk(compact, r0, c))
  {
    if c.choices == [] {
      NothingAdded(r0, c);
    }
  }

  /** One more line of a stream. */
  lemma LineMerges(compact: Json -> string, lines: seq<Line>)
    requires lines != []
    ensures Adds(MergeLines(compact, NoChat, lines[..|lines| - 1]), ChunkOf(lines[|lines| - 1]),
                 MergeLines(compact, NoChat, lines))
  {
    var r0, c := MergeLines(compact, NoChat, lines[..|lines| - 1]), ChunkOf(lines[|lines| - 1]);
    ChunkAdds(compact, r0, c);
    assert c == Chunk("", "", None, []) ==> MergeChunk(compact, r0, c) == r0;
  }

  function FinishOf(c: Chunk): string {
    var f := FirstChoice(c).finish;
    if f.Some? then f.value else ""
  }

  /** Content and reasoning of a parsed stream are the texts of its lines, in stream order. */
  lemma {:induction false} StreamKeepsText(compact: Json -> string, lines: seq<Line>)
    ensures MergeLines(compact, NoChat, lines).content == ContentOf(lines)
    ensures MergeLines(compact, NoChat, lines).reasoning == ReasoningOf(lines)
    decreases |lines|
  {
    if lines != [] {
      StreamKeepsText(compact, lines[..|lines| - 1]);
      LineMerges(compact, lines);
    }
  }

  /** `x` is the first of the list that is not `none`, or `none` if all are. */
  ghost predicate FirstOf<T(!new)>(list: seq<T>, none: T, x: T) {
    || (x == none && forall i :: 0 <= i < |list| ==> list[i] == none)
    || (x != none && exists i :: 0 <= i < |list| && list[i] == x && forall j :: 0 <= j < i ==> list[j] == none)
  }

  /** `x` is the last of the list that is not `none`, or `none` if all are. */
  ghost predicate LastOf<T(!new)>(list: seq<T>, none: T, x: T) {
    || (x == none && forall i :: 0 <= i < |list| ==> list[i] == none)
    || (x != none && exists i :: 0 <= i < |list| && list[i] == x && forall j :: i < j < |list| ==> list[j] == none)
  }

  lemma FirstOfMore<T(!new)>(list: seq<T>, none: T, x: T, y: T)
    requires FirstOf(list, none, x)
    ensures FirstOf(list + [y], none, if x == none then y else x)
  {
    var more := list + [y];
    assert forall i :: 0 <= i < |list| ==> more[i] == list[i];
    assert more[|list|] == y;
    if x != none {
      var i :| 0 <= i < |list| && list[i] == x && forall j :: 0 <= j < i ==> list[j] == none;
      assert more[i] == x;
    }
  }

  lemma LastOfMore<T(!new)>(list: seq<T>, none: T, x: T, y: T)
    requires LastOf(list, none, x)
    ensures LastOf(list + [y], none, if y == none then x else y)
  {
    var more := list + [y];
    assert forall i :: 0 <= i < |list| ==> more[i] == list[i];
    assert more[|list|] == y;
    if y == none && x != none {
      var i :| 0 <= i < |list| && list[i] == x && forall j :: i < j < |list| ==> list[j] == none;
      assert more[i] == x;
    }
  }

  function Each<T>(lines: seq<Line>, of: Chunk -> T): seq<T> {
    seq(|lines|, i requires 0 <= i < |lines| => of(ChunkOf(lines[i])))
  }

  lemma EachMore<T>(lines: seq<Line>, of: Chunk -> T)
    requires lines != []
    ensures Each(lines, of) == Each(lines[..|lines| - 1], of) + [of(ChunkOf(lines[|lines| - 1]))]
  {
  }

  function IdOf(c: Chunk): string { c.id }

  function ModelOf(c: Chunk): string { c.model }

  function UsageOf(c: Chunk): Option<Json> { c.usage }

  /** A parsed stream has the first id and model its chunks give, and the last usage and finish reason. */
  lemma {:induction false} StreamKeepsFirstAndLast(compact: Json -> string, lines: seq<Line>)
    ensures var r := MergeLines(compact, NoChat, lines);
      && FirstOf(Each(lines, IdOf), "", r.id) && FirstOf(Each(lines, ModelOf), "", r.model)
      && LastOf(Each(lines, UsageOf), None, r.usage) && LastOf(Each(lines, FinishOf), "", r.finish)
    decreases |lines|
  {
    if lines != [] {
      var before, c := lines[..|lines| - 1], ChunkOf(lines[|lines| - 1]);
      var r0 := MergeLines(compact, NoChat, before);
      StreamKeepsFirstAndLast(compact, before);
      LineMerges(compact, lines);
      EachMore(lines, IdOf);
      EachMore(lines, ModelOf);
      EachMore(lines, UsageOf);
      EachMore(lines, FinishOf);
      FirstOfMore(Each(before, IdOf), "", r0.id, c.id);
      FirstOfMore(Each(before, ModelOf), "", r0.model, c.model);
      LastOfMore(Each(before, UsageOf), None, r0.usage, c.usage);
      LastOfMore(Each(before, FinishOf), "", r0.finish, FinishOf(c));
    }
  }

  /** A later line leaves the usage as it is exactly when its chunk has no such member; a null one overwrites it too. */
  lemma UsageStaysIff(compact: Json -> string, lines: seq<Line>, l: Line)
    ensures var r0, r := MergeLines(compact, NoChat, lines), MergeLines(compact, NoChat, lines + [l]);
      if ChunkOf(l).usage == None then r.usage == r0.usage else r.usage == ChunkOf(l).usage
  {
    assert (lines + [l])[..|lines|] == lines;
    LineMerges(compact, lines + [l]);
  }

  /** Two chunks, the second with a null usage: the first one's usage is lost. */
  lemma NullUsageOverwrites(compact: Json -> string, usage: Json)
    ensures var lines := [Data(Obj(map[Key.Usage := usage])), Data(Obj(map[Key.Usage := Null]))];
      && MergeLines(compact, NoChat, lines[..1]).usage == Some(usage)
      && MergeLines(compact, NoChat, lines).usage == Some(Null)
  {
    var first, second := Data(Obj(map[Key.Usage := usage])), Data(Obj(map[Key.Usage := Null]));
    assert ChunkOf(first) == Chunk("", "", Some(usage), []) && ChunkOf(second) == Chunk("", "", Some(Null), []);
    UsageStaysIff(compact, [], first);
    UsageStaysIff(compact, [first], second);
    assert [] + [first] == [first] == [first, second][..1] && [first] + [second] == [first, second];
  }

  lemma ParseDistinct(compact: Json -> string, body: Body)
    ensures DistinctSlots(Parse(compact, body).calls)
  {
    match body
    case Blank =>
    case Plain(j) =>
      assert [Data(j)][..0] == [];
      assert MergeLines(compact, NoChat, [Data(j)]) == MergeValue(compact, MergeLines(compact, NoChat, []), j);
      StreamMergesCalls(compact, [Data(j)]);
      ToolCallsMerge(compact, CallsOf([Data(j)]));
    case Stream(lines) =>
      StreamMergesCalls(compact, lines);
      ToolCallsMerge(compact, CallsOf(lines));
  }
}
