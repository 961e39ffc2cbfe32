/** The two printers of a parsed answer, for one JSON answer and for a re-streamed one, and their round trips. */
module ChatPrint {
  import opened Wrappers
  import opened Json
  import opened ChatModel

  // ---- printing -------------------------------------------------------------------------------

  /** Sets a member, unless there is nothing to set. */
  function Put(fields: map<Key, Json>, k: Key, v: Option<Json>): map<Key, Json> {
    match v
    case None => fields
    case Some(j) => fields[k := j]
  }

  function PutStr(fields: map<Key, Json>, k: Key, s: string): map<Key, Json> {
    if s == "" then fields else fields[k := Str(s)]
  }

  function PrintCall(t: ToolCall): Json {
    var function' := Obj(map[Key.Name := Str(t.name), Key.Arguments := Str(t.arguments)]);
    Obj(PutStr(PutStr(map[Key.Index := Int(t.index), Key.Function := function'], Key.Id, t.id), Key.Type, t.kind))
  }

  function PrintCalls(list: seq<ToolCall>): seq<Json> {
    seq(|list|, i requires 0 <= i < |list| => PrintCall(list[i]))
  }

  function PrintPart(content: string, reasoning: string, list: seq<ToolCall>): Json {
    Obj(Put(PutStr(map[Key.Role := Str("assistant"), Key.Content := Str(content)], Key.Reasoning, reasoning),
            Key.ToolCalls, if list == [] then None else Some(Arr(PrintCalls(list)))))
  }

  function PrintChoice(r: Chat): Json {
    Obj(PutStr(map[Key.Index := Int(0), Key.Message := PrintPart(r.content, r.reasoning, r.calls)],
               Key.FinishReason, r.finish))
  }

  /** `CollapseChat`'s answer object. */
  function Print(r: Chat): Json {
    var fields := map[Key.Object := Str("chat.completion"), Key.Choices := Arr([PrintChoice(r)])];
    Obj(Put(PutStr(PutStr(fields, Key.Id, r.id), Key.Model, r.model), Key.Usage, r.usage))
  }

  /** Bodies that hold no completion pass through. */
  function Collapse(compact: Json -> string, body: Body): Body {
    var r := Parse(compact, body);
    if r.found then Plain(Print(r)) else body
  }

  function RawOf(t: ToolCall): RawCall {
    RawCall(t.id, Some(t.index), t.kind, t.name, Some(Str(t.arguments)))
  }

  function RawsOf(list: seq<ToolCall>): seq<RawCall> {
    seq(|list|, i requires 0 <= i < |list| => RawOf(list[i]))
  }

  lemma CallDecodes(t: ToolCall)
    ensures DecodeCall(PrintCall(t)) == Some(RawOf(t))
  {
    var j := PrintCall(t);
    assert DecodeString(j.Member(Key.Id)) == Some(t.id) && DecodeString(j.Member(Key.Type)) == Some(t.kind);
  }

  lemma {:induction false} CallsDecodeEach(items: seq<Json>, raws: seq<RawCall>)
    requires |items| == |raws| && forall i :: 0 <= i < |items| ==> DecodeCall(items[i]) == Some(raws[i])
    ensures DecodeCalls(items) == Some(raws)
    decreases |items|
  {
    if items != [] {
      CallsDecodeEach(items[1..], raws[1..]);
      assert raws == [raws[0]] + raws[1..];
    }
  }

  lemma CallsDecode(list: seq<ToolCall>)
    ensures DecodeCalls(PrintCalls(list)) == Some(RawsOf(list))
  {
    forall i | 0 <= i < |list|
      ensures DecodeCall(PrintCalls(list)[i]) == Some(RawsOf(list)[i])
    {
      CallDecodes(list[i]);
    }
    CallsDecodeEach(PrintCalls(list), RawsOf(list));
  }

  lemma WholeCall(compact: Json -> string, t: ToolCall)
    ensures Absorb(compact, NewSlot(t.index), RawOf(t)) == t
  {
  }

  lemma NoSlot(list: seq<ToolCall>, index: int)
    requires forall i :: 0 <= i < |list| ==> list[i].index != index
    ensures SlotOf(list, index) == None
  {
  }

  lemma NewCallStays(compact: Json -> string, list: seq<ToolCall>, t: ToolCall)
    requires forall i :: 0 <= i < |list| ==> list[i].index != t.index
    ensures AddCall(compact, list, RawOf(t)) == list + [t]
  {
    NoSlot(list, t.index);
    WholeCall(compact, t);
  }

  lemma OneMergesBack(compact: Json -> string, list: seq<ToolCall>, t: ToolCall, more: seq<ToolCall>)
    requires AddCalls(compact, [], RawsOf(list)) == list && forall i :: 0 <= i < |list| ==> list[i].index != t.index
    requires more == list + [t]
    ensures AddCalls(compact, [], RawsOf(more)) == more
  {
    assert RawsOf(more) == RawsOf(list) + [RawOf(t)];
    AddCallsLast(compact, [], RawsOf(list), RawOf(t), RawsOf(more));
    NewCallStays(compact, list, t);
  }

  /** Whole calls with distinct indices come back as they are. */
  lemma {:induction false} CallsMergeBack(compact: Json -> string, list: seq<ToolCall>)
    requires DistinctSlots(list)
    ensures AddCalls(compact, [], RawsOf(list)) == list
    decreases |list|
  {
    if list != [] {
      var front, t := list[..|list| - 1], list[|list| - 1];
      CallsMergeBack(compact, front);
      OneMergesBack(compact, front, t, list);
    }
  }

  lemma PartDecodes(content: string, reasoning: string, list: seq<ToolCall>)
    ensures DecodePart(PrintPart(content, reasoning, list)) ==
      Some(PartOf(content, reasoning, list))
  {
    CallsDecode(list);
    var j := PrintPart(content, reasoning, list);
    assert j.MemberOrNull(Key.ToolCalls) == if list == [] then Null else Arr(PrintCalls(list));
    assert j.MemberOrNull(Key.Reasoning) == if reasoning == "" then Null else Str(reasoning);
    assert list == [] ==> RawsOf(list) == [];
  }

  lemma OneChoice(choice: Json, c: Choice)
    requires DecodeChoice(choice) == Some(c)
    ensures DecodeChoices([choice]) == Some([c])
  {
    assert [choice][1..] == [] && DecodeChoices([]) == Some([]);
    assert [c] + [] == [c];
  }

  /** The part a printed text, reasoning and calls decode to. */
  function PartOf(content: string, reasoning: string, list: seq<ToolCall>): Part {
    Part(Str(content), if reasoning == "" then Null else Str(reasoning), Null, RawsOf(list))
  }

  function ChoiceOf(r: Chat): Choice {
    Choice(if r.finish == "" then None else Some(r.finish), PartOf(r.content, r.reasoning, r.calls), NoPart)
  }

  lemma PrintedChoiceDecodes(r: Chat)
    ensures DecodeChoice(PrintChoice(r)) == Some(ChoiceOf(r))
  {
    PartDecodes(r.content, r.reasoning, r.calls);
    var choice := PrintChoice(r);
    assert choice.MemberOrNull(Key.Message) == PrintPart(r.content, r.reasoning, r.calls);
    assert choice.MemberOrNull(Key.Delta) == Null;
  }

  lemma PrintMembers(r: Chat)
    ensures var j := Print(r);
      && j.MemberOrNull(Key.Choices) == Arr([PrintChoice(r)]) && j.Member(Key.Usage) == r.usage
      && DecodeString(j.Member(Key.Id)) == Some(r.id) && DecodeString(j.Member(Key.Model)) == Some(r.model)
  {
  }

  lemma PrintDecodes(r: Chat)
    ensures DecodeChunk(Print(r)) == Some(Chunk(r.id, r.model, r.usage, [ChoiceOf(r)]))
  {
    PrintedChoiceDecodes(r);
    OneChoice(PrintChoice(r), ChoiceOf(r));
    PrintMembers(r);
  }

  /** A part on its own merges into an empty answer as it is. */
  lemma PartMerges(compact: Json -> string, content: string, reasoning: string, list: seq<ToolCall>)
    requires DistinctSlots(list)
    ensures var p := PartOf(content, reasoning, list);
      && "" + (TextOf(p.content) + "") == content && "" + ("" + TextOf(p.content)) == content
      && "" + (PartReasoning(p) + "") == reasoning && "" + ("" + PartReasoning(p)) == reasoning
      && AddCalls(compact, [], p.calls + []) == list && AddCalls(compact, [], [] + p.calls) == list
  {
    CallsMergeBack(compact, list);
    var raws := RawsOf(list);
    assert raws + [] == raws && [] + raws == raws;
    Alone(content);
    Alone(reasoning);
  }

  lemma ChoiceMerges(compact: Json -> string, r: Chat, r0: Chat)
    requires r.found && DistinctSlots(r.calls) && r0 == NoChat.(id := r.id, model := r.model, usage := r.usage)
    ensures MergeFirst(compact, r0, ChoiceOf(r)) == r
  {
    PartMerges(compact, r.content, r.reasoning, r.calls);
    assert PartReasoning(NoPart) == "";
  }

  /** Printing a completion and parsing it again gives everything back. */
  lemma PrintParses(compact: Json -> string, r: Chat)
    requires r.found && DistinctSlots(r.calls)
    ensures Parse(compact, Plain(Print(r))) == r
  {
    var c := Chunk(r.id, r.model, r.usage, [ChoiceOf(r)]);
    PrintDecodes(r);
    assert Parse(compact, Plain(Print(r))) == MergeChunk(compact, NoChat, c);
    ChoiceMerges(compact, r, NoChat.(id := r.id, model := r.model, usage := r.usage));
  }

  /** For every recognised body, collapsing loses nothing the parser sees, and collapsing twice is collapsing once. */
  lemma CollapseRoundTrip(compact: Json -> string, body: Body)
    ensures Parse(compact, Collapse(compact, body)) == Parse(compact, body)
    ensures Collapse(compact, Collapse(compact, body)) == Collapse(compact, body)
  {
    var r := Parse(compact, body);
    if r.found {
      ParseDistinct(compact, body);
      PrintParses(compact, r);
    }
  }

  // ---- re-streaming -----------------------------------------------------------------------------

  /** What the re-streamed answer should say: text or a tool call always, and a finish reason. */
  function Promoted(r: Chat): Chat {
    var bare := r.content == "" && r.calls == [];
    r.(id := if r.id == "" then "chatcmpl-hub" else r.id,
       content := if bare then r.reasoning else r.content,
       reasoning := if bare then "" else r.reasoning,
       finish := if r.finish == "" then "stop" else r.finish,
       found := true)
  }

  function EmitChunk(r: Chat, created: int, choice: Json, usage: Option<Json>): Json {
    var fields := map[Key.Object := Str("chat.completion.chunk"), Key.Created := Int(created),
                      Key.Choices := Arr([choice]),
                      Key.Id := Str(if r.id == "" then "chatcmpl-hub" else r.id)];
    Obj(Put(PutStr(fields, Key.Model, r.model), Key.Usage, usage))
  }

  function DeltaChoice(delta: Json, finish: Json): Json {
    Obj(map[Key.Index := Int(0), Key.Delta := delta, Key.FinishReason := finish])
  }

  /** The lines `forwardHub` writes for a caller that asked for a stream. */
  function Restream(r: Chat, created: int): seq<Line> {
    var bare := r.content == "" && r.calls == [];
    var delta := PrintPart(if bare then r.reasoning else r.content, if bare then "" else r.reasoning, r.calls);
    var finish := if r.finish == "" then "stop" else r.finish;
    [Data(EmitChunk(r, created, DeltaChoice(delta, Null), None)), Other,
     Data(EmitChunk(r, created, DeltaChoice(Obj(map[]), Str(finish)), r.usage)), Other,
     DoneMark, Other]
  }

  lemma EmittedDecodes(r: Chat, created: int, delta: Json, finish: Json, usage: Option<Json>)
    requires DecodePart(delta).Some? && DecodeFinish(Some(finish)).Some?
    ensures DecodeChunk(EmitChunk(r, created, DeltaChoice(delta, finish), usage)) ==
      Some(Chunk(Promoted(r).id, r.model, usage,
                 [Choice(DecodeFinish(Some(finish)).value, NoPart, DecodePart(delta).value)]))
  {
    var choice := DeltaChoice(delta, finish);
    assert choice.MemberOrNull(Key.Message) == Null && choice.MemberOrNull(Key.Delta) == delta;
    OneChoice(choice, Choice(DecodeFinish(Some(finish)).value, NoPart, DecodePart(delta).value));
    var j := EmitChunk(r, created, choice, usage);
    assert j.MemberOrNull(Key.Choices) == Arr([choice]) && j.Member(Key.Usage) == usage;
    assert DecodeString(j.Member(Key.Id)) == Some(Promoted(r).id) && DecodeString(j.Member(Key.Model)) == Some(r.model);
  }

  /** Lines without data change nothing. */
  lemma MergeLinesLast(compact: Json -> string, r: Chat, lines: seq<Line>, l: Line)
    ensures MergeLines(compact, r, lines + [l]) ==
      if l.Data? then MergeValue(compact, MergeLines(compact, r, lines), l.j) else MergeLines(compact, r, lines)
  {
    assert (lines + [l])[..|lines|] == lines;
  }

  lemma SixLines(compact: Json -> string, a: Json, b: Json)
    ensures MergeLines(compact, NoChat, [Data(a), Other, Data(b), Other, DoneMark, Other])
         == MergeValue(compact, MergeValue(compact, NoChat, a), b)
  {
    var l := [Data(a), Other, Data(b), Other, DoneMark, Other];
    MergeLinesLast(compact, NoChat, [], l[0]);
    MergeLinesLast(compact, NoChat, l[..1], l[1]);
    MergeLinesLast(compact, NoChat, l[..2], l[2]);
    MergeLinesLast(compact, NoChat, l[..3], l[3]);
    MergeLinesLast(compact, NoChat, l[..4], l[4]);
    MergeLinesLast(compact, NoChat, l[..5], l[5]);
    assert l[..1] == [] + [l[0]] && l[..2] == l[..1] + [l[1]] && l[..3] == l[..2] + [l[2]];
    assert l[..4] == l[..3] + [l[3]] && l[..5] == l[..4] + [l[4]] && l == l[..5] + [l[5]];
  }

  lemma FirstEmitted(compact: Json -> string, r: Chat, created: int)
    requires DistinctSlots(r.calls)
    ensures var p := Promoted(r);
      var choice := DeltaChoice(PrintPart(p.content, p.reasoning, r.calls), Null);
      MergeValue(compact, NoChat, EmitChunk(r, created, choice, None)) == p.(finish := "", usage := None)
  {
    var p := Promoted(r);
    PartDecodes(p.content, p.reasoning, r.calls);
    EmittedDecodes(r, created, PrintPart(p.content, p.reasoning, r.calls), Null, None);
    PartMerges(compact, p.content, p.reasoning, r.calls);
    assert PartReasoning(NoPart) == "";
  }

  lemma LastEmitted(compact: Json -> string, r: Chat, created: int, before: Chat)
    requires before == Promoted(r).(finish := "", usage := None)
    ensures var choice := DeltaChoice(Obj(map[]), Str(Promoted(r).finish));
      MergeValue(compact, before, EmitChunk(r, created, choice, r.usage)) == Promoted(r)
  {
    var p := Promoted(r);
    assert DecodePart(Obj(map[])) == Some(NoPart);
    EmittedDecodes(r, created, Obj(map[]), Str(p.finish), r.usage);
    Alone(before.content);
    Alone(before.reasoning);
    assert AddCalls(compact, before.calls, [] + []) == before.calls;
  }

  /** Parsing the re-streamed lines gives the answer back, its reasoning promoted when there is nothing else. */
  lemma RestreamRoundTrip(compact: Json -> string, r: Chat, created: int)
    requires DistinctSlots(r.calls)
    ensures Parse(compact, Stream(Restream(r, created))) == Promoted(r)
  {
    var l := Restream(r, created);
    SixLines(compact, l[0].j, l[2].j);
    FirstEmitted(compact, r, created);
    LastEmitted(compact, r, created, MergeValue(compact, NoChat, l[0].j));
  }
}
