/** The parser as the object it is: fields that each chunk of an answer is merged into. */
module ChatResults {
  import opened Wrappers
  import opened Json
  import opened ChatModel

  class ChatResult {
    var id: string
    var model: string
    var content: string
    var reasoning: string
    var toolCalls: seq<ToolCall>
    var finishReason: string
    var usage: Option<Json>
    var found: bool
    var callPos: Option<map<int, nat>>

    constructor ()
      ensures Value() == NoChat && Valid()
    {
      id, model, content, reasoning, toolCalls, finishReason := "", "", "", "", [], "";
      usage, found, callPos := None, false, None;
    }

    ghost function Value(): Chat
      reads this
    {
      Chat(id, model, content, reasoning, toolCalls, finishReason, usage, found)
    }

    /** `callPos`, once made, is an exact and injective index into `toolCalls`. */
    ghost predicate Valid()
      reads this
    {
      DistinctSlots(toolCalls) && (callPos.Some? ==> Exact(callPos.value, toolCalls))
    }

    method MergeIndexInit()
      requires Valid()
      modifies this`callPos
      ensures Valid() && callPos.Some?
    {
      if callPos.Some? {
        return;
      }
      var pos: map<int, nat> := map[];
      for i := 0 to |toolCalls|
        invariant Exact(pos, toolCalls[..i])
      {
        assert toolCalls[..i + 1] == toolCalls[..i] + [toolCalls[i]];
        pos := pos[toolCalls[i].index := i];
      }
      assert toolCalls[..|toolCalls|] == toolCalls;
      callPos := Some(pos);
    }

    /** The loop body of `mergeCalls`. */
    method MergeCall(compact: Json -> string, c: RawCall)
      requires Valid() && callPos.Some?
      modifies this`callPos, this`toolCalls
      ensures Valid() && callPos.Some?
      ensures toolCalls == AddCall(compact, old(toolCalls), c)
    {
      var pos: nat;
      if c.Idx() in callPos.value {
        pos := callPos.value[c.Idx()];
      } else {
        pos := |toolCalls|;
        callPos := Some(callPos.value[c.Idx() := pos]);
        toolCalls := toolCalls + [NewSlot(c.Idx())];
      }
      ghost var slots := toolCalls;
      toolCalls := toolCalls[pos := Absorb(compact, toolCalls[pos], c)];
      SlotByIndex(compact, old(toolCalls), c, pos, toolCalls);
      SameIndices(slots, toolCalls, callPos.value);
    }

    method MergeCalls(compact: Json -> string, calls: seq<RawCall>)
      requires Valid()
      modifies this`callPos, this`toolCalls
      ensures Valid() && callPos.Some?
      ensures toolCalls == AddCalls(compact, old(toolCalls), calls)
    {
      MergeIndexInit();
      for i := 0 to |calls|
        invariant callPos.Some? && Valid()
        invariant toolCalls == AddCalls(compact, old(toolCalls), calls[..i])
      {
        assert calls[..i + 1][..i] == calls[..i];
        MergeCall(compact, calls[i]);
      }
      assert calls[..|calls|] == calls;
    }

    /** The part of `mergeChunk` about the first choice. */
    method MergeChoice(compact: Json -> string, c: Choice)
      requires Valid()
      modifies this
      ensures Valid()
      ensures Value() == MergeFirst(compact, old(Value()), c)
    {
      found := true;
      var m, d := c.message, c.delta;
      content := content + (TextOf(m.content) + TextOf(d.content));
      reasoning := reasoning + (PartReasoning(m) + PartReasoning(d));
      AddCallsAppend(compact, toolCalls, m.calls, d.calls);
      MergeCalls(compact, m.calls);
      MergeCalls(compact, d.calls);
      if c.finish.Some? && c.finish.value != "" {
        finishReason := c.finish.value;
      }
    }

    method MergeRaw(compact: Json -> string, raw: Json)
      requires Valid()
      modifies this
      ensures Valid() && Value() == MergeValue(compact, old(Value()), raw)
    {
      var j := DecodeChunk(raw);
      if j == None {
        return;
      }
      var c := j.value;
      if c.id != "" && id == "" {
        id := c.id;
      }
      if c.model != "" && model == "" {
        model := c.model;
      }
      if c.usage.Some? {
        usage := c.usage;
      }
      if |c.choices| == 0 {
        return;
      }
      MergeChoice(compact, c.choices[0]);
    }
  }

  ghost predicate Exact(pos: map<int, nat>, list: seq<ToolCall>) {
    && (forall k :: k in pos ==> pos[k] < |list| && list[pos[k]].index == k)
    && (forall i :: 0 <= i < |list| ==> list[i].index in pos && pos[list[i].index] == i)
  }

  /** Changing what slots hold, but not their indices, keeps the index exact. */
  lemma SameIndices(a: seq<ToolCall>, b: seq<ToolCall>, pos: map<int, nat>)
    requires |a| == |b| && (forall i :: 0 <= i < |a| ==> a[i].index == b[i].index)
    requires Exact(pos, a)
    ensures Exact(pos, b) && DistinctSlots(b)
  {
  }

  /** With distinct slots, updating the indexed slot, or a new last one, is `AddCall`. */
  lemma SlotByIndex(compact: Json -> string, list: seq<ToolCall>, c: RawCall, pos: nat, list': seq<ToolCall>)
    requires DistinctSlots(list)
    requires if pos < |list| then list[pos].index == c.Idx() && list' == list[pos := Absorb(compact, list[pos], c)]
             else pos == |list| && (forall i :: 0 <= i < |list| ==> list[i].index != c.Idx())
                  && list' == list + [Absorb(compact, NewSlot(c.Idx()), c)]
    ensures list' == AddCall(compact, list, c)
  {
  }

  /** `ParseChat`. */
  method ParseChat(compact: Json -> string, body: Body) returns (r: ChatResult)
    ensures fresh(r) && r.Valid() && r.Value() == Parse(compact, body)
  {
    r := new ChatResult();
    match body
    case Blank =>
    case Plain(j) =>
      r.MergeRaw(compact, j);
    case Stream(lines) =>
      for i := 0 to |lines|
        invariant fresh(r) && r.Valid() && r.Value() == MergeLines(compact, NoChat, lines[..i])
      {
        assert lines[..i + 1][..i] == lines[..i];
        if lines[i].Data? {
          r.MergeRaw(compact, lines[i].j);
        }
      }
      assert lines[..|lines|] == lines;
  }
}
