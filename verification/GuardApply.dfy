/** The guard's decision over a whole list of policies, and what it does to the document. */
module GuardApply {
  import opened Wrappers
  import opened Json
  import opened Text
  import opened GuardModel

  // ---- the system prompt ------------------------------------------------------------------------

  /** The prompts of the system-prompt policies, trimmed, each once. */
  function Prompts(ps: seq<Policy>): seq<string>
    decreases |ps|
  {
    if ps == [] then []
    else
      var before, p := Prompts(ps[..|ps| - 1]), ps[|ps| - 1];
      var s := TrimSpace(p.prompt);
      if !p.kind.SystemPrompt? || !Applies(p, Pre) || s == "" || s in before then before else before + [s]
  }

  function JoinWith(parts: seq<string>, sep: string): string {
    if parts == [] then "" else if |parts| == 1 then parts[0] else parts[0] + sep + JoinWith(parts[1..], sep)
  }

  function JoinSystem(ps: seq<Policy>): string {
    JoinWith(Prompts(ps), "\n\n")
  }

  function PromptedContent(c: Json, prompt: string): Json {
    match c
    case Str(s) => Str(prompt + "\n\n" + s)
    case Arr(items) => Arr([Obj(map[Key.Type := Str("text"), Key.Text := Str(prompt)])] + items)
    case _ => Str(prompt + "\n\n")
  }

  function MessagesOf(doc: Json): seq<Json> {
    if doc.MemberOrNull(Key.Messages).Arr? then doc.MemberOrNull(Key.Messages).items else []
  }

  predicate StartsWithSystem(rules: Rules, msgs: seq<Json>) {
    && |msgs| > 0 && msgs[0].Obj? && msgs[0].MemberOrNull(Key.Role).Str?
    && rules.isSystem(msgs[0].MemberOrNull(Key.Role).s)
  }

  /** `injectSystem`: into the leading system message, or as a new one in front. */
  function Inject(rules: Rules, doc: Json, prompt: string): Json
    requires doc.Obj?
  {
    var msgs := MessagesOf(doc);
    if StartsWithSystem(rules, msgs) then
      var m := msgs[0];
      var m' := Obj(m.fields[Key.Content := PromptedContent(m.MemberOrNull(Key.Content), prompt)]);
      Obj(doc.fields[Key.Messages := Arr(msgs[0 := m'])])
    else
      var sys := Obj(map[Key.Role := Str("system"), Key.Content := Str(prompt)]);
      Obj(doc.fields[Key.Messages := Arr([sys] + msgs)])
  }

  /** The prompt comes first; no text is lost, moved or changed but the one it is put in front of. */
  ghost predicate Prefixed(before: seq<string>, after: seq<string>, prompt: string) {
    || after == [prompt] + before
    || after == [prompt + "\n\n"] + before
    || (before != [] && after == [prompt + "\n\n" + before[0]] + before[1..])
  }

  lemma {:induction false} AllLeavesAppend(level: Level, a: seq<Json>, b: seq<Json>)
    ensures AllLeaves(level, a + b) == AllLeaves(level, a) + AllLeaves(level, b)
    decreases |b|
  {
    if b == [] {
      assert a + b == a;
    } else {
      var front, last := b[..|b| - 1], b[|b| - 1];
      AllLeavesAppend(level, a, front);
      assert (a + b)[..|a + b| - 1] == a + front;
      assert AllLeaves(level, a + b) == AllLeaves(level, a + front) + OneLeaves(level, last);
    }
  }

  lemma OneItemLeaves(level: Level, item: Json)
    ensures AllLeaves(level, [item]) == OneLeaves(level, item)
  {
    assert [item][..0] == [];
    assert AllLeaves(level, [item]) == [] + OneLeaves(level, item);
  }

  lemma PrefixedMore(before: seq<string>, after: seq<string>, rest: seq<string>, prompt: string)
    requires Prefixed(before, after, prompt)
    ensures Prefixed(before + rest, after + rest, prompt)
  {
    if after == [prompt] + before {
      assert after + rest == [prompt] + (before + rest);
    } else if after == [prompt + "\n\n"] + before {
      assert after + rest == [prompt + "\n\n"] + (before + rest);
    } else {
      assert (before + rest)[0] == before[0] && (before + rest)[1..] == before[1..] + rest;
      assert after + rest == [prompt + "\n\n" + before[0]] + (before[1..] + rest);
    }
  }

  lemma ContentPrefixed(c: Json, prompt: string)
    ensures Prefixed(ContentLeaves(c), ContentLeaves(PromptedContent(c, prompt)), prompt)
  {
    match c
    case Str(s) =>
      assert [s][1..] == [] && [prompt + "\n\n" + s] == [prompt + "\n\n" + s] + [];
    case Arr(items) =>
      var part := Obj(map[Key.Type := Str("text"), Key.Text := Str(prompt)]);
      AllLeavesAppend(PartList, [part], items);
      OneItemLeaves(PartList, part);
    case _ =>
      assert [prompt + "\n\n"] == [prompt + "\n\n"] + [];
  }

  lemma FirstMessageLeaves(msgs: seq<Json>)
    requires msgs != []
    ensures AllLeaves(MessageList, msgs) == MessageLeaves(msgs[0]) + AllLeaves(MessageList, msgs[1..])
  {
    assert msgs == [msgs[0]] + msgs[1..];
    AllLeavesAppend(MessageList, [msgs[0]], msgs[1..]);
    OneItemLeaves(MessageList, msgs[0]);
  }

  /** Injecting a prompt puts it in front of the text leaves and changes nothing else. */
  lemma InjectPutsPromptFirst(rules: Rules, doc: Json, prompt: string)
    requires doc.Obj?
    ensures Prefixed(Leaves(doc), Leaves(Inject(rules, doc, prompt)), prompt)
    ensures OnlyMember(doc, Inject(rules, doc, prompt), Key.Messages)
  {
    var msgs, doc' := MessagesOf(doc), Inject(rules, doc, prompt);
    var msgs' := MessagesOf(doc');
    FirstMessageLeaves(msgs');
    if StartsWithSystem(rules, msgs) {
      FirstMessageLeaves(msgs);
      ContentPrefixed(msgs[0].MemberOrNull(Key.Content), prompt);
      assert msgs'[1..] == msgs[1..];
      PrefixedMore(MessageLeaves(msgs[0]), MessageLeaves(msgs'[0]), AllLeaves(MessageList, msgs[1..]), prompt);
    } else {
      assert msgs'[1..] == msgs;
      assert Prefixed(AllLeaves(MessageList, msgs), AllLeaves(MessageList, msgs'), prompt);
    }
    OtherMembers(doc, doc', Key.Messages);
    var l := ListLeaves(MessageList, doc, Key.Messages);
    var l' := ListLeaves(MessageList, doc', Key.Messages);
    assert l == AllLeaves(MessageList, msgs);
    PrefixedMore(l, l', TextLeaves(doc, Key.Prompt), prompt);
    PrefixedMore(l + TextLeaves(doc, Key.Prompt), l' + TextLeaves(doc, Key.Prompt), AnswerLeaves(doc), prompt);
  }

  // ---- applying the policies --------------------------------------------------------------------

  datatype Block = Block(policy: string, kind: Kind, why: string)

  function Judge(rules: Rules, p: Policy): string -> Verdict {
    s => rules.judge(p, s)
  }

  datatype Outcome = Stopped(block: Block) | Through(doc: Json, changed: bool)

  /** The policies one after the other; the first that rejects a text ends it. */
  function Filtered(rules: Rules, ps: seq<Policy>, phase: Phase, doc: Json, changed: bool): Outcome
    decreases |ps|
  {
    if ps == [] then Through(doc, changed)
    else if !Filters(ps[0], phase) then Filtered(rules, ps[1..], phase, doc, changed)
    else
      match Walk(Judge(rules, ps[0]), doc)
      case Blocked(why) => Stopped(Block(ps[0].name, ps[0].kind, why))
      case Passed(d) => Filtered(rules, ps[1..], phase, d, changed || d != doc)
  }

  /** A request or answer body: text that is no JSON object, or a decoded object. */
  datatype Body = Raw(text: string) | Doc(j: Json)

  predicate Decodes(b: Body) {
    b.Doc? && b.j.Obj?
  }

  datatype Result = Result(body: Body, block: Option<Block>, changed: bool)

  predicate Needed(ps: seq<Policy>, phase: Phase) {
    exists i :: 0 <= i < |ps| && Applies(ps[i], phase)
  }

  function PromptFor(ps: seq<Policy>, phase: Phase): string {
    if phase == Pre then JoinSystem(ps) else ""
  }

  function Prompted(rules: Rules, ps: seq<Policy>, phase: Phase, doc: Json): Json
    requires doc.Obj?
  {
    var prompt := PromptFor(ps, phase);
    if prompt != "" then Inject(rules, doc, prompt) else doc
  }

  /** `Apply`. */
  ghost function Apply(rules: Rules, body: Body, policies: seq<Policy>, phase: Phase): Result {
    var ps := Dedup(policies);
    if !Needed(ps, phase) || !Decodes(body) then Result(body, None, false)
    else
      match Filtered(rules, ps, phase, Prompted(rules, ps, phase, body.j), PromptFor(ps, phase) != "")
      case Stopped(block) => Result(body, Some(block), false)
      case Through(doc, changed) => if changed then Result(Doc(doc), None, true) else Result(body, None, false)
  }

  // ---- what it decides ----------------------------------------------------------------------------

  /** No policy of the list that looks at texts in this phase changes one: it passes it or rejects it. */
  ghost predicate BlockOnly(rules: Rules, ps: seq<Policy>, phase: Phase) {
    forall p, s :: p in ps && Filters(p, phase) ==> rules.judge(p, s) == Pass(s) || rules.judge(p, s).Reject?
  }

  /** The first applicable policy, in order, that rejects a text, and its reason for the first such text. */
  function FirstBlock(rules: Rules, ps: seq<Policy>, phase: Phase, leaves: seq<string>): Option<Block>
    decreases |ps|
  {
    if ps == [] then None
    else if Filters(ps[0], phase) && FirstReject(Judge(rules, ps[0]), leaves).Some? then
      Some(Block(ps[0].name, ps[0].kind, FirstReject(Judge(rules, ps[0]), leaves).value))
    else FirstBlock(rules, ps[1..], phase, leaves)
  }

  ghost predicate SomeLeafRejected(rules: Rules, ps: seq<Policy>, phase: Phase, leaves: seq<string>) {
    exists p, i :: p in ps && Filters(p, phase) && 0 <= i < |leaves| && rules.judge(p, leaves[i]).Reject?
  }

  lemma {:induction false} FirstBlockIff(rules: Rules, ps: seq<Policy>, phase: Phase, leaves: seq<string>)
    ensures FirstBlock(rules, ps, phase, leaves).Some? <==> SomeLeafRejected(rules, ps, phase, leaves)
    decreases |ps|
  {
    if ps != [] {
      FirstRejectIff(Judge(rules, ps[0]), leaves);
      FirstBlockIff(rules, ps[1..], phase, leaves);
      assert forall p :: p in ps <==> p == ps[0] || p in ps[1..];
    }
  }

  /** A policy that only blocks leaves a document as it is, or rejects its first offending text. */
  lemma BlockOnlyWalk(v: string -> Verdict, doc: Json)
    requires forall s :: v(s) == Pass(s) || v(s).Reject?
    ensures Walk(v, doc) ==
      match FirstReject(v, Leaves(doc))
      case Some(why) => Blocked(why)
      case None => Passed(doc)
  {
    var leaves := Leaves(doc);
    WalkLeafwise(v, doc);
    FirstRejectIff(v, leaves);
    if FirstReject(v, leaves) == None {
      assert forall i :: 0 <= i < |leaves| ==> v(leaves[i]) == Pass(leaves[i]);
    }
  }

  lemma {:induction false} FilteredBlockOnly(rules: Rules, ps: seq<Policy>, phase: Phase, doc: Json, changed: bool)
    requires BlockOnly(rules, ps, phase)
    ensures Filtered(rules, ps, phase, doc, changed) ==
      match FirstBlock(rules, ps, phase, Leaves(doc))
      case Some(block) => Stopped(block)
      case None => Through(doc, changed)
    decreases |ps|
  {
    if ps != [] {
      assert ps[0] in ps && forall p :: p in ps[1..] ==> p in ps;
      FilteredBlockOnly(rules, ps[1..], phase, doc, changed);
      if Filters(ps[0], phase) {
        BlockOnlyWalk(Judge(rules, ps[0]), doc);
      }
    }
  }

  lemma {:induction false} PromptNeedsPolicy(ps: seq<Policy>)
    requires Prompts(ps) != []
    ensures Needed(ps, Pre)
    decreases |ps|
  {
    var before := ps[..|ps| - 1];
    if Prompts(before) != [] {
      PromptNeedsPolicy(before);
      var i :| 0 <= i < |before| && Applies(before[i], Pre);
      assert Applies(ps[i], Pre);
    } else {
      assert Applies(ps[|ps| - 1], Pre);
    }
  }

  lemma {:induction false} NotNeededNoBlock(rules: Rules, ps: seq<Policy>, phase: Phase, leaves: seq<string>)
    requires !Needed(ps, phase)
    ensures !SomeLeafRejected(rules, ps, phase, leaves) && PromptFor(ps, phase) == ""
  {
    if Prompts(ps) != [] && phase == Pre {
      PromptNeedsPolicy(ps);
    }
    assert forall p :: p in ps ==> !Filters(p, phase) by {
      assert forall i :: 0 <= i < |ps| ==> !Applies(ps[i], phase);
    }
  }

  /**
   With policies that only block: the body is blocked if and only if some text leaf of the prompted
   document is rejected by some applicable policy, by the first such policy; a blocked body is returned as
   it came, any other as exactly the prompted document.
   */
  lemma GuardDecision(rules: Rules, body: Body, policies: seq<Policy>, phase: Phase)
    requires Decodes(body) && BlockOnly(rules, Dedup(policies), phase)
    ensures var r, ps := Apply(rules, body, policies, phase), Dedup(policies);
      var doc := Prompted(rules, ps, phase, body.j);
      && (r.block.Some? <==> SomeLeafRejected(rules, ps, phase, Leaves(doc)))
      && r.block == FirstBlock(rules, ps, phase, Leaves(doc))
      && r.body == (if r.block.Some? then body else Doc(doc))
      && (r.changed <==> r.block == None && PromptFor(ps, phase) != "")
  {
    var ps := Dedup(policies);
    var doc := Prompted(rules, ps, phase, body.j);
    FirstBlockIff(rules, ps, phase, Leaves(doc));
    if Needed(ps, phase) {
      FilteredBlockOnly(rules, ps, phase, doc, PromptFor(ps, phase) != "");
    } else {
      NotNeededNoBlock(rules, ps, phase, Leaves(doc));
    }
  }

  /** A repeated policy id changes nothing, wherever the repetition stands. */
  lemma DuplicatePolicyIds(rules: Rules, body: Body, a: seq<Policy>, p: Policy, b: seq<Policy>, phase: Phase)
    requires p.id != 0 && HasId(a, p.id)
    ensures Apply(rules, body, a + [p] + b, phase) == Apply(rules, body, a + b, phase)
  {
    DuplicateIsIgnored(a, p, b);
  }

  /** The texts after all policies: each leaf rewritten by every applicable policy in turn. */
  function MapAll(rules: Rules, ps: seq<Policy>, phase: Phase, leaves: seq<string>): seq<string>
    decreases |ps|
  {
    if ps == [] then leaves
    else MapAll(rules, ps[1..], phase, if Filters(ps[0], phase) then MapText(Judge(rules, ps[0]), leaves) else leaves)
  }

  /** With masking policies too, what passes has exactly the masked texts for leaves. */
  lemma {:induction false} MaskedLeaves(rules: Rules, ps: seq<Policy>, phase: Phase, doc: Json, changed: bool)
    requires Filtered(rules, ps, phase, doc, changed).Through?
    ensures Leaves(Filtered(rules, ps, phase, doc, changed).doc) == MapAll(rules, ps, phase, Leaves(doc))
    decreases |ps|
  {
    if ps != [] {
      if Filters(ps[0], phase) {
        WalkLeafwise(Judge(rules, ps[0]), doc);
        var d := Walk(Judge(rules, ps[0]), doc).value;
        MaskedLeaves(rules, ps[1..], phase, d, changed || d != doc);
      } else {
        MaskedLeaves(rules, ps[1..], phase, doc, changed);
      }
    }
  }
}
