/** The guard as it runs: loops over policies and messages, and a decoded document changed in place. */
module GuardDocument {
  import opened Wrappers
  import opened Json
  import opened Text
  import opened GuardModel
  import opened GuardApply

  method DedupPolicies(ps: seq<Policy>) returns (out: seq<Policy>)
    ensures out == Dedup(ps)
  {
    var seen: set<int> := {};
    out := [];
    for i := 0 to |ps|
      invariant out == Dedup(ps[..i])
      invariant forall id :: id in seen <==> id != 0 && HasId(ps[..i], id)
    {
      var p := ps[i];
      ghost var upTo := ps[..i + 1];
      assert upTo[..|upTo| - 1] == ps[..i] && upTo == ps[..i] + [p];
      HasIdAfter(ps, i);
      if p.id != 0 && p.id in seen {
        continue;
      }
      if p.id != 0 {
        seen := seen + {p.id};
      }
      if !p.enabled {
        continue;
      }
      out := out + [p];
    }
    assert ps[..|ps|] == ps;
  }

  lemma HasIdAfter(ps: seq<Policy>, i: nat)
    requires i < |ps|
    ensures forall id :: HasId(ps[..i + 1], id) <==> HasId(ps[..i], id) || id == ps[i].id
  {
    forall id
      ensures HasId(ps[..i + 1], id) <==> HasId(ps[..i], id) || id == ps[i].id
    {
      assert ps[..i + 1] == ps[..i] + [ps[i]];
      HasIdSplit(ps[..i], [ps[i]], id);
      assert [ps[i]][0] == ps[i];
    }
  }

  method JoinPrompts(ps: seq<Policy>) returns (prompt: string)
    ensures prompt == JoinSystem(ps)
  {
    var parts: seq<string> := [];
    var seen: set<string> := {};
    for i := 0 to |ps|
      invariant parts == Prompts(ps[..i])
      invariant forall s :: s in seen <==> s in parts
    {
      ghost var upTo := ps[..i + 1];
      assert upTo[..|upTo| - 1] == ps[..i];
      if !ps[i].kind.SystemPrompt? || !Applies(ps[i], Pre) {
        continue;
      }
      var s := TrimSpace(ps[i].prompt);
      if s == "" || s in seen {
        continue;
      }
      seen := seen + {s};
      parts := parts + [s];
    }
    assert ps[..|ps|] == ps;
    prompt := JoinWith(parts, "\n\n");
  }

  /** Goes through a list and rewrites its items where they stand; `changed` says whether any differs. */
  method RewriteItems(v: string -> Verdict, level: Level, items: seq<Json>)
    returns (out: seq<Json>, block: Option<string>, changed: bool)
    ensures match RewriteAll(v, level, items)
      case Blocked(why) => block == Some(why)
      case Passed(w) => block == None && out == w && (changed <==> w != items)
  {
    out, block, changed := items, None, false;
    for i := 0 to |items|
      invariant |out| == |items| && forall j :: i <= j < |items| ==> out[j] == items[j]
      invariant RewriteAll(v, level, items[..i]) == Passed(out[..i])
      invariant changed <==> out != items
    {
      var item := out[i];
      RewriteNext(v, level, items, i, out);
      match RewriteOne(v, level, item)
      case Blocked(why) =>
        BlockedStays(v, level, items, i + 1);
        block := Some(why);
        return;
      case Passed(next) =>
        if next != item {
          out := out[i := next];
          changed := true;
          assert out[i] != items[i];
        }
    }
    assert items[..|items|] == items && out[..|items|] == out;
  }

  /** One item further. */
  lemma RewriteNext(v: string -> Verdict, level: Level, items: seq<Json>, i: nat, out: seq<Json>)
    requires i < |items| == |out| && RewriteAll(v, level, items[..i]) == Passed(out[..i]) && out[i] == items[i]
    ensures match RewriteOne(v, level, items[i])
      case Blocked(why) => RewriteAll(v, level, items[..i + 1]) == Blocked(why)
      case Passed(next) => RewriteAll(v, level, items[..i + 1]) == Passed(out[i := next][..i + 1])
    ensures out[i := items[i]] == out
  {
    var upTo := items[..i + 1];
    assert upTo[..|upTo| - 1] == items[..i] && upTo[i] == items[i];
    match RewriteOne(v, level, items[i])
    case Blocked(why) =>
    case Passed(next) => assert out[i := next][..i + 1] == out[..i] + [next];
  }

  /** A list is blocked where its first blocked item is. */
  lemma {:induction false} BlockedStays(v: string -> Verdict, level: Level, items: seq<Json>, n: nat)
    requires n <= |items| && RewriteAll(v, level, items[..n]).Blocked?
    ensures RewriteAll(v, level, items) == RewriteAll(v, level, items[..n])
    decreases |items|
  {
    if n < |items| {
      var front := items[..|items| - 1];
      assert front[..n] == items[..n];
      BlockedStays(v, level, front, n);
    } else {
      assert items[..n] == items;
    }
  }

  lemma RewriteKeepsRest(v: string -> Verdict, doc: Json)
    requires doc.Obj?
    ensures WalkRequest(v, doc).Passed? ==>
      var d := WalkRequest(v, doc).value;
      && d.Obj?
      && (forall k :: k != Key.Messages && k != Key.Prompt ==> d.Member(k) == doc.Member(k))
    ensures PhaseChoices(v, doc).Passed? ==>
      var d := PhaseChoices(v, doc).value;
      && d.Obj?
      && (forall k :: k != Key.Choices && k != Key.Message ==> d.Member(k) == doc.Member(k))
  {
  }

  /** The decoded body. */
  class Document {
    var raw: map<Key, Json>

    constructor (fields: map<Key, Json>)
      ensures raw == fields
    {
      raw := fields;
    }

    function Value(): Json
      reads this
    {
      Obj(raw)
    }

    method InjectSystem(rules: Rules, prompt: string)
      modifies this
      ensures Value() == Inject(rules, old(Value()), prompt)
    {
      var msgs := MessagesOf(Obj(raw));
      if |msgs| > 0 && msgs[0].Obj? {
        var m := msgs[0].fields;
        var role := msgs[0].MemberOrNull(Key.Role);
        if role.Str? && rules.isSystem(role.s) {
          var c := msgs[0].MemberOrNull(Key.Content);
          if c.Str? {
            m := m[Key.Content := Str(prompt + "\n\n" + c.s)];
          } else if c.Arr? {
            var part := Obj(map[Key.Type := Str("text"), Key.Text := Str(prompt)]);
            m := m[Key.Content := Arr([part] + c.items)];
          } else {
            m := m[Key.Content := Str(prompt + "\n\n")];
          }
          raw := raw[Key.Messages := Arr(msgs[0 := Obj(m)])];
          return;
        }
      }
      var sys := Obj(map[Key.Role := Str("system"), Key.Content := Str(prompt)]);
      raw := raw[Key.Messages := Arr([sys] + msgs)];
    }

    /** A list member; when nothing in it changes it is left as it is. */
    method RewriteListMember(v: string -> Verdict, level: Level, k: Key) returns (block: Option<string>, changed: bool)
      modifies this
      ensures match RewriteList(v, level, old(Value()), k)
        case Blocked(why) => block == Some(why)
        case Passed(d) => block == None && Value() == d && (changed <==> d != old(Value()))
    {
      block, changed := None, false;
      var list := Obj(raw).MemberOrNull(k);
      if list.Arr? {
        SameMember(Obj(raw), k);
        var out, blk, ch := RewriteItems(v, level, list.items);
        if blk.Some? {
          return blk, false;
        }
        if ch {
          raw := raw[k := Arr(out)];
          changed := true;
          assert raw[k] != old(raw)[k];
        }
      }
    }

    method RewriteRequest(v: string -> Verdict) returns (block: Option<string>, changed: bool)
      modifies this
      ensures match WalkRequest(v, old(Value()))
        case Blocked(why) => block == Some(why)
        case Passed(d) => block == None && Value() == d && (changed <==> d != old(Value()))
    {
      block, changed := RewriteListMember(v, MessageList, Key.Messages);
      if block.Some? {
        return;
      }
      var prompt := Obj(raw).MemberOrNull(Key.Prompt);
      if prompt.Str? {
        SameMember(Obj(raw), Key.Prompt);
        match v(prompt.s)
        case Reject(why) =>
          return Some(why), false;
        case Pass(next) =>
          if next != prompt.s {
            raw := raw[Key.Prompt := Str(next)];
            changed := true;
            assert raw[Key.Prompt] != old(raw)[Key.Prompt];
          }
      }
    }

    method RewriteAnswer(v: string -> Verdict) returns (block: Option<string>, changed: bool)
      modifies this
      ensures match PhaseChoices(v, old(Value()))
        case Blocked(why) => block == Some(why)
        case Passed(d) => block == None && Value() == d && (changed <==> d != old(Value()))
    {
      block, changed := RewriteListMember(v, ChoiceList, Key.Choices);
      if block.Some? {
        return;
      }
      var message := Obj(raw).MemberOrNull(Key.Message);
      if message.Obj? {
        SameMember(Obj(raw), Key.Message);
        match RewriteMessage(v, message)
        case Blocked(why) =>
          return Some(why), false;
        case Passed(next) =>
          if next != message {
            raw := raw[Key.Message := next];
            changed := true;
            assert raw[Key.Message] != old(raw)[Key.Message];
          }
      }
    }

    method WalkInPlace(v: string -> Verdict) returns (block: Option<string>, changed: bool)
      modifies this
      ensures match Walk(v, old(Value()))
        case Blocked(why) => block == Some(why)
        case Passed(d) => block == None && Value() == d && (changed <==> d != old(Value()))
    {
      RewriteKeepsRest(v, Value());
      block, changed := RewriteRequest(v);
      if block.Some? {
        return;
      }
      RewriteKeepsRest(v, Value());
      ghost var middle := Value();
      var blk, ch := RewriteAnswer(v);
      if blk.Some? {
        return blk, false;
      }
      DisjointChanges(old(Value()), middle, Value());
      changed := changed || ch;
    }
  }

  /** Changes of different members do not undo each other. */
  lemma DisjointChanges(a: Json, b: Json, c: Json)
    requires a.Obj? && b.Obj? && c.Obj?
    requires forall k :: k != Key.Messages && k != Key.Prompt ==> b.Member(k) == a.Member(k)
    requires forall k :: k != Key.Choices && k != Key.Message ==> c.Member(k) == b.Member(k)
    ensures c != a <==> b != a || c != b
  {
    if c == a && b != a {
      assert forall k :: b.Member(k) == a.Member(k);
      SameMembers(a, b);
    }
  }

  lemma SameMembers(a: Json, b: Json)
    requires a.Obj? && b.Obj? && forall k :: b.Member(k) == a.Member(k)
    ensures a == b
  {
    forall k
      ensures k in a.fields <==> k in b.fields
      ensures k in a.fields && k in b.fields ==> a.fields[k] == b.fields[k]
    {
      assert b.Member(k) == a.Member(k);
    }
    assert a.fields == b.fields;
  }

  /** The policies one after the other, over the document in place. */
  method FilterAll(rules: Rules, policies: seq<Policy>, phase: Phase, raw: Document, before: bool)
    returns (block: Option<Block>, changed: bool)
    modifies raw
    ensures match Filtered(rules, policies, phase, old(raw.Value()), before)
      case Stopped(b) => block == Some(b)
      case Through(doc, ch) => block == None && raw.Value() == doc && changed == ch
  {
    block, changed := None, before;
    ghost var result := Filtered(rules, policies, phase, raw.Value(), changed);
    assert policies[0..] == policies;
    for i := 0 to |policies|
      invariant result == Filtered(rules, policies[i..], phase, raw.Value(), changed)
    {
      assert policies[i..][0] == policies[i] && policies[i..][1..] == policies[i + 1..];
      if Filters(policies[i], phase) {
        var blocked, ch := raw.WalkInPlace(Judge(rules, policies[i]));
        if blocked.Some? {
          return Some(Block(policies[i].name, policies[i].kind, blocked.value)), changed;
        }
        changed := changed || ch;
      }
    }
  }

  /** `Apply` as it runs. */
  method ApplyGuard(rules: Rules, body: Body, listed: seq<Policy>, phase: Phase) returns (r: Result)
    ensures r == Apply(rules, body, listed, phase)
  {
    var policies := DedupPolicies(listed);
    var need := false;
    for i := 0 to |policies|
      invariant !need && forall j :: 0 <= j < i ==> !Applies(policies[j], phase)
    {
      if Applies(policies[i], phase) {
        need := true;
        break;
      }
    }
    if !need || !Decodes(body) {
      return Result(body, None, false);
    }
    var raw := new Document(body.j.fields);
    var changed := false;
    if phase == Pre {
      var prompt := JoinPrompts(policies);
      if prompt != "" {
        raw.InjectSystem(rules, prompt);
        changed := true;
      }
    }
    var block;
    block, changed := FilterAll(rules, policies, phase, raw, changed);
    if block.Some? {
      return Result(body, block, false);
    }
    if !changed {
      return Result(body, None, false);
    }
    r := Result(Doc(raw.Value()), None, true);
  }
}
