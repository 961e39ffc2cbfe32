/**
 The guard: deduplicated policies, an optional system prompt put in front, and a walk over the text
 leaves of a request or an answer. What a policy makes of a text is a parameter.
 */
module GuardModel {
  import opened Wrappers
  import opened Json
  import opened Text

  datatype Kind = SystemPrompt | Filter(name: string)
  datatype Mode = PreMode | PostMode | BothMode
  datatype Phase = Pre | Post

  datatype Policy = Policy(id: int, name: string, kind: Kind, mode: Mode, enabled: bool, prompt: string)

  /** What a policy makes of one text: the text to go on with, or a rejection. */
  datatype Verdict = Pass(text: string) | Reject(why: string)

  datatype Rules = Rules(judge: (Policy, string) -> Verdict, isSystem: string -> bool)

  // ---- policies ---------------------------------------------------------------------------------

  ghost predicate HasId(ps: seq<Policy>, id: int) {
    exists i :: 0 <= i < |ps| && ps[i].id == id
  }

  /** Of policies with one non-zero id the first decides; disabled ones are left out. */
  ghost function Dedup(ps: seq<Policy>): seq<Policy>
    decreases |ps|
  {
    if ps == [] then []
    else
      var before, p := ps[..|ps| - 1], ps[|ps| - 1];
      if !p.enabled || (p.id != 0 && HasId(before, p.id)) then Dedup(before) else Dedup(before) + [p]
  }

  lemma HasIdSplit(a: seq<Policy>, b: seq<Policy>, id: int)
    ensures HasId(a + b, id) <==> HasId(a, id) || HasId(b, id)
  {
    var c := a + b;
    if HasId(a, id) {
      var i :| 0 <= i < |a| && a[i].id == id;
      assert c[i].id == id;
    }
    if HasId(b, id) {
      var i :| 0 <= i < |b| && b[i].id == id;
      assert c[|a| + i].id == id;
    }
  }

  /** A policy whose id occurred before changes nothing, wherever it stands. */
  lemma {:induction false} DuplicateIsIgnored(a: seq<Policy>, p: Policy, b: seq<Policy>)
    requires p.id != 0 && HasId(a, p.id)
    ensures Dedup(a + [p] + b) == Dedup(a + b)
    decreases |b|
  {
    var with, without := a + [p] + b, a + b;
    if b == [] {
      assert with == a + [p] && without == a;
      assert with[..|with| - 1] == a;
    } else {
      var b', q := b[..|b| - 1], b[|b| - 1];
      DuplicateIsIgnored(a, p, b');
      assert with[..|with| - 1] == a + [p] + b' && without[..|without| - 1] == a + b';
      HasIdSplit(a + [p], b', q.id);
      HasIdSplit(a, [p], q.id);
      HasIdSplit(a, b', q.id);
      assert HasId([p], q.id) <==> q.id == p.id by {
        assert [p][0].id == p.id;
      }
    }
  }

  /** What is kept is enabled and comes from the list. */
  lemma {:induction false} DedupMembers(ps: seq<Policy>, p: Policy)
    ensures p in Dedup(ps) <==>
      exists i :: 0 <= i < |ps| && ps[i] == p && p.enabled && (p.id == 0 || !HasId(ps[..i], p.id))
    decreases |ps|
  {
    if ps != [] {
      var before, q := ps[..|ps| - 1], ps[|ps| - 1];
      DedupMembers(before, p);
      if p in Dedup(before) {
        var i :| 0 <= i < |before| && before[i] == p && p.enabled && (p.id == 0 || !HasId(before[..i], p.id));
        assert ps[..i] == before[..i] && ps[i] == p;
      }
      if exists i :: 0 <= i < |ps| && ps[i] == p && p.enabled && (p.id == 0 || !HasId(ps[..i], p.id)) {
        var i :| 0 <= i < |ps| && ps[i] == p && p.enabled && (p.id == 0 || !HasId(ps[..i], p.id));
        if i < |before| {
          assert ps[..i] == before[..i] && before[i] == p;
        }
      }
      if p == q && p in Dedup(ps) && p !in Dedup(before) {
        assert ps[|before|] == p && ps[..|before|] == before;
      }
    }
  }

  predicate Applies(p: Policy, phase: Phase) {
    if p.kind.SystemPrompt? then phase == Pre
    else
      match p.mode
      case BothMode => true
      case PostMode => phase == Post
      case PreMode => phase == Pre
  }

  /** A policy that looks at texts in this phase. */
  predicate Filters(p: Policy, phase: Phase) {
    Applies(p, phase) && !p.kind.SystemPrompt?
  }

  // ---- the walk -----------------------------------------------------------------------------------

  datatype Walked<T> = Passed(value: T) | Blocked(why: string)

  /** The three kinds of list the walk goes through. */
  datatype Level = PartList | MessageList | ChoiceList {
    function Rank(): nat {
      match this
      case PartList => 0
      case MessageList => 3
      case ChoiceList => 5
    }
  }

  /** A text member of an object, if it is a string. */
  function RewriteText(v: string -> Verdict, item: Json, k: Key): Walked<Json> {
    if item.MemberOrNull(k).Str? then
      match v(item.MemberOrNull(k).s)
      case Reject(why) => Blocked(why)
      case Pass(s) => Passed(Obj(item.fields[k := Str(s)]))
    else Passed(item)
  }

  /** `rewriteContent`. */
  function RewriteContent(v: string -> Verdict, c: Json): Walked<Json>
    decreases 1
  {
    match c
    case Str(s) => (match v(s)
                    case Reject(why) => Blocked(why)
                    case Pass(t) => Passed(Str(t)))
    case Arr(items) => (match RewriteAll(v, PartList, items)
                        case Blocked(why) => Blocked(why)
                        case Passed(items') => Passed(Arr(items')))
    case _ => Passed(c)
  }

  /** The content member of a message. */
  function RewriteMessage(v: string -> Verdict, m: Json): Walked<Json>
    decreases 2
  {
    if !m.Obj? then Passed(m)
    else
      match RewriteContent(v, m.MemberOrNull(Key.Content))
      case Blocked(why) => Blocked(why)
      case Passed(next) => Passed(if next == m.MemberOrNull(Key.Content) then m else Obj(m.fields[Key.Content := next]))
  }

  /** The message of a choice, then its text. */
  function RewriteChoice(v: string -> Verdict, c: Json): Walked<Json>
    decreases 4
  {
    if !c.Obj? then Passed(c)
    else if c.MemberOrNull(Key.Message).Obj? then
      match RewriteMessage(v, c.MemberOrNull(Key.Message))
      case Blocked(why) => Blocked(why)
      case Passed(m) => RewriteText(v, Obj(c.fields[Key.Message := m]), Key.Text)
    else RewriteText(v, c, Key.Text)
  }

  function RewriteOne(v: string -> Verdict, level: Level, item: Json): Walked<Json>
    decreases level.Rank(), 0
  {
    match level
    case PartList => RewriteText(v, item, Key.Text)
    case MessageList => RewriteMessage(v, item)
    case ChoiceList => RewriteChoice(v, item)
  }

  function RewriteAll(v: string -> Verdict, level: Level, items: seq<Json>): Walked<seq<Json>>
    decreases level.Rank(), 1, |items|
  {
    if items == [] then Passed([])
    else
      match RewriteAll(v, level, items[..|items| - 1])
      case Blocked(why) => Blocked(why)
      case Passed(done) =>
        match RewriteOne(v, level, items[|items| - 1])
        case Blocked(why) => Blocked(why)
        case Passed(item) => Passed(done + [item])
  }

  /** A list member of the document, if it is an array. */
  function RewriteList(v: string -> Verdict, level: Level, doc: Json, k: Key): Walked<Json> {
    if doc.MemberOrNull(k).Arr? then
      match RewriteAll(v, level, doc.MemberOrNull(k).items)
      case Blocked(why) => Blocked(why)
      case Passed(items) => Passed(Obj(doc.fields[k := Arr(items)]))
    else Passed(doc)
  }

  /** An object member of the document that is itself a message. */
  function RewriteTop(v: string -> Verdict, doc: Json): Walked<Json> {
    if doc.MemberOrNull(Key.Message).Obj? then
      match RewriteMessage(v, doc.MemberOrNull(Key.Message))
      case Blocked(why) => Blocked(why)
      case Passed(m) => Passed(Obj(doc.fields[Key.Message := m]))
    else Passed(doc)
  }

  /** The part of `walk` about a request: messages, then prompt. */
  function WalkRequest(v: string -> Verdict, doc: Json): Walked<Json> {
    match RewriteList(v, MessageList, doc, Key.Messages)
    case Blocked(why) => Blocked(why)
    case Passed(d) => RewriteText(v, d, Key.Prompt)
  }

  /** `phaseChoices`: choices, then message. */
  function PhaseChoices(v: string -> Verdict, doc: Json): Walked<Json> {
    match RewriteList(v, ChoiceList, doc, Key.Choices)
    case Blocked(why) => Blocked(why)
    case Passed(d) => RewriteTop(v, d)
  }

  function Walk(v: string -> Verdict, doc: Json): Walked<Json> {
    match WalkRequest(v, doc)
    case Blocked(why) => Blocked(why)
    case Passed(d) => PhaseChoices(v, d)
  }

  // ---- the text leaves ----------------------------------------------------------------------------

  function TextLeaves(item: Json, k: Key): seq<string> {
    if item.MemberOrNull(k).Str? then [item.MemberOrNull(k).s] else []
  }

  function ContentLeaves(c: Json): seq<string>
    decreases 1
  {
    match c
    case Str(s) => [s]
    case Arr(items) => AllLeaves(PartList, items)
    case _ => []
  }

  function MessageLeaves(m: Json): seq<string>
    decreases 2
  {
    ContentLeaves(m.MemberOrNull(Key.Content))
  }

  function ChoiceLeaves(c: Json): seq<string>
    decreases 4
  {
    MessageLeaves(c.MemberOrNull(Key.Message)) + TextLeaves(c, Key.Text)
  }

  function OneLeaves(level: Level, item: Json): seq<string>
    decreases level.Rank(), 0
  {
    match level
    case PartList => TextLeaves(item, Key.Text)
    case MessageList => MessageLeaves(item)
    case ChoiceList => ChoiceLeaves(item)
  }

  function AllLeaves(level: Level, items: seq<Json>): seq<string>
    decreases level.Rank(), 1, |items|
  {
    if items == [] then []
    else AllLeaves(level, items[..|items| - 1]) + OneLeaves(level, items[|items| - 1])
  }

  function ListLeaves(level: Level, doc: Json, k: Key): seq<string> {
    if doc.MemberOrNull(k).Arr? then AllLeaves(level, doc.MemberOrNull(k).items) else []
  }

  function RequestLeaves(doc: Json): seq<string> {
    ListLeaves(MessageList, doc, Key.Messages) + TextLeaves(doc, Key.Prompt)
  }

  function AnswerLeaves(doc: Json): seq<string> {
    ListLeaves(ChoiceList, doc, Key.Choices) + MessageLeaves(doc.MemberOrNull(Key.Message))
  }

  /** Every text the walk looks at, in the order in which it does. */
  function Leaves(doc: Json): seq<string> {
    RequestLeaves(doc) + AnswerLeaves(doc)
  }

  /** The reason of the first rejected text. */
  function FirstReject(v: string -> Verdict, leaves: seq<string>): Option<string> {
    if leaves == [] then None
    else
      match v(leaves[0])
      case Reject(why) => Some(why)
      case Pass(_) => FirstReject(v, leaves[1..])
  }

  function TextAfter(v: string -> Verdict, s: string): string {
    match v(s)
    case Pass(t) => t
    case Reject(_) => s
  }

  function MapText(v: string -> Verdict, leaves: seq<string>): seq<string> {
    seq(|leaves|, i requires 0 <= i < |leaves| => TextAfter(v, leaves[i]))
  }

  /** The judge lets every one of these texts through unchanged. */
  ghost predicate Harmless(v: string -> Verdict, leaves: seq<string>) {
    forall i :: 0 <= i < |leaves| ==> v(leaves[i]) == Pass(leaves[i])
  }

  lemma {:induction false} FirstRejectAppend(v: string -> Verdict, a: seq<string>, b: seq<string>)
    ensures FirstReject(v, a + b) == if FirstReject(v, a).Some? then FirstReject(v, a) else FirstReject(v, b)
    decreases |a|
  {
    if a == [] {
      assert a + b == b;
    } else {
      FirstRejectAppend(v, a[1..], b);
      assert (a + b)[1..] == a[1..] + b;
    }
  }

  lemma {:induction false} FirstRejectIff(v: string -> Verdict, leaves: seq<string>)
    ensures FirstReject(v, leaves).Some? <==> exists i :: 0 <= i < |leaves| && v(leaves[i]).Reject?
    decreases |leaves|
  {
    if leaves != [] {
      FirstRejectIff(v, leaves[1..]);
      if v(leaves[0]).Reject? {
        assert 0 < |leaves|;
      } else if FirstReject(v, leaves).Some? {
        var i :| 0 <= i < |leaves| - 1 && v(leaves[1..][i]).Reject?;
        assert leaves[i + 1] == leaves[1..][i];
      }
      assert forall i :: 1 <= i < |leaves| ==> leaves[i] == leaves[1..][i - 1];
    }
  }

  /**
   A rewrite is leafwise: it is blocked, with the reason of the first rejected leaf, exactly when some
   leaf is rejected; otherwise it replaces each leaf by its new text.
   */
  ghost predicate Leafwise<T>(v: string -> Verdict, leaves: seq<string>, w: Walked<T>, after: seq<string>) {
    match w
    case Blocked(why) => FirstReject(v, leaves) == Some(why)
    case Passed(_) => FirstReject(v, leaves) == None && after == MapText(v, leaves)
  }

  lemma MapTextAppend(v: string -> Verdict, a: seq<string>, b: seq<string>)
    ensures MapText(v, a + b) == MapText(v, a) + MapText(v, b)
    ensures Harmless(v, a + b) <==> Harmless(v, a) && Harmless(v, b)
  {
    var c := a + b;
    assert forall i :: 0 <= i < |a| ==> c[i] == a[i];
    assert forall i :: 0 <= i < |b| ==> c[|a| + i] == b[i];
  }

  /** A member keeps its object as it is when it is set to what it was. */
  lemma SameMember(item: Json, k: Key)
    requires item.Obj? && k in item.fields
    ensures Obj(item.fields[k := item.fields[k]]) == item
  {
    assert item.fields[k := item.fields[k]] == item.fields;
  }

  ghost predicate OnlyMember(a: Json, b: Json, k: Key) {
    a == b || (a.Obj? && b.Obj? && forall k' :: k' != k ==> a.MemberOrNull(k') == b.MemberOrNull(k'))
  }

  lemma TextLeafwise(v: string -> Verdict, item: Json, k: Key)
    ensures var w := RewriteText(v, item, k);
      && Leafwise(v, TextLeaves(item, k), w, if w.Passed? then TextLeaves(w.value, k) else [])
      && (Harmless(v, TextLeaves(item, k)) ==> w == Passed(item))
      && (w.Passed? ==> OnlyMember(item, w.value, k))
  {
    if item.MemberOrNull(k).Str? {
      SameMember(item, k);
      var s := item.MemberOrNull(k).s;
      assert TextLeaves(item, k)[0] == s;
      assert FirstReject(v, [s]) == (match v(s) case Reject(why) => Some(why) case Pass(_) => FirstReject(v, []));
    }
  }

  lemma {:induction false} ContentLeafwise(v: string -> Verdict, c: Json)
    ensures var w := RewriteContent(v, c);
      && Leafwise(v, ContentLeaves(c), w, if w.Passed? then ContentLeaves(w.value) else [])
      && (Harmless(v, ContentLeaves(c)) ==> w == Passed(c))
    decreases 1
  {
    match c
    case Str(s) =>
      assert ContentLeaves(c)[0] == s;
      assert FirstReject(v, [s]) == (match v(s) case Reject(why) => Some(why) case Pass(_) => FirstReject(v, []));
    case Arr(items) => AllLeafwise(v, PartList, items);
    case _ =>
  }

  lemma {:induction false} MessageLeafwise(v: string -> Verdict, m: Json)
    ensures var w := RewriteMessage(v, m);
      && Leafwise(v, MessageLeaves(m), w, if w.Passed? then MessageLeaves(w.value) else [])
      && (Harmless(v, MessageLeaves(m)) ==> w == Passed(m))
      && (w.Passed? ==> OnlyMember(m, w.value, Key.Content))
    decreases 2
  {
    ContentLeafwise(v, m.MemberOrNull(Key.Content));
  }

  /** Two rewrites one after the other, over leaves that do not overlap. */
  lemma Leafwise2<T, U>(v: string -> Verdict, a: seq<string>, b: seq<string>, w1: Walked<T>, w2: Walked<U>,
                        a': seq<string>, b': seq<string>)
    requires Leafwise(v, a, w1, a') && (w1.Passed? ==> Leafwise(v, b, w2, b'))
    requires w1.Blocked? ==> w2.Blocked? && w2.why == w1.why
    ensures Leafwise(v, a + b, w2, a' + b')
  {
    FirstRejectAppend(v, a, b);
    MapTextAppend(v, a, b);
  }

  lemma {:induction false} ChoiceLeafwise(v: string -> Verdict, c: Json)
    ensures var w := RewriteChoice(v, c);
      && Leafwise(v, ChoiceLeaves(c), w, if w.Passed? then ChoiceLeaves(w.value) else [])
      && (Harmless(v, ChoiceLeaves(c)) ==> w == Passed(c))
    decreases 4
  {
    var m := c.MemberOrNull(Key.Message);
    MessageLeafwise(v, m);
    var w1 := RewriteMessage(v, m);
    MapTextAppend(v, MessageLeaves(m), TextLeaves(c, Key.Text));
    if m.Obj? && w1.Passed? {
      var c1 := Obj(c.fields[Key.Message := w1.value]);
      TextLeafwise(v, c1, Key.Text);
      var w2 := RewriteText(v, c1, Key.Text);
      Leafwise2(v, MessageLeaves(m), TextLeaves(c, Key.Text), w1, w2, MessageLeaves(w1.value),
          if w2.Passed? then TextLeaves(w2.value, Key.Text) else []);
      SameMember(c, Key.Message);
      assert w1.value.Obj?;
    } else if m.Obj? {
      FirstRejectAppend(v, MessageLeaves(m), TextLeaves(c, Key.Text));
    } else {
      TextLeafwise(v, c, Key.Text);
      assert MessageLeaves(m) == [];
      assert [] + TextLeaves(c, Key.Text) == TextLeaves(c, Key.Text);
      var w2 := RewriteText(v, c, Key.Text);
      if w2.Passed? {
        assert w2.value.MemberOrNull(Key.Message) == m;
        assert [] + TextLeaves(w2.value, Key.Text) == TextLeaves(w2.value, Key.Text);
      }
    }
  }

  lemma {:induction false} OneLeafwise(v: string -> Verdict, level: Level, item: Json)
    ensures var w := RewriteOne(v, level, item);
      && Leafwise(v, OneLeaves(level, item), w, if w.Passed? then OneLeaves(level, w.value) else [])
      && (Harmless(v, OneLeaves(level, item)) ==> w == Passed(item))
    decreases level.Rank(), 0
  {
    match level
    case PartList => TextLeafwise(v, item, Key.Text);
    case MessageList => MessageLeafwise(v, item);
    case ChoiceList => ChoiceLeafwise(v, item);
  }

  lemma {:induction false} AllLeafwise(v: string -> Verdict, level: Level, items: seq<Json>)
    ensures var w := RewriteAll(v, level, items);
      && Leafwise(v, AllLeaves(level, items), w, if w.Passed? then AllLeaves(level, w.value) else [])
      && (Harmless(v, AllLeaves(level, items)) ==> w == Passed(items))
    decreases level.Rank(), 1, |items|
  {
    if items != [] {
      var front, last := items[..|items| - 1], items[|items| - 1];
      AllLeafwise(v, level, front);
      OneLeafwise(v, level, last);
      var w1, w2, w := RewriteAll(v, level, front), RewriteOne(v, level, last), RewriteAll(v, level, items);
      MapTextAppend(v, AllLeaves(level, front), OneLeaves(level, last));
      FirstRejectAppend(v, AllLeaves(level, front), OneLeaves(level, last));
      if w.Passed? {
        assert w.value[..|w.value| - 1] == w1.value;
        assert items == front + [last];
      }
    }
  }

  lemma ListLeafwise(v: string -> Verdict, level: Level, doc: Json, k: Key)
    ensures var w := RewriteList(v, level, doc, k);
      && Leafwise(v, ListLeaves(level, doc, k), w, if w.Passed? then ListLeaves(level, w.value, k) else [])
      && (Harmless(v, ListLeaves(level, doc, k)) ==> w == Passed(doc))
      && (w.Passed? ==> OnlyMember(doc, w.value, k))
  {
    if doc.MemberOrNull(k).Arr? {
      AllLeafwise(v, level, doc.MemberOrNull(k).items);
      SameMember(doc, k);
    }
  }

  lemma TopLeafwise(v: string -> Verdict, doc: Json)
    ensures var w := RewriteTop(v, doc);
      && Leafwise(v, MessageLeaves(doc.MemberOrNull(Key.Message)), w,
                  if w.Passed? then MessageLeaves(w.value.MemberOrNull(Key.Message)) else [])
      && (Harmless(v, MessageLeaves(doc.MemberOrNull(Key.Message))) ==> w == Passed(doc))
      && (w.Passed? ==> OnlyMember(doc, w.value, Key.Message))
  {
    if doc.MemberOrNull(Key.Message).Obj? {
      MessageLeafwise(v, doc.MemberOrNull(Key.Message));
      SameMember(doc, Key.Message);
    }
  }

  /** Changing one member leaves the texts of the others alone. */
  lemma OtherMembers(a: Json, b: Json, k: Key)
    requires OnlyMember(a, b, k)
    ensures k != Key.Prompt ==> TextLeaves(a, Key.Prompt) == TextLeaves(b, Key.Prompt)
    ensures k != Key.Messages ==> ListLeaves(MessageList, a, Key.Messages) == ListLeaves(MessageList, b, Key.Messages)
    ensures k != Key.Choices ==> ListLeaves(ChoiceList, a, Key.Choices) == ListLeaves(ChoiceList, b, Key.Choices)
    ensures k != Key.Message ==> a.MemberOrNull(Key.Message) == b.MemberOrNull(Key.Message)
  {
  }

  lemma RequestLeafwise(v: string -> Verdict, doc: Json)
    ensures var w := WalkRequest(v, doc);
      && Leafwise(v, RequestLeaves(doc), w, if w.Passed? then RequestLeaves(w.value) else [])
      && (Harmless(v, RequestLeaves(doc)) ==> w == Passed(doc))
      && (w.Passed? ==> AnswerLeaves(w.value) == AnswerLeaves(doc))
  {
    var l1, l2 := ListLeaves(MessageList, doc, Key.Messages), TextLeaves(doc, Key.Prompt);
    ListLeafwise(v, MessageList, doc, Key.Messages);
    MapTextAppend(v, l1, l2);
    var w1, w2 := RewriteList(v, MessageList, doc, Key.Messages), WalkRequest(v, doc);
    if w1.Passed? {
      TextLeafwise(v, w1.value, Key.Prompt);
      OtherMembers(doc, w1.value, Key.Messages);
      if w2.Passed? {
        OtherMembers(w1.value, w2.value, Key.Prompt);
      }
    }
    Leafwise2(v, l1, l2, w1, w2, if w1.Passed? then ListLeaves(MessageList, w1.value, Key.Messages) else [],
              if w2.Passed? then TextLeaves(w2.value, Key.Prompt) else []);
  }

  lemma AnswerLeafwise(v: string -> Verdict, doc: Json)
    ensures var w := PhaseChoices(v, doc);
      && Leafwise(v, AnswerLeaves(doc), w, if w.Passed? then AnswerLeaves(w.value) else [])
      && (Harmless(v, AnswerLeaves(doc)) ==> w == Passed(doc))
      && (w.Passed? ==> RequestLeaves(w.value) == RequestLeaves(doc))
  {
    var l1, l2 := ListLeaves(ChoiceList, doc, Key.Choices), MessageLeaves(doc.MemberOrNull(Key.Message));
    ListLeafwise(v, ChoiceList, doc, Key.Choices);
    MapTextAppend(v, l1, l2);
    var w1, w2 := RewriteList(v, ChoiceList, doc, Key.Choices), PhaseChoices(v, doc);
    if w1.Passed? {
      TopLeafwise(v, w1.value);
      OtherMembers(doc, w1.value, Key.Choices);
      if w2.Passed? {
        OtherMembers(w1.value, w2.value, Key.Message);
      }
    }
    Leafwise2(v, l1, l2, w1, w2, if w1.Passed? then ListLeaves(ChoiceList, w1.value, Key.Choices) else [],
              if w2.Passed? then MessageLeaves(w2.value.MemberOrNull(Key.Message)) else []);
  }

  /** The walk rewrites a document leaf by leaf. */
  lemma WalkLeafwise(v: string -> Verdict, doc: Json)
    ensures var w := Walk(v, doc);
      && Leafwise(v, Leaves(doc), w, if w.Passed? then Leaves(w.value) else [])
      && (Harmless(v, Leaves(doc)) ==> w == Passed(doc))
  {
    RequestLeafwise(v, doc);
    MapTextAppend(v, RequestLeaves(doc), AnswerLeaves(doc));
    FirstRejectAppend(v, RequestLeaves(doc), AnswerLeaves(doc));
    var w := WalkRequest(v, doc);
    if w.Passed? {
      AnswerLeafwise(v, w.value);
    }
  }
}
