/**
 The agent mailbox: a bounded rendezvous between pushers, a long-polling taker, repliers and
 cancellers. Each mutex section is one step. A message is named by its place in push order.
 */
module Mailbox {
  import opened Wrappers

  const QUEUE_MAX := 32

  type ChanId = nat
  type ReplyId = nat

  /** A JSON-RPC request; `id` is its JSON-RPC id, empty when it has none. */
  datatype Message = Message(no: nat, id: string)

  datatype Queued = Queued(msg: Message, reply: Option<ReplyId>)

  datatype Box = Box(
    q: seq<Queued>,
    waiter: Option<ChanId>,
    waitReply: map<string, ReplyId>,
    answers: map<ReplyId, string>,         // what each caller's one-place reply channel holds
    parked: map<ChanId, Option<Message>>,  // each taker in its select, with its one-place channel
    chans: nat,                           // channels made so far
    pushed: nat,                           // history: how many messages were pushed
    delivered: seq<Message>,               // history: what the takers returned, in order
    evicted: set<nat>,                     // history: dropped as oldest of a full queue
    cancelled: set<nat>                    // history: dropped by a canceller
  )

  function Empty(): Box {
    Box([], None, map[], map[], map[], 0, 0, [], {}, {})
  }

  datatype Action =
    | Push(id: string, reply: Option<ReplyId>)
    | Take
    | Receive(ch: ChanId)
    | Expire(ch: ChanId)
    | Reply(id: string, body: string)
    | Cancel(id: string)

  predicate Drops(it: Queued, id: string) {
    it.reply.Some? && it.msg.id == id
  }

  /** What the filter of `CancelAgent` keeps. */
  function Kept(q: seq<Queued>, id: string): seq<Queued> {
    if q == [] then []
    else if Drops(q[0], id) then Kept(q[1..], id)
    else [q[0]] + Kept(q[1..], id)
  }

  function Nos(q: seq<Queued>): set<nat> {
    set i | 0 <= i < |q| :: q[i].msg.no
  }

  /** Queueing a message: a full queue first loses its oldest, and that one's reply waiter. */
  function Enqueue(b: Box, it: Queued): Box {
    if |b.q| >= QUEUE_MAX then
      var old' := b.q[0];
      b.(q := b.q[1..] + [it],
         waitReply := if old'.reply.Some? && old'.msg.id != "" then b.waitReply - {old'.msg.id} else b.waitReply,
         evicted := b.evicted + {old'.msg.no})
    else b.(q := b.q + [it])
  }

  function PushStep(b: Box, id: string, reply: Option<ReplyId>): Box {
    var msg := Message(b.pushed, id);
    var b1 := b.(pushed := b.pushed + 1,
                 waitReply := if reply.Some? && id != "" then b.waitReply[id := reply.value] else b.waitReply);
    if b.waiter.Some? then
      b1.(waiter := None, parked := b.parked[b.waiter.value := Some(msg)])
    else Enqueue(b1, Queued(msg, reply))
  }

  /** The locked part of `TakeAgent`: the oldest message, or busy, or a new parked channel. */
  function TakeStep(b: Box): Box {
    if |b.q| > 0 then b.(q := b.q[1..], delivered := b.delivered + [b.q[0].msg])
    else if b.waiter.Some? then b
    else b.(waiter := Some(b.chans), parked := b.parked[b.chans := None], chans := b.chans + 1)
  }

  /** The timeout branch: withdraw, and put a message that came meanwhile back at the front. */
  function ExpireStep(b: Box, ch: ChanId): Box
    requires ch in b.parked
  {
    b.(waiter := if b.waiter == Some(ch) then None else b.waiter,
       parked := b.parked - {ch},
       q := match b.parked[ch]
            case None => b.q
            case Some(late) => [Queued(late, None)] + b.q)
  }

  /** A reply goes to the caller waiting under its id, unless that one's channel is full. */
  function ReplyStep(b: Box, id: string, body: string): Box {
    b.(waitReply := b.waitReply - {id},
       answers := if id in b.waitReply && b.waitReply[id] !in b.answers then b.answers[b.waitReply[id] := body]
                  else b.answers)
  }

  predicate Enabled(b: Box, a: Action) {
    match a
    case Receive(ch) => ch in b.parked && b.parked[ch].Some?
    case Expire(ch) => ch in b.parked
    case Reply(id, _) => id != ""
    case Cancel(id) => id != ""
    case _ => true
  }

  function Apply(b: Box, a: Action): Box
    requires Enabled(b, a)
  {
    match a
    case Push(id, reply) => PushStep(b, id, reply)
    case Take => TakeStep(b)
    case Receive(ch) => b.(parked := b.parked - {ch}, delivered := b.delivered + [b.parked[ch].value])
    case Expire(ch) => ExpireStep(b, ch)
    case Reply(id, body) => ReplyStep(b, id, body)
    case Cancel(id) =>
      b.(waitReply := b.waitReply - {id}, q := Kept(b.q, id),
         cancelled := b.cancelled + (Nos(b.q) - Nos(Kept(b.q, id))))
  }

  function Exec(run: seq<Action>): Option<Box>
    decreases |run|
  {
    if run == [] then Some(Empty())
    else
      match Exec(run[..|run| - 1])
      case None => None
      case Some(b) => if Enabled(b, run[|run| - 1]) then Some(Apply(b, run[|run| - 1])) else None
  }

  // ---- the cancel filter ------------------------------------------------------------------------

  /** The filter splits over concatenation, so what is kept keeps its order. */
  lemma {:induction false} KeptAppend(a: seq<Queued>, b: seq<Queued>, id: string)
    ensures Kept(a + b, id) == Kept(a, id) + Kept(b, id)
    decreases |a|
  {
    if a == [] {
      assert a + b == b;
    } else {
      KeptAppend(a[1..], b, id);
      assert (a + b)[1..] == a[1..] + b;
    }
  }

  /** Exactly the items that are not the cancelled call are kept. */
  lemma {:induction false} KeptMembers(q: seq<Queued>, id: string, it: Queued)
    ensures it in Kept(q, id) <==> it in q && !Drops(it, id)
    ensures |Kept(q, id)| <= |q|
    decreases |q|
  {
    if q != [] {
      KeptMembers(q[1..], id, it);
      assert it in q <==> it == q[0] || it in q[1..];
    }
  }

  ghost predicate Distinct(q: seq<Queued>) {
    forall i, j :: 0 <= i < j < |q| ==> q[i].msg.no != q[j].msg.no
  }

  lemma NosFirst(q: seq<Queued>)
    requires q != []
    ensures Nos(q) == {q[0].msg.no} + Nos(q[1..])
    ensures Distinct(q) ==> q[0].msg.no !in Nos(q[1..]) && Distinct(q[1..])
  {
    assert q == [q[0]] + q[1..];
    assert forall i :: 1 <= i < |q| ==> q[i] == q[1..][i - 1];
  }

  lemma {:induction false} KeptNos(q: seq<Queued>, id: string)
    ensures Nos(Kept(q, id)) <= Nos(q)
    decreases |q|
  {
    if q != [] {
      KeptNos(q[1..], id);
      NosFirst(q);
      if !Drops(q[0], id) {
        assert Kept(q, id)[1..] == Kept(q[1..], id);
        NosFirst(Kept(q, id));
      }
    }
  }

  /** What is kept is still without repetitions. */
  lemma {:induction false} KeptDistinct(q: seq<Queued>, id: string)
    requires Distinct(q)
    ensures Distinct(Kept(q, id))
    decreases |q|
  {
    if q != [] {
      NosFirst(q);
      KeptDistinct(q[1..], id);
      KeptNos(q[1..], id);
      var rest := Kept(q[1..], id);
      assert forall i :: 0 <= i < |rest| ==> rest[i].msg.no in Nos(rest);
    }
  }

  // ---- conservation -------------------------------------------------------------------------------

  function ChanNos(parked: map<ChanId, Option<Message>>): set<nat> {
    set ch | ch in parked && parked[ch].Some? :: parked[ch].value.no
  }

  function MessageNos(list: seq<Message>): set<nat> {
    set i | 0 <= i < |list| :: list[i].no
  }

  /** Every pushed message is in exactly one place, once. */
  ghost predicate Conserved(b: Box) {
    && (forall n: nat :: n < b.pushed <==>
          n in Nos(b.q) || n in ChanNos(b.parked) || n in MessageNos(b.delivered) || n in b.evicted || n in b.cancelled)
    && Nos(b.q) !! ChanNos(b.parked) !! MessageNos(b.delivered) !! b.evicted !! b.cancelled
    && Distinct(b.q)
    && (forall c, d :: c in b.parked && d in b.parked && c != d && b.parked[c].Some? && b.parked[d].Some? ==>
          b.parked[c].value.no != b.parked[d].value.no)
    && (forall i, j :: 0 <= i < j < |b.delivered| ==> b.delivered[i].no != b.delivered[j].no)
  }

  /** The channel a pusher would send to is a parked taker's, and it is empty: the send cannot block. */
  ghost predicate SendFree(b: Box) {
    && (b.waiter.Some? ==> b.waiter.value in b.parked && b.parked[b.waiter.value] == None)
    && (forall ch :: ch in b.parked ==> ch < b.chans)
  }

  lemma NosLast(q: seq<Queued>, it: Queued)
    ensures Nos(q + [it]) == Nos(q) + {it.msg.no}
  {
    assert forall i :: 0 <= i < |q| ==> (q + [it])[i] == q[i];
    assert (q + [it])[|q|] == it;
  }

  lemma DeliveredLast(list: seq<Message>, m: Message)
    ensures MessageNos(list + [m]) == MessageNos(list) + {m.no}
  {
    assert forall i :: 0 <= i < |list| ==> (list + [m])[i] == list[i];
    assert (list + [m])[|list|] == m;
  }

  lemma PushConserves(b: Box, id: string, reply: Option<ReplyId>)
    requires Conserved(b) && SendFree(b)
    ensures Conserved(PushStep(b, id, reply))
  {
    var b' := PushStep(b, id, reply);
    if b.waiter.Some? {
      assert ChanNos(b'.parked) == ChanNos(b.parked) + {b.pushed} by {
        assert b'.parked[b.waiter.value] == Some(Message(b.pushed, id));
        forall n | n in ChanNos(b.parked)
          ensures n in ChanNos(b'.parked)
        {
          var ch :| ch in b.parked && b.parked[ch].Some? && b.parked[ch].value.no == n;
          assert b'.parked[ch] == b.parked[ch];
        }
      }
    } else {
      var it := Queued(Message(b.pushed, id), reply);
      if |b.q| >= QUEUE_MAX {
        NosFirst(b.q);
        NosLast(b.q[1..], it);
      } else {
        NosLast(b.q, it);
      }
    }
  }

  lemma TakeConserves(b: Box)
    requires Conserved(b) && SendFree(b)
    ensures Conserved(TakeStep(b))
  {
    var b' := TakeStep(b);
    if |b.q| > 0 {
      NosFirst(b.q);
      DeliveredLast(b.delivered, b.q[0].msg);
    } else if b.waiter == None {
      assert ChanNos(b'.parked) == ChanNos(b.parked) by {
        assert forall ch :: ch in b.parked ==> b'.parked[ch] == b.parked[ch];
      }
    }
  }

  lemma ChanGone(parked: map<ChanId, Option<Message>>, ch: ChanId)
    requires ch in parked
    requires forall c, d :: c in parked && d in parked && c != d && parked[c].Some? && parked[d].Some? ==>
      parked[c].value.no != parked[d].value.no
    ensures ChanNos(parked - {ch}) == ChanNos(parked) - (if parked[ch].Some? then {parked[ch].value.no} else {})
  {
    var less := parked - {ch};
    forall n | n in ChanNos(parked) && (parked[ch].Some? ==> n != parked[ch].value.no)
      ensures n in ChanNos(less)
    {
      var c :| c in parked && parked[c].Some? && parked[c].value.no == n;
      assert c in less && less[c] == parked[c];
    }
  }

  lemma ExpireConserves(b: Box, ch: ChanId)
    requires Conserved(b) && ch in b.parked
    ensures Conserved(ExpireStep(b, ch))
  {
    var b' := ExpireStep(b, ch);
    ChanGone(b.parked, ch);
    if b.parked[ch].Some? {
      assert b.parked[ch].value.no in ChanNos(b.parked);
      assert b'.q[1..] == b.q;
      NosFirst(b'.q);
    }
  }

  lemma ReceiveConserves(b: Box, ch: ChanId)
    requires Conserved(b) && ch in b.parked && b.parked[ch].Some?
    ensures Conserved(Apply(b, Receive(ch)))
  {
    ChanGone(b.parked, ch);
    assert b.parked[ch].value.no in ChanNos(b.parked);
    DeliveredLast(b.delivered, b.parked[ch].value);
  }

  lemma StepConserves(b: Box, a: Action)
    requires Conserved(b) && SendFree(b) && Enabled(b, a)
    ensures Conserved(Apply(b, a)) && SendFree(Apply(b, a))
  {
    match a
    case Push(id, reply) => PushConserves(b, id, reply);
    case Take => TakeConserves(b);
    case Receive(ch) => ReceiveConserves(b, ch);
    case Expire(ch) => ExpireConserves(b, ch);
    case Reply(_, _) =>
    case Cancel(id) =>
      KeptNos(b.q, id);
      KeptDistinct(b.q, id);
  }

  /** Under any interleaving no message is lost or duplicated, and no send under the lock can block. */
  lemma {:induction false} MessageConservation(run: seq<Action>, b: Box)
    requires Exec(run) == Some(b)
    ensures Conserved(b) && SendFree(b)
    decreases |run|
  {
    if run != [] {
      var before := run[..|run| - 1];
      MessageConservation(before, Exec(before).value);
      StepConserves(Exec(before).value, run[|run| - 1]);
    }
  }

  // ---- order and bound ----------------------------------------------------------------------------

  /** No connection is opened while a message sits in another one's channel. */
  ghost predicate CalmTakes(run: seq<Action>)
    decreases |run|
  {
    run == [] ||
    (var before := run[..|run| - 1];
     && CalmTakes(before)
     && (run[|run| - 1].Take? ==> Exec(before).Some? && !ChanFull(Exec(before).value)))
  }

  ghost predicate ChanFull(b: Box) {
    exists ch :: ch in b.parked && b.parked[ch].Some?
  }

  ghost function InChannel(b: Box): seq<nat> {
    if ChanFull(b) then
      var ch :| ch in b.parked && b.parked[ch].Some?;
      [b.parked[ch].value.no]
    else []
  }

  function QueueNos(q: seq<Queued>): seq<nat> {
    seq(|q|, i requires 0 <= i < |q| => q[i].msg.no)
  }

  function DeliveredNos(list: seq<Message>): seq<nat> {
    seq(|list|, i requires 0 <= i < |list| => list[i].no)
  }

  /** The line of messages: delivered, then the one in the channel, then the queued ones. */
  ghost function Line(b: Box): seq<nat> {
    DeliveredNos(b.delivered) + InChannel(b) + QueueNos(b.q)
  }

  /** In push order, without repetitions, and below `n`. */
  ghost predicate Increasing(list: seq<nat>, n: nat) {
    && (forall i, j :: 0 <= i < j < |list| ==> list[i] < list[j])
    && (forall i :: 0 <= i < |list| ==> list[i] < n)
  }

  ghost predicate Ordered(list: seq<Message>) {
    forall i, j :: 0 <= i < j < |list| ==> list[i].no < list[j].no
  }

  ghost predicate InOrder(b: Box) {
    && (forall c, d :: c in b.parked && d in b.parked ==> c == d)
    && (forall ch :: ch in b.parked && b.parked[ch] == None ==> b.waiter == Some(ch))
    && Increasing(Line(b), b.pushed)
  }

  ghost predicate Bounded(b: Box) {
    && |b.q| <= QUEUE_MAX + 1
    && (ChanFull(b) ==> |b.q| <= QUEUE_MAX)
    && (b.waiter.Some? ==> b.q == [] && !ChanFull(b))
  }

  /** A line stays increasing when a stretch is cut out of it. */
  lemma CutOut(a: seq<nat>, x: seq<nat>, c: seq<nat>, n: nat)
    requires Increasing(a + x + c, n)
    ensures Increasing(a + c, n)
  {
    var all, cut := a + x + c, a + c;
    forall i | 0 <= i < |cut|
      ensures cut[i] == all[if i < |a| then i else i + |x|]
    {
    }
    forall i, j | 0 <= i < j < |cut|
      ensures cut[i] < cut[j]
    {
      var i', j' := if i < |a| then i else i + |x|, if j < |a| then j else j + |x|;
      assert cut[i] == all[i'] && cut[j] == all[j'] && i' < j';
    }
  }

  lemma AppendNewest(list: seq<nat>, n: nat)
    requires Increasing(list, n)
    ensures Increasing(list + [n], n + 1)
  {
  }

  lemma NosAfter(front: seq<nat>, q: seq<Queued>)
    requires q != []
    ensures front + QueueNos(q) == front + [q[0].msg.no] + QueueNos(q[1..])
  {
    assert QueueNos(q) == [q[0].msg.no] + QueueNos(q[1..]);
  }

  /** Filtering the tail of a line keeps the line increasing. */
  lemma {:induction false} KeptInOrder(front: seq<nat>, q: seq<Queued>, id: string, n: nat)
    requires Increasing(front + QueueNos(q), n)
    ensures Increasing(front + QueueNos(Kept(q, id)), n)
    decreases |q|
  {
    if q != [] {
      var no, rest := [q[0].msg.no], q[1..];
      NosAfter(front, q);
      if Drops(q[0], id) {
        CutOut(front, no, QueueNos(rest), n);
        KeptInOrder(front, rest, id, n);
      } else {
        KeptInOrder(front + no, rest, id, n);
        assert Kept(q, id)[1..] == Kept(rest, id);
        NosAfter(front, Kept(q, id));
      }
    }
  }

  /** Queueing a new message, after losing the oldest of a full queue, keeps the line increasing. */
  lemma EnqueuedLine(front: seq<nat>, q: seq<Queued>, it: Queued, n: nat)
    requires Increasing(front + QueueNos(q), n) && it.msg.no == n
    ensures Increasing(front + QueueNos((if |q| >= QUEUE_MAX then q[1..] else q) + [it]), n + 1)
  {
    var rest := if |q| >= QUEUE_MAX then q[1..] else q;
    if |q| >= QUEUE_MAX {
      NosAfter(front, q);
      CutOut(front, [q[0].msg.no], QueueNos(rest), n);
    }
    AppendNewest(front + QueueNos(rest), n);
    assert QueueNos(rest + [it]) == QueueNos(rest) + [n];
    assert front + (QueueNos(rest) + [n]) == front + QueueNos(rest) + [n];
  }

  lemma EnqueueInOrder(b: Box, it: Queued)
    requires InOrder(b) && it.msg.no == b.pushed
    ensures InOrder(Enqueue(b, it).(pushed := b.pushed + 1))
  {
    EnqueuedLine(DeliveredNos(b.delivered) + InChannel(b), b.q, it, b.pushed);
  }

  /** A push to a parked taker puts the message at the end of a line that ends there. */
  lemma HandOver(b: Box, id: string, reply: Option<ReplyId>)
    requires InOrder(b) && SendFree(b) && Bounded(b) && b.waiter.Some?
    ensures InOrder(PushStep(b, id, reply))
  {
    var b' := PushStep(b, id, reply);
    assert b'.parked[b.waiter.value].Some?;
    AppendNewest(Line(b), b.pushed);
    assert Line(b') == Line(b) + [b.pushed];
  }

  lemma PushInOrder(b: Box, id: string, reply: Option<ReplyId>)
    requires InOrder(b) && SendFree(b) && Bounded(b)
    ensures InOrder(PushStep(b, id, reply))
  {
    var b' := PushStep(b, id, reply);
    if b.waiter.Some? {
      HandOver(b, id, reply);
    } else {
      var b1 := b.(waitReply := if reply.Some? && id != "" then b.waitReply[id := reply.value] else b.waitReply);
      assert Line(b1) == Line(b);
      EnqueueInOrder(b1, Queued(Message(b.pushed, id), reply));
      assert b' == Enqueue(b1, Queued(Message(b.pushed, id), reply)).(pushed := b.pushed + 1);
    }
  }

  /** Handing a message over, and putting a late one back, leave the line as it is. */
  lemma StepInOrder(b: Box, a: Action)
    requires InOrder(b) && SendFree(b) && Bounded(b) && Enabled(b, a) && (a.Take? ==> !ChanFull(b))
    ensures InOrder(Apply(b, a))
  {
    var b' := Apply(b, a);
    match a
    case Push(id, reply) => PushInOrder(b, id, reply);
    case Take =>
      if |b.q| > 0 {
        assert QueueNos(b.q) == [b.q[0].msg.no] + QueueNos(b.q[1..]);
        assert !ChanFull(b) && !ChanFull(b');
      }
      assert Line(b') == Line(b);
    case Receive(ch) =>
      assert ChanFull(b) && !ChanFull(b');
      assert Line(b') == Line(b);
    case Expire(ch) =>
      assert !ChanFull(b') && (ChanFull(b) <==> b.parked[ch].Some?);
      assert Line(b') == Line(b);
    case Reply(_, _) =>
      assert Line(b') == Line(b);
    case Cancel(id) =>
      KeptInOrder(DeliveredNos(b.delivered) + InChannel(b), b.q, id, b.pushed);
      assert InChannel(b') == InChannel(b);
  }

  lemma StepBounded(b: Box, a: Action)
    requires InOrder(b) && SendFree(b) && Bounded(b) && Enabled(b, a) && (a.Take? ==> !ChanFull(b))
    ensures Bounded(Apply(b, a))
  {
    if a.Cancel? {
      KeptMembers(b.q, a.id, Queued(Message(0, ""), None));
    }
  }

  /**
   When no connection is opened while a message sits in another one's channel, the takers see a
   duplicate-free subsequence of push order, a parked taker that can still be served means an empty
   queue, and queue plus channel hold at most 33. A second connection that is turned away as busy is fine.
   */
  lemma {:induction false} MailboxFifo(run: seq<Action>, b: Box)
    requires Exec(run) == Some(b) && CalmTakes(run)
    ensures Ordered(b.delivered)
    ensures b.waiter.Some? ==> b.q == []
    ensures |b.q| + (if ChanFull(b) then 1 else 0) <= 33
    ensures InOrder(b) && Bounded(b)
    decreases |run|
  {
    if run != [] {
      var before := run[..|run| - 1];
      var mid := Exec(before).value;
      MailboxFifo(before, mid);
      MessageConservation(before, mid);
      StepInOrder(mid, run[|run| - 1]);
      StepBounded(mid, run[|run| - 1]);
    }
    assert forall i :: 0 <= i < |b.delivered| ==> Line(b)[i] == b.delivered[i].no;
  }
}
