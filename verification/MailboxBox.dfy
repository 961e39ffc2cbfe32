/** The mailbox as the object the session code mutates; each method is one step of the model. */
module MailboxBox {
  import opened Wrappers
  import opened Mailbox

  datatype Taken = Body(msg: Message) | Busy | Parked(ch: ChanId)

  /** The in-place filter of `CancelAgent`: kept items move down over the same storage. */
  method FilterInPlace(a: array<Queued>, id: string) returns (n: nat)
    modifies a
    ensures n <= a.Length && a[..n] == Kept(old(a[..]), id)
  {
    n := 0;
    ghost var q := a[..];
    for i := 0 to a.Length
      invariant n <= i && forall k :: i <= k < a.Length ==> a[k] == q[k]
      invariant a[..n] == Kept(q[..i], id)
    {
      KeptNext(q, i, id);
      ghost var kept := a[..n];
      if !Drops(a[i], id) {
        a[n] := a[i];
        n := n + 1;
        assert a[..n] == kept + [q[i]];
      }
    }
    assert q[..a.Length] == q;
  }

  lemma KeptNext(q: seq<Queued>, i: nat, id: string)
    requires i < |q|
    ensures Kept(q[..i + 1], id) == Kept(q[..i], id) + (if Drops(q[i], id) then [] else [q[i]])
  {
    KeptAppend(q[..i], [q[i]], id);
    assert q[..i + 1] == q[..i] + [q[i]];
    assert Kept([q[i]], id) == if Drops(q[i], id) then [] else [q[i]];
  }

  class AgentBox {
    var q: seq<Queued>
    var waiter: Option<ChanId>
    var waitReply: map<string, ReplyId>
    var answers: map<ReplyId, string>
    var parked: map<ChanId, Option<Message>>
    var chans: nat
    var pushed: nat
    ghost var delivered: seq<Message>
    ghost var evicted: set<nat>
    ghost var cancelled: set<nat>

    constructor ()
      ensures Value() == Empty()
    {
      q, waiter, waitReply, answers, parked, chans, pushed := [], None, map[], map[], map[], 0, 0;
      delivered, evicted, cancelled := [], {}, {};
    }

    ghost function Value(): Box
      reads this
    {
      Box(q, waiter, waitReply, answers, parked, chans, pushed, delivered, evicted, cancelled)
    }

    /** `PushAgent`; `id` is the JSON-RPC id of the body. A nameless or empty push does nothing. */
    method PushAgent(name: string, body: string, id: string, reply: Option<ReplyId>)
      requires SendFree(Value())
      modifies this
      ensures Value() == if name == "" || body == "" then old(Value()) else Apply(old(Value()), Push(id, reply))
    {
      if name == "" || body == "" {
        return;
      }
      var msg := Message(pushed, id);
      pushed := pushed + 1;
      if reply.Some? && id != "" {
        waitReply := waitReply[id := reply.value];
      }
      if waiter.Some? {
        var w := waiter.value;
        waiter := None;
        assert parked[w] == None;  // the send finds room
        parked := parked[w := Some(msg)];
        return;
      }
      if |q| >= QUEUE_MAX {
        var old' := q[0];
        q := q[1..];
        evicted := evicted + {old'.msg.no};
        if old'.reply.Some? && old'.msg.id != "" {
          waitReply := waitReply - {old'.msg.id};
        }
      }
      q := q + [Queued(msg, reply)];
    }

    /** `TakeAgent` up to its select. */
    method TakeAgent() returns (r: Taken)
      modifies this
      ensures Value() == Apply(old(Value()), Take)
      ensures match r
        case Body(m) => |old(q)| > 0 && m == old(q)[0].msg && delivered == old(delivered) + [m]
        case Busy => old(q) == [] && old(waiter).Some?
        case Parked(ch) =>
          old(q) == [] && old(waiter) == None && waiter == Some(ch) && ch in parked && parked[ch] == None
    {
      if |q| > 0 {
        var item := q[0];
        q := q[1..];
        delivered := delivered + [item.msg];
        return Body(item.msg);
      }
      if waiter.Some? {
        return Busy;
      }
      var ch := chans;
      chans := chans + 1;
      parked := parked[ch := None];
      waiter := Some(ch);
      return Parked(ch);
    }

    /** The receive branch of the select. */
    method ReceiveFrom(ch: ChanId) returns (m: Message)
      requires ch in parked && parked[ch].Some?
      modifies this
      ensures Value() == Apply(old(Value()), Receive(ch))
      ensures delivered == old(delivered) + [m]
    {
      m := parked[ch].value;
      parked := parked - {ch};
      delivered := delivered + [m];
    }

    /** The timeout branch of the select. */
    method Timeout(ch: ChanId)
      requires ch in parked
      modifies this
      ensures Value() == Apply(old(Value()), Expire(ch))
    {
      if waiter == Some(ch) {
        waiter := None;
      }
      if parked[ch].Some? {
        var late := parked[ch].value;
        q := [Queued(late, None)] + q;
      }
      parked := parked - {ch};
    }

    /** `ReplyAgent`: true when a caller was waiting on this id; a full reply channel keeps what it holds. */
    method ReplyAgent(name: string, id: string, body: string) returns (ok: bool)
      modifies this
      ensures name == "" || id == "" ==> !ok && Value() == old(Value())
      ensures name != "" && id != "" ==>
        Value() == Apply(old(Value()), Reply(id, body)) && (ok <==> id in old(waitReply))
      ensures ok ==>
        var ch := old(waitReply)[id];
        ch in answers && answers[ch] == if ch in old(answers) then old(answers)[ch] else body
    {
      if name == "" || id == "" {
        return false;
      }
      var ch := if id in waitReply then Some(waitReply[id]) else None;
      waitReply := waitReply - {id};
      if ch == None {
        return false;
      }
      if ch.value !in answers {
        answers := answers[ch.value := body];
      }
      return true;
    }

    /** `CancelAgent`. */
    method CancelAgent(name: string, id: string)
      modifies this
      ensures Value() == if name == "" || id == "" then old(Value()) else Apply(old(Value()), Cancel(id))
    {
      if name == "" || id == "" {
        return;
      }
      waitReply := waitReply - {id};
      var items := q;
      var a := new Queued[|items|](i requires 0 <= i < |items| => items[i]);
      assert a[..] == q;
      var n := FilterInPlace(a, id);
      cancelled := cancelled + (Nos(q) - Nos(a[..n]));
      q := a[..n];
    }
  }
}
