/** Who is left waiting for a reply, under which id, and when the wrong caller is forgotten. */
module MailboxReplies {
  import opened Wrappers
  import opened Mailbox
  import opened MailboxLimits

  // ---- reply waiters ----------------------------------------------------------------------------

  /** A push evicts a call that has a reply channel and this id. */
  predicate Evicts(b: Box, id: string) {
    b.waiter == None && |b.q| >= QUEUE_MAX && b.q[0].reply.Some? && b.q[0].msg.id == id
  }

  /** The callers waiting once the pusher has entered itself. */
  function Entered(b: Box, id: string, reply: Option<ReplyId>): map<string, ReplyId> {
    if reply.Some? && id != "" then b.waitReply[id := reply.value] else b.waitReply
  }

  /**
   Of the callers then waiting, whichever they are, a push leaves every one waiting with its channel but the one
   under the id of an evicted call.
   */
  lemma CallerStaysIff(b: Box, id: string, reply: Option<ReplyId>, id0: string)
    requires id0 != "" && id0 in Entered(b, id, reply)
    ensures var b' := PushStep(b, id, reply);
      && (id0 in b'.waitReply <==> !Evicts(b, id0))
      && (id0 in b'.waitReply ==> b'.waitReply[id0] == Entered(b, id, reply)[id0])
  {
  }

  /** The caller that is forgotten is not the one whose call is evicted. */
  predicate ForgetsWrongCaller(b: Box, id: string, reply: Option<ReplyId>, id0: string) {
    && id0 in Entered(b, id, reply) && Evicts(b, id0)
    && Entered(b, id, reply)[id0] != b.q[0].reply.value
  }

  /** What the step does to the caller waiting under `id`, other than entering one. */
  predicate Forgets(b: Box, a: Action, id: string) {
    match a
    case Push(_, _) => Evicts(b, id)
    case Reply(x, _) => x == id
    case Cancel(x) => x == id
    case _ => false
  }

  predicate Enters(a: Action, id: string) {
    a.Push? && a.id == id && a.reply.Some?
  }

  lemma WaitStep(b: Box, a: Action, id: string)
    requires id != "" && Enabled(b, a)
    ensures id in Apply(b, a).waitReply <==> !Forgets(b, a, id) && (Enters(a, id) || id in b.waitReply)
    ensures id in Apply(b, a).waitReply ==>
      Apply(b, a).waitReply[id] == if Enters(a, id) then a.reply.value else b.waitReply[id]
  {
  }

  /** The caller that entered itself at step `k` has been neither replaced nor forgotten since. */
  ghost predicate WaitsSince(run: seq<Action>, k: int, id: string, reply: ReplyId) {
    && 0 <= k < |run| && run[k] == Push(id, Some(reply))
    && (forall i :: k < i < |run| ==> !Enters(run[i], id))
    && (forall i :: k <= i < |run| ==> Exec(run[..i]).Some? && !Forgets(Exec(run[..i]).value, run[i], id))
  }

  lemma WaitsLonger(run: seq<Action>, a: Action, k: int, id: string, reply: ReplyId)
    requires Exec(run).Some? && 0 <= k < |run| && !Enters(a, id)
    ensures WaitsSince(run + [a], k, id, reply) <==>
      WaitsSince(run, k, id, reply) && !Forgets(Exec(run).value, a, id)
  {
    var more := run + [a];
    assert more[..|run|] == run && more[|run|] == a;
    assert forall i :: 0 <= i < |run| ==> more[..i] == run[..i] && more[i] == run[i];
  }

  lemma WaitsFromNow(run: seq<Action>, a: Action, k: int, id: string, reply: ReplyId)
    requires Exec(run).Some? && 0 <= k <= |run| && Enters(a, id)
    ensures WaitsSince(run + [a], k, id, reply) <==>
      k == |run| && a == Push(id, Some(reply)) && !Forgets(Exec(run).value, a, id)
  {
    var more := run + [a];
    assert more[..|run|] == run && more[|run|] == a;
    assert k < |run| ==> Enters(more[|run|], id);
  }

  ghost predicate SomeWaitsSince(run: seq<Action>, id: string, reply: ReplyId) {
    exists k :: WaitsSince(run, k, id, reply)
  }

  lemma SomeWaitsStep(run: seq<Action>, a: Action, id: string, reply: ReplyId)
    requires Exec(run).Some?
    ensures SomeWaitsSince(run + [a], id, reply) <==>
      && !Forgets(Exec(run).value, a, id)
      && if Enters(a, id) then a == Push(id, Some(reply)) else SomeWaitsSince(run, id, reply)
  {
    var more := run + [a];
    if SomeWaitsSince(more, id, reply) {
      var k :| WaitsSince(more, k, id, reply);
      if Enters(a, id) {
        WaitsFromNow(run, a, k, id, reply);
      } else {
        assert k < |run|;
        WaitsLonger(run, a, k, id, reply);
      }
    }
    if Enters(a, id) {
      WaitsFromNow(run, a, |run|, id, reply);
    } else if SomeWaitsSince(run, id, reply) {
      var k :| WaitsSince(run, k, id, reply);
      WaitsLonger(run, a, k, id, reply);
    }
  }

  /**
   Who waits under an id, over whole runs: exactly the caller that entered itself last, if since then there was
   no answer and no cancellation under that id and no eviction of a call with it.
   */
  lemma {:induction false} CallerWaitsIff(run: seq<Action>, b: Box, id: string, reply: ReplyId)
    requires Exec(run) == Some(b) && id != ""
    ensures (id in b.waitReply && b.waitReply[id] == reply) <==> SomeWaitsSince(run, id, reply)
    decreases |run|
  {
    if run != [] {
      var before, a := run[..|run| - 1], run[|run| - 1];
      CallerWaitsIff(before, Exec(before).value, id, reply);
      WaitStep(Exec(before).value, a, id);
      SomeWaitsStep(before, a, id, reply);
      assert run == before + [a];
    }
  }

  /** As long as it waits, the first reply under its id reaches the caller, and no other, and ends its waiting. */
  lemma ReplyReachesCaller(run: seq<Action>, b: Box, id: string, reply: ReplyId, body: string)
    requires Exec(run) == Some(b) && id != "" && SomeWaitsSince(run, id, reply) && reply !in b.answers
    ensures var b' := Apply(b, Reply(id, body));
      b'.answers == b.answers[reply := body] && id !in b'.waitReply
  {
    CallerWaitsIff(run, b, id, reply);
  }

  // ---- ids that are used once -------------------------------------------------------------------

  /** No id is pushed twice with a reply channel. */
  ghost predicate IdsOnce(run: seq<Action>) {
    forall i, k :: 0 <= i < k < |run| && run[i].Push? && run[i].reply.Some? && run[i].id != "" ==>
      !Enters(run[k], run[i].id)
  }

  ghost predicate Pushed(run: seq<Action>, id: string) {
    exists i :: 0 <= i < |run| && Enters(run[i], id)
  }

  /** A queued call that has a channel was pushed, and nobody else's channel stands under its id. */
  ghost predicate OwnChannels(run: seq<Action>, b: Box) {
    && (forall i :: 0 <= i < |b.q| && b.q[i].reply.Some? && b.q[i].msg.id != "" ==>
          && Pushed(run, b.q[i].msg.id)
          && (b.q[i].msg.id in b.waitReply ==> b.waitReply[b.q[i].msg.id] == b.q[i].reply.value))
    && (forall id :: id in b.waitReply ==> Pushed(run, id))
  }

  lemma PushedMore(run: seq<Action>, a: Action, id: string)
    ensures Pushed(run + [a], id) <==> Pushed(run, id) || Enters(a, id)
  {
    var more := run + [a];
    assert more[|run|] == a && forall i :: 0 <= i < |run| ==> more[i] == run[i];
    if Pushed(run, id) {
      var i :| 0 <= i < |run| && Enters(run[i], id);
      assert Enters(more[i], id);
    }
  }

  lemma StepKeepsOwn(run: seq<Action>, b: Box, a: Action)
    requires Enabled(b, a) && OwnChannels(run, b) && (a.Push? && a.reply.Some? && a.id != "" ==> !Pushed(run, a.id))
    ensures OwnChannels(run + [a], Apply(b, a))
  {
    var b' := Apply(b, a);
    forall id
      ensures Pushed(run + [a], id) <==> Pushed(run, id) || Enters(a, id)
    {
      PushedMore(run, a, id);
    }
    forall i | 0 <= i < |b'.q| && b'.q[i].reply.Some? && b'.q[i].msg.id != ""
      ensures b'.q[i] in b.q || (a.Push? && b'.q[i] == Queued(Message(b.pushed, a.id), a.reply))
    {
      if a.Cancel? {
        KeptMembers(b.q, a.id, b'.q[i]);
      }
    }
  }

  lemma NotPushedBefore(run: seq<Action>, id: string, reply: Option<ReplyId>)
    requires IdsOnce(run + [Push(id, reply)]) && reply.Some? && id != ""
    ensures IdsOnce(run) && !Pushed(run, id)
  {
    var more := run + [Push(id, reply)];
    assert more[|run|] == Push(id, reply);
    assert forall i :: 0 <= i < |run| ==> more[i] == run[i];
  }

  lemma OnceBefore(run: seq<Action>, a: Action)
    requires IdsOnce(run + [a])
    ensures IdsOnce(run)
  {
    assert forall i :: 0 <= i < |run| ==> (run + [a])[i] == run[i];
  }

  /** While no id is pushed twice, every queued call has its own channel under its id, if any. */
  lemma {:induction false} IdsOnceOwnChannels(run: seq<Action>, b: Box)
    requires Exec(run) == Some(b) && IdsOnce(run)
    ensures OwnChannels(run, b)
    decreases |run|
  {
    if run != [] {
      var before, a := run[..|run| - 1], run[|run| - 1];
      assert run == before + [a];
      OnceBefore(before, a);
      IdsOnceOwnChannels(before, Exec(before).value);
      if a.Push? && a.reply.Some? && a.id != "" {
        NotPushedBefore(before, a.id, a.reply);
      }
      StepKeepsOwn(before, Exec(before).value, a);
    }
  }

  /** Then an eviction never forgets another caller than the evicted one. */
  lemma NoWrongCaller(run: seq<Action>, b: Box, id: string, reply: Option<ReplyId>, id0: string)
    requires IdsOnce(run + [Push(id, reply)]) && Exec(run) == Some(b) && id0 != ""
    ensures !ForgetsWrongCaller(b, id, reply, id0)
  {
    OnceBefore(run, Push(id, reply));
    IdsOnceOwnChannels(run, b);
    if reply.Some? && id != "" {
      NotPushedBefore(run, id, reply);
    }
  }

  // ---- runs in which the wrong caller is forgotten ------------------------------------------------

  lemma {:induction false} FillUp(run: seq<Action>, b: Box, n: nat) returns (run': seq<Action>, b': Box)
    requires Exec(run) == Some(b) && b.waiter == None && b.q != [] && |b.q| + n <= QUEUE_MAX
    ensures Exec(run') == Some(b') && b'.waiter == None && |b'.q| == |b.q| + n && b.q <= b'.q
    ensures b'.waitReply == b.waitReply
    decreases n
  {
    run', b' := run, b;
    if n > 0 {
      run', b' := Then(run, b, Push("", None));
      run', b' := FillUp(run', b', n - 1);
    }
  }

  /** A full queue whose oldest call has the id of a newer one: the newer caller's reply is refused. */
  lemma EvictionForgetsNewCaller(id: string, r1: ReplyId, r2: ReplyId) returns (run: seq<Action>, b: Box)
    requires id != "" && r1 != r2
    ensures Exec(run) == Some(b) && run != [] && run[|run| - 1] == Push(id, Some(r2))
    ensures id !in b.waitReply && exists i :: 0 <= i < |b.q| && b.q[i].msg.id == id && b.q[i].reply == Some(r2)
  {
    run, b := Then([], Empty(), Push(id, Some(r1)));
    assert b.q == [Queued(Message(0, id), Some(r1))];
    run, b := FillUp(run, b, QUEUE_MAX - 1);
    assert Evicts(b, id) && ForgetsWrongCaller(b, id, Some(r2), id);
    CallerStaysIff(b, id, Some(r2), id);
    run, b := Then(run, b, Push(id, Some(r2)));
    assert b.q[|b.q| - 1].msg.id == id && b.q[|b.q| - 1].reply == Some(r2);
  }

  /** Even a push with an id of its own can forget one: two calls with one id are queued, and the older is evicted. */
  lemma EvictionForgetsQueuedCaller(x: string, y: string, r1: ReplyId, r2: ReplyId, r3: ReplyId)
    returns (run: seq<Action>, b: Box)
    requires x != "" && y != x && r1 != r2
    ensures Exec(run) == Some(b) && run != [] && run[|run| - 1] == Push(y, Some(r3))
    ensures x !in b.waitReply && exists i :: 0 <= i < |b.q| && b.q[i].msg.id == x && b.q[i].reply == Some(r2)
  {
    run, b := Then([], Empty(), Push(x, Some(r1)));
    run, b := Then(run, b, Push(x, Some(r2)));
    assert b.q == [Queued(Message(0, x), Some(r1)), Queued(Message(1, x), Some(r2))];
    ghost var two := b.q;
    run, b := FillUp(run, b, QUEUE_MAX - 2);
    assert b.q[0] == two[0] && b.q[1] == two[1];
    assert ForgetsWrongCaller(b, y, Some(r3), x);
    CallerStaysIff(b, y, Some(r3), x);
    run, b := Then(run, b, Push(y, Some(r3)));
    assert b.q[0].msg.id == x && b.q[0].reply == Some(r2);
  }
}
