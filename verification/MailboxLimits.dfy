/** Where the mailbox keeps its promises and where it does not: order, and cancelling. */
module MailboxLimits {
  import opened Wrappers
  import opened Mailbox

  lemma Then(run: seq<Action>, b: Box, a: Action) returns (run': seq<Action>, b': Box)
    requires Exec(run) == Some(b) && Enabled(b, a)
    ensures run' == run + [a] && b' == Apply(b, a) && Exec(run') == Some(b')
  {
    run', b' := run + [a], Apply(b, a);
    assert run'[..|run'| - 1] == run;
  }

  // ---- order ------------------------------------------------------------------------------------

  ghost predicate NoTake(more: seq<Action>) {
    forall i :: 0 <= i < |more| ==> !more[i].Take?
  }

  lemma {:induction false} StaysCalm(run: seq<Action>, more: seq<Action>)
    requires CalmTakes(run) && NoTake(more)
    ensures CalmTakes(run + more)
    decreases |more|
  {
    if more == [] {
      assert run + more == run;
    } else {
      var front := more[..|more| - 1];
      StaysCalm(run, front);
      assert (run + more)[..|run + more| - 1] == run + front;
    }
  }

  /** Whatever happens next short of another connection, messages are delivered in push order. */
  ghost predicate OrderSafe(run: seq<Action>) {
    forall more, b :: NoTake(more) && Exec(run + more) == Some(b) ==> Ordered(b.delivered)
  }

  /** A queued message overtakes the one in the channel. */
  lemma QueueOvertakes(run: seq<Action>, b: Box, ch: ChanId)
    requires Exec(run) == Some(b) && CalmTakes(run) && ch in b.parked && b.parked[ch].Some? && b.q != []
    ensures !OrderSafe(run + [Take])
  {
    MailboxFifo(run, b);
    assert Line(b)[|b.delivered|] == b.parked[ch].value.no && Line(b)[|b.delivered| + 1] == b.q[0].msg.no;
    var r, c := Then(run, b, Take);
    r, c := Then(r, c, Receive(ch));
    assert r == run + [Take] + [Receive(ch)];
    assert c.delivered[|b.delivered|].no > c.delivered[|b.delivered| + 1].no;
  }

  /** A new connection, a push to it, and both messages received, the new one first. */
  lemma PassThroughNew(b: Box, ch: ChanId)
    requires SendFree(b) && b.waiter == None && b.q == [] && ch in b.parked && b.parked[ch].Some?
    ensures var b1 := PushStep(TakeStep(b), "", None);
      && Enabled(b1, Receive(b.chans))
      && var b2 := Apply(b1, Receive(b.chans));
      && Enabled(b2, Receive(ch))
      && Apply(b2, Receive(ch)).delivered == b.delivered + [Message(b.pushed, "")] + [b.parked[ch].value]
  {
    assert ch < b.chans;
  }

  /** With an empty queue the next message overtakes it, through the channel of the new connection. */
  lemma NextPushOvertakes(run: seq<Action>, b: Box, ch: ChanId)
    requires Exec(run) == Some(b) && CalmTakes(run) && ch in b.parked && b.parked[ch].Some? && b.q == []
    ensures !OrderSafe(run + [Take])
  {
    MailboxFifo(run, b);
    MessageConservation(run, b);
    assert Line(b)[|b.delivered|] == b.parked[ch].value.no;
    PassThroughNew(b, ch);
    var r, c := Then(run, b, Take);
    r, c := Then(r, c, Push("", None));
    r, c := Then(r, c, Receive(b.chans));
    r, c := Then(r, c, Receive(ch));
    var more := [Push("", None), Receive(b.chans), Receive(ch)];
    assert r == run + [Take] + more;
    assert c.delivered[|b.delivered|].no > c.delivered[|b.delivered| + 1].no;
  }

  /** After an orderly run, opening a connection is safe if and only if no message sits in a channel. */
  lemma TakeIsSafeIff(run: seq<Action>, b: Box)
    requires Exec(run) == Some(b) && CalmTakes(run)
    ensures OrderSafe(run + [Take]) <==> !ChanFull(b)
  {
    if ChanFull(b) {
      var ch :| ch in b.parked && b.parked[ch].Some?;
      if b.q != [] {
        QueueOvertakes(run, b, ch);
      } else {
        NextPushOvertakes(run, b, ch);
      }
    } else {
      assert (run + [Take])[..|run|] == run;
      assert CalmTakes(run + [Take]);
      CalmIsSafe(run + [Take]);
    }
  }

  lemma CalmIsSafe(run: seq<Action>)
    requires CalmTakes(run)
    ensures OrderSafe(run)
  {
    forall more, b | NoTake(more) && Exec(run + more) == Some(b)
      ensures Ordered(b.delivered)
    {
      StaysCalm(run, more);
      MailboxFifo(run + more, b);
    }
  }

  lemma {:induction false} ExecPrefix(run: seq<Action>, n: nat)
    requires Exec(run).Some? && n <= |run|
    ensures Exec(run[..n]).Some?
    decreases |run|
  {
    if n < |run| {
      ExecPrefix(run[..|run| - 1], n);
      assert run[..|run| - 1][..n] == run[..n];
    } else {
      assert run[..n] == run;
    }
  }

  ghost predicate SafeThroughout(run: seq<Action>) {
    forall n :: 0 <= n <= |run| ==> OrderSafe(run[..n])
  }

  lemma SafeOnward(run: seq<Action>, a: Action)
    ensures SafeThroughout(run + [a]) <==> SafeThroughout(run) && OrderSafe(run + [a])
  {
    var more := run + [a];
    assert more[..|more|] == more;
    assert forall n :: 0 <= n <= |run| ==> more[..n] == run[..n];
  }

  lemma CalmOnward(run: seq<Action>, a: Action)
    requires Exec(run).Some?
    ensures CalmTakes(run + [a]) <==> CalmTakes(run) && (a.Take? ==> !ChanFull(Exec(run).value))
  {
    assert (run + [a])[..|run|] == run;
  }

  /**
   The exact condition for order: a run is safe at every point, whatever follows short of another
   connection, if and only if it never opens a connection while a message sits in another one's channel.
   */
  lemma {:induction false} OrderIffCalm(run: seq<Action>)
    requires Exec(run).Some?
    ensures SafeThroughout(run) <==> CalmTakes(run)
    decreases |run|
  {
    if run == [] {
      CalmIsSafe(run);
      assert forall n :: 0 <= n <= |run| ==> run[..n] == run;
    } else {
      var before, last := run[..|run| - 1], run[|run| - 1];
      assert run == before + [last];
      OrderIffCalm(before);
      SafeOnward(before, last);
      CalmOnward(before, last);
      if CalmTakes(before) && last.Take? {
        TakeIsSafeIff(before, Exec(before).value);
      } else if CalmTakes(run) {
        CalmIsSafe(run);
      }
    }
  }

  /** Two overlapping connections: a later message overtakes one that was put back. */
  lemma OverlapBreaksOrder() returns (run: seq<Action>, b: Box)
    ensures Exec(run) == Some(b) && !CalmTakes(run)
    ensures b.delivered == [Message(1, "b"), Message(0, "a")]
  {
    run, b := Then([], Empty(), Take);
    run, b := Then(run, b, Push("a", None));
    run, b := Then(run, b, Take);
    run, b := Then(run, b, Expire(0));
    assert b.waiter == Some(1) && b.q == [Queued(Message(0, "a"), None)];
    run, b := Then(run, b, Push("b", None));
    run, b := Then(run, b, Receive(1));
    run, b := Then(run, b, Take);
    assert b.delivered[0].no > b.delivered[1].no;
    if CalmTakes(run) {
      MailboxFifo(run, b);
      assert false;
    }
  }

  // ---- cancelling -------------------------------------------------------------------------------

  /** A queued call survives its cancellation exactly when it has no reply channel. */
  lemma SurvivesCancelIff(b: Box, it: Queued)
    requires it in b.q && it.msg.id != ""
    ensures it in Apply(b, Cancel(it.msg.id)).q <==> it.reply == None
  {
    KeptMembers(b.q, it.msg.id, it);
  }

  /** A call that was put back has none: it is delivered although it was cancelled before. */
  lemma PutBackSurvivesCancel(id: string, reply: ReplyId) returns (run: seq<Action>, b: Box)
    requires id != ""
    ensures Exec(run) == Some(b) && run == [Take, Push(id, Some(reply)), Expire(0), Cancel(id), Take]
    ensures b.delivered == [Message(0, id)] && id !in b.waitReply
  {
    run, b := Then([], Empty(), Take);
    run, b := Then(run, b, Push(id, Some(reply)));
    run, b := Then(run, b, Expire(0));
    var late := Queued(Message(0, id), None);
    assert b.q == [late];
    assert Kept([late], id) == [late] + Kept([late][1..], id) == [late];
    run, b := Then(run, b, Cancel(id));
    assert b.q == [late];
    run, b := Then(run, b, Take);
  }
}
