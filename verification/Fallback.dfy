/**
 Forwarding one call along fallback aliases, and the connection counts it borrows. What the world does
 about an alias is a parameter: no alias is looked at twice in one call, so a function of the alias
 covers a world that changes from hop to hop.
 */
module Fallback {
  import opened Wrappers
  import opened Text
  import opened PassThrough

  type BackendId = int

  const MAX_HOPS := 4

  // ---- the world ----------------------------------------------------------------------------------

  datatype HubAnswer =
    | NotConfigured
    | HubBuildFailed
    | HubUnreachable
    | HubStream(code: Status)
    | HubBody(code: Status, restreamed: bool)

  datatype CodexAnswer = CodexNoSession | CodexFailed | CodexAnswered(code: Status)

  /** A grok call writes its own head, except for a failure and for 401. */
  datatype GrokAnswer = GrokNoSession | GrokFailed | GrokAnswered(code: Status)

  datatype HttpAnswer = BuildFailed | Unreachable | Answered(code: Status, chunks: seq<string>, mode: Mode)

  datatype Call =
    | HubCall(hub: HubAnswer)
    | CodexCall(codex: CodexAnswer)
    | GrokCall(grok: GrokAnswer)
    | HttpCall(http: HttpAnswer)

  datatype Backend = Backend(id: BackendId, call: Call)

  datatype World = World(
    fallback: string -> Option<string>,
    allows: string -> bool,
    pick: string -> Option<Backend>,
    blocks: string -> bool,
    mentionsBilling: string -> bool
  )

  const BAD_GATEWAY: Status := 502
  const UNAUTHORIZED: Status := 401
  const ERROR_LIMIT := 8192

  function FallbackOf(world: World, alias: string): string {
    match world.fallback(alias)
    case None => ""
    case Some(text) => if TrimSpace(text) == alias then "" else TrimSpace(text)
  }

  function ErrorBody(chunks: seq<string>): string {
    var text := Join(chunks);
    if |text| <= ERROR_LIMIT then text else text[..ERROR_LIMIT]
  }

  predicate IsBillingError(world: World, code: Status, text: string) {
    code == 402 || (world.mentionsBilling(text) && 400 <= code < 500)
  }

  // ---- what one alias comes to ----------------------------------------------------------------------

  /** The guard looks at the request once, at the first alias that has a backend. */
  predicate GuardBlocks(world: World, visited: seq<string>)
    requires visited != []
  {
    var last := visited[|visited| - 1];
    world.pick(last).Some? && world.blocks(last) && !GuardRan(world, visited[..|visited| - 1])
  }

  /** One of these aliases had a backend, so the guard has seen the request. */
  predicate GuardRan(world: World, visited: seq<string>) {
    exists i :: 0 <= i < |visited| && world.pick(visited[i]).Some?
  }

  function CallStatus(call: Call): Status {
    match call
    case HubCall(NotConfigured) => 502
    case HubCall(HubBuildFailed) => 500
    case HubCall(HubUnreachable) => 502
    case HubCall(HubStream(code)) => code
    case HubCall(HubBody(code, restreamed)) => if restreamed && code < 400 then 200 else code
    case CodexCall(CodexNoSession) => 400
    case CodexCall(CodexFailed) => 502
    case CodexCall(CodexAnswered(code)) => code
    case GrokCall(GrokNoSession) => 400
    case GrokCall(GrokFailed) => 502
    case GrokCall(GrokAnswered(code)) => code
    case HttpCall(BuildFailed) => 500
    case HttpCall(Unreachable) => 502
    case HttpCall(Answered(code, chunks, mode)) => if code < 400 && Stops(mode, Join(chunks)) then 400 else code
  }

  /** The status the client gets when the last alias of the walk decides. */
  function Answer(world: World, visited: seq<string>): Status {
    if visited == [] then BAD_GATEWAY
    else
      match world.pick(visited[|visited| - 1])
      case None => BAD_GATEWAY
      case Some(b) => if GuardBlocks(world, visited) then 400 else CallStatus(b.call)
  }

  /** Only a plain HTTP backend can be given up: unreachable, or out of credit. */
  predicate CallRetryable(world: World, call: Call) {
    match call
    case HttpCall(Unreachable) => true
    case HttpCall(Answered(code, chunks, mode)) => code >= 400 && IsBillingError(world, code, ErrorBody(chunks))
    case _ => false
  }

  /** The last alias has failed in a way another alias may make good. */
  predicate Retryable(world: World, visited: seq<string>)
    requires visited != []
  {
    match world.pick(visited[|visited| - 1])
    case None => true
    case Some(b) =>
      !GuardBlocks(world, visited) && CallRetryable(world, b.call)
  }

  // ---- the walk as a whole --------------------------------------------------------------------------

  /** Each alias but the first is the allowed fallback of a retryable one. */
  ghost predicate FollowsFallbacks(world: World, visited: seq<string>) {
    forall i :: 0 < i < |visited| ==>
      && Retryable(world, visited[..i])
      && visited[i] == FallbackOf(world, visited[i - 1])
      && visited[i] != ""
      && world.allows(visited[i])
  }

  ghost predicate Distinct(visited: seq<string>) {
    forall i, j :: 0 <= i < j < |visited| ==> visited[i] != visited[j]
  }

  /** The walk has nowhere left to go. */
  predicate Ends(world: World, visited: seq<string>)
    requires visited != []
  {
    var next := FallbackOf(world, visited[|visited| - 1]);
    !Retryable(world, visited) || |visited| == MAX_HOPS || next == "" || next in visited || !world.allows(next)
  }

  ghost predicate IsWalk(world: World, requested: string, visited: seq<string>) {
    && |visited| <= MAX_HOPS
    && Distinct(visited)
    && FollowsFallbacks(world, visited)
    && (visited == [] <==> requested == "")
    && (visited != [] ==> visited[0] == requested && Ends(world, visited))
  }

  /** A world and a requested alias leave room for one walk only. */
  lemma WalkIsUnique(world: World, requested: string, v: seq<string>, w: seq<string>)
    requires IsWalk(world, requested, v) && IsWalk(world, requested, w)
    ensures v == w
  {
    if |v| <= |w| {
      WalkIsPrefix(world, requested, v, w);
    } else {
      WalkIsPrefix(world, requested, w, v);
    }
  }

  lemma WalkIsPrefix(world: World, requested: string, v: seq<string>, w: seq<string>)
    requires IsWalk(world, requested, v) && IsWalk(world, requested, w) && |v| <= |w|
    ensures v == w
  {
    WalkAgrees(world, requested, v, w, |v|);
    assert w[..|v|] == v;
    if |v| < |w| && v != [] {
      WalkGoesOn(world, requested, w, |v|);
    }
  }

  /** A walk does not end before its last alias. */
  lemma WalkGoesOn(world: World, requested: string, w: seq<string>, n: nat)
    requires IsWalk(world, requested, w) && 0 < n < |w|
    ensures !Ends(world, w[..n])
  {
    assert w[n] == FallbackOf(world, w[n - 1]);
    assert w[n] !in w[..n];
  }

  lemma {:induction false} WalkAgrees(world: World, requested: string, v: seq<string>, w: seq<string>, n: nat)
    requires IsWalk(world, requested, v) && IsWalk(world, requested, w) && n <= |v| <= |w|
    ensures v[..n] == w[..n]
  {
    if n > 1 {
      WalkAgrees(world, requested, v, w, n - 1);
      assert v[..n - 1][n - 2] == w[..n - 1][n - 2];
      assert v[n - 1] == FallbackOf(world, v[n - 2]) && w[n - 1] == FallbackOf(world, w[n - 2]);
    }
  }

  // ---- connection counts ----------------------------------------------------------------------------

  datatype Event = Opened(id: BackendId) | Closed(id: BackendId)

  /** The call a history of openings and closings leaves open. */
  function Holding(t: seq<Event>): Option<BackendId> {
    if t == [] || t[|t| - 1].Closed? then None else Some(t[|t| - 1].id)
  }

  predicate CanFollow(held: Option<BackendId>, e: Event) {
    if e.Opened? then held == None else held == Some(e.id)
  }

  /** One call at a time, and only the open one is closed. */
  ghost predicate Alternates(t: seq<Event>)
    decreases |t|
  {
    t == [] || (Alternates(t[..|t| - 1]) && CanFollow(Holding(t[..|t| - 1]), t[|t| - 1]))
  }

  /** Every call that was opened is closed again. */
  ghost predicate Balanced(t: seq<Event>) {
    Alternates(t) && Holding(t) == None
  }

  lemma {:induction false} BalancedAppend(a: seq<Event>, b: seq<Event>)
    requires Balanced(a) && Alternates(b)
    ensures Alternates(a + b) && Holding(a + b) == Holding(b)
    decreases |b|
  {
    if b == [] {
      assert a + b == a;
    } else {
      BalancedAppend(a, b[..|b| - 1]);
      assert (a + b)[..|a + b| - 1] == a + b[..|b| - 1];
    }
  }

  lemma PairIsBalanced(id: BackendId)
    ensures Balanced([Opened(id), Closed(id)])
  {
    assert [Opened(id), Closed(id)][..1] == [Opened(id)];
    assert [Opened(id)][..0] == [];
    assert Alternates([Opened(id)]);
  }

  class Checker {
    var conn: map<BackendId, int>
    ghost var history: seq<Event>

    constructor ()
      ensures history == [] && forall id :: Conns(id) == 0
    {
      conn := map[];
      history := [];
    }

    function Conns(id: BackendId): int
      reads this
    {
      if id in conn then conn[id] else 0
    }

    method Inc(id: BackendId)
      modifies this
      ensures forall b :: Conns(b) == old(Conns(b)) + (if b == id then 1 else 0)
      ensures history == old(history) + [Opened(id)]
    {
      conn := conn[id := Conns(id) + 1];
      history := history + [Opened(id)];
    }

    method Dec(id: BackendId)
      modifies this
      ensures forall b :: Conns(b) == old(Conns(b)) - (if b == id && old(Conns(b)) > 0 then 1 else 0)
      ensures history == old(history) + [Closed(id)]
    {
      if Conns(id) > 0 {
        conn := conn[id := Conns(id) - 1];
      }
      history := history + [Closed(id)];
    }
  }

  // ---- the program ----------------------------------------------------------------------------------

  method ForwardHub(w: Response, a: HubAnswer) returns (status: Status)
    modifies w
    ensures status == CallStatus(HubCall(a)) && w.heads == old(w.heads) + [status]
  {
    match a
    case NotConfigured => status := 502; w.WriteHead(502);
    case HubBuildFailed => status := 500; w.WriteHead(500);
    case HubUnreachable => status := 502; w.WriteHead(502);
    case HubStream(code) => status := code; w.WriteHead(code);
    case HubBody(code, restreamed) =>
      if restreamed && code < 400 {
        status := 200;
        w.WriteHead(200);
      } else {
        status := code;
        w.WriteHead(code);
      }
  }

  method ForwardCodex(w: Response, health: Checker, id: BackendId, a: CodexAnswer) returns (status: Status)
    requires health.Conns(id) > 0
    modifies w, health
    ensures status == CallStatus(CodexCall(a)) && w.heads == old(w.heads) + [status]
    ensures forall b :: health.Conns(b) == old(health.Conns(b)) - (if b == id then 1 else 0)
    ensures health.history == old(health.history) + [Closed(id)]
  {
    match a {
      case CodexNoSession => status := 400; w.WriteHead(400);
      case CodexFailed => status := 502; w.WriteHead(502);
      case CodexAnswered(code) => status := code; w.WriteHead(code);
    }
    health.Dec(id);
  }

  /** `grok.Write`: the head is written unless the call failed or came back with 401. */
  method WriteGrok(w: Response, code: Status)
    modifies w
    ensures w.heads == if code == UNAUTHORIZED then old(w.heads) else old(w.heads) + [code]
  {
    if code != UNAUTHORIZED {
      w.WriteHead(code);
    }
  }

  method ForwardGrok(w: Response, health: Checker, id: BackendId, a: GrokAnswer) returns (status: Status)
    requires health.Conns(id) > 0
    modifies w, health
    ensures status == CallStatus(GrokCall(a)) && w.heads == old(w.heads) + [status]
    ensures forall b :: health.Conns(b) == old(health.Conns(b)) - (if b == id then 1 else 0)
    ensures health.history == old(health.history) + [Closed(id)]
  {
    match a {
      case GrokNoSession => status := 400; w.WriteHead(400);
      case GrokFailed => status := 502; w.WriteHead(502);
      case GrokAnswered(code) =>
        status := code;
        WriteGrok(w, code);
        if code == UNAUTHORIZED {
          w.WriteHead(code);
        }
    }
    health.Dec(id);
  }

  /** A call to a plain HTTP backend; `retry` tells that the next alias may be tried, and then no head is written. */
  method ForwardHttp(w: Response, health: Checker, id: BackendId, a: HttpAnswer, world: World, last: bool)
    returns (status: Status, retry: bool)
    requires health.Conns(id) > 0
    modifies w, health
    ensures forall b :: health.Conns(b) == old(health.Conns(b)) - (if b == id then 1 else 0)
    ensures health.history == old(health.history) + [Closed(id)]
    ensures status == CallStatus(HttpCall(a))
    ensures retry <==> !last && CallRetryable(world, HttpCall(a))
    ensures w.heads == if retry then old(w.heads) else old(w.heads) + [status]
  {
    retry := false;
    match a
    case BuildFailed =>
      health.Dec(id);
      status := 500;
      w.WriteHead(500);
    case Unreachable =>
      health.Dec(id);
      status := 502;
      if last {
        w.WriteHead(502);
      } else {
        retry := true;
      }
    case Answered(code, chunks, mode) =>
      status := code;
      if code >= 400 {
        var text := ErrorBody(chunks);
        health.Dec(id);
        if IsBillingError(world, code, text) && !last {
          return code, true;
        }
        w.WriteHead(code);
        var n := w.Write(text);
        return;
      }
      var passed := WriteUpstream(w, code, chunks, mode);
      health.Dec(id);
      if passed.Blocked? {
        status := 400;
        w.WriteHead(400);
      }
  }

  /** One call to the backend that was picked; the connection is counted while it is open. */
  method CallBackend(w: Response, health: Checker, b: Backend, world: World, last: bool)
    returns (status: Status, retry: bool)
    requires health.Conns(b.id) >= 0
    modifies w, health
    ensures status == CallStatus(b.call)
    ensures retry <==> !last && CallRetryable(world, b.call)
    ensures w.heads == if retry then old(w.heads) else old(w.heads) + [status]
    ensures forall id :: health.Conns(id) == old(health.Conns(id))
    ensures health.history == old(health.history) + [Opened(b.id), Closed(b.id)]
  {
    retry := false;
    health.Inc(b.id);
    match b.call
    case HubCall(a) =>
      status := ForwardHub(w, a);
      health.Dec(b.id);
    case CodexCall(a) => status := ForwardCodex(w, health, b.id, a);
    case GrokCall(a) => status := ForwardGrok(w, health, b.id, a);
    case HttpCall(a) => status, retry := ForwardHttp(w, health, b.id, a, world, last);
  }

  /**
   One alias of the walk: pick a backend, guard the request if that was not done, call. `retry` tells that
   the next alias may be tried, and then no head is written.
   */
  method TryAlias(w: Response, health: Checker, world: World, ghost visited: seq<string>, model: string,
                  guarded: bool, last: bool)
    returns (status: Status, retry: bool, guarded': bool, ghost calls: seq<Event>)
    requires visited != [] && visited[|visited| - 1] == model
    requires guarded <==> GuardRan(world, visited[..|visited| - 1])
    requires forall b :: health.Conns(b) >= 0
    modifies w, health
    ensures status == Answer(world, visited)
    ensures retry <==> !last && Retryable(world, visited)
    ensures w.heads == if retry then old(w.heads) else old(w.heads) + [status]
    ensures retry ==> (guarded' <==> guarded || world.pick(model).Some?)
    ensures forall b :: health.Conns(b) == old(health.Conns(b))
    ensures health.history == old(health.history) + calls && Balanced(calls)
  {
    retry, guarded', calls := false, guarded, [];
    var picked := world.pick(model);
    if picked == None {
      retry, status := !last, 502;
      if last {
        w.WriteHead(502);
      }
      return;
    }
    if !guarded {
      if world.blocks(model) {
        w.WriteHead(400);
        return 400, false, guarded, [];
      }
      guarded' := true;
    }
    status, retry := CallBackend(w, health, picked.value, world, last);
    calls := [Opened(picked.value.id), Closed(picked.value.id)];
    PairIsBalanced(picked.value.id);
  }

  /**
   One hop of the walk: either it is over, with one head, or it goes on to `next`, with none.
   */
  method Hop(w: Response, health: Checker, world: World, ghost requested: string, ghost before: seq<string>,
             model: string, tried: set<string>, guarded: bool)
    returns (status: Status, retry: bool, next: string, guarded': bool, ghost calls: seq<Event>)
    requires Walking(world, requested, before, model) && model != "" && |before| < MAX_HOPS
    requires before != [] ==> world.allows(model)
    requires forall alias :: alias in tried <==> alias in before + [model]
    requires guarded <==> GuardRan(world, before)
    requires forall b :: health.Conns(b) >= 0
    modifies w, health
    ensures status == Answer(world, before + [model])
    ensures !retry ==> IsWalk(world, requested, before + [model])
    ensures retry ==>
      Walking(world, requested, before + [model], next) && (guarded' <==> GuardRan(world, before + [model]))
    ensures w.heads == if retry then old(w.heads) else old(w.heads) + [status]
    ensures forall b :: health.Conns(b) == old(health.Conns(b))
    ensures health.history == old(health.history) + calls && Balanced(calls)
  {
    ghost var visited := before + [model];
    assert visited[..|visited| - 1] == before;
    WalkExtends(world, requested, before, model);
    next := FallbackOf(world, model);
    status, retry, guarded', calls := TryAlias(w, health, world, visited, model, guarded, next == "" || next in tried);
  }

  /**
   Forwards a call: one backend per hop, the next alias only after a failure it may make good. The client
   gets exactly one response head, with the status returned; the walk is the only one this world allows;
   and every connection count is as before.
   */
  method Forward(w: Response, health: Checker, world: World, requested: string)
    returns (status: Status, ghost visited: seq<string>, ghost calls: seq<Event>)
    requires forall b :: health.Conns(b) >= 0
    modifies w, health
    ensures IsWalk(world, requested, visited)
    ensures status == Answer(world, visited)
    ensures w.heads == old(w.heads) + [status]
    ensures forall b :: health.Conns(b) == old(health.Conns(b))
    ensures health.history == old(health.history) + calls && Balanced(calls)
  {
    var model, tried, lastStatus: Status, guarded := requested, {}, BAD_GATEWAY, false;
    visited, calls := [], [];
    var hop := 0;
    while hop < MAX_HOPS
      invariant hop == |visited| <= MAX_HOPS
      invariant forall alias :: alias in tried <==> alias in visited
      invariant Walking(world, requested, visited, model)
      invariant guarded <==> GuardRan(world, visited)
      invariant lastStatus == Answer(world, visited)
      invariant w.heads == old(w.heads)
      invariant forall b :: health.Conns(b) == old(health.Conns(b))
      invariant health.history == old(health.history) + calls && Balanced(calls)
      decreases MAX_HOPS - hop
    {
      if model == "" || model in tried {
        break;
      }
      tried := tried + {model};
      if hop > 0 && !world.allows(model) {
        break;
      }
      ghost var before, more := visited, [];
      visited := before + [model];
      var retry, next;
      status, retry, next, guarded, more := Hop(w, health, world, requested, before, model, tried, guarded);
      BalancedAppend(calls, more);
      calls := calls + more;
      if !retry {
        return;
      }
      lastStatus, model, hop := status, next, hop + 1;
    }
    WalkStops(world, requested, visited, model);
    status := lastStatus;
    w.WriteHead(lastStatus);
  }

  /** A walk that has come this far, and the alias it turns to next. */
  ghost predicate Walking(world: World, requested: string, visited: seq<string>, model: string) {
    && Distinct(visited) && FollowsFallbacks(world, visited)
    && (visited == [] ==> model == requested)
    && (visited != [] ==>
      && visited[0] == requested && requested != ""
      && Retryable(world, visited) && model == FallbackOf(world, visited[|visited| - 1])
      && model != "" && model !in visited)
  }

  /** A walk that can go no further is whole. */
  lemma WalkStops(world: World, requested: string, visited: seq<string>, model: string)
    requires Walking(world, requested, visited, model) && |visited| <= MAX_HOPS
    requires visited == [] || |visited| == MAX_HOPS || !world.allows(model)
    requires visited == [] ==> model == ""
    ensures IsWalk(world, requested, visited)
  {
  }

  /** What the walk and the guard know after one more alias. */
  lemma WalkExtends(world: World, requested: string, before: seq<string>, model: string)
    requires Walking(world, requested, before, model) && model != "" && |before| < MAX_HOPS
    requires before != [] ==> world.allows(model)
    ensures var visited := before + [model];
      && (Ends(world, visited) ==> IsWalk(world, requested, visited))
      && (Retryable(world, visited) ==>
        var next := FallbackOf(world, model);
        next == "" || next in visited || Walking(world, requested, visited, next))
      && (GuardRan(world, visited) <==> GuardRan(world, before) || world.pick(model).Some?)
      && (GuardBlocks(world, visited) <==> !GuardRan(world, before) && world.pick(model).Some? && world.blocks(model))
  {
    var visited := before + [model];
    assert visited[..|before|] == before;
    forall i | 0 < i < |visited|
      ensures && Retryable(world, visited[..i]) && visited[i] == FallbackOf(world, visited[i - 1])
              && visited[i] != "" && world.allows(visited[i])
    {
      if i < |before| {
        assert visited[..i] == before[..i];
      }
    }
    if GuardRan(world, before) {
      var i :| 0 <= i < |before| && world.pick(before[i]).Some?;
      assert visited[i] == before[i];
    }
    if world.pick(model).Some? {
      assert visited[|before|] == model;
    }
  }
}
