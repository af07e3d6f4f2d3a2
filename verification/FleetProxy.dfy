/**
 Failover in the gateway's proxy: one client request, tried on one node after
 another, and never on a second node once the first may have begun to work.
 */
module FleetProxy {
  import opened Options
  import opened FleetRegistry
  import opened FleetScheduler

  datatype Failure =
    | ClientCancelled | RequestBuildFailed | ConnectBeforeHeaders | AmbiguousUpstream | ProxyError | NodeBusy
    | ResponseError | ResponseBuildFailed | UpstreamStreamError | StreamDeliveryError

  /** What becomes of a response after its headers. */
  datatype Aftermath = Readable | ReadCancelled | ReadFailed | Unbuildable

  datatype Upstream =
    | StartCancelled
    | CannotBuild
    | SendCancelled
    | ConnectError | ConnectTimeout | PoolTimeout
    | HttpError
    | OtherError
    | Headers(status: nat, errorHeader: Option<string>, aftermath: Aftermath)

  datatype Refusal = ModelNotFound | CapabilityNotSupported | QueueFull | QueueTimeout

  /** The scheduler's answer, and if it is a reservation what the node then does. */
  datatype Turn = Refused(refusal: Refusal) | Granted(node: NodeId, route: RouteId, upstream: Upstream)

  datatype Reply =
    | Declined(refusal: Refusal)
    | UpstreamFailure
    | Raised
    | Streaming(route: RouteId, status: nat)
    | CapacityBusy
    | NoEligibleNode

  datatype Verdict = BusyRetry | ConnectRetry | Final(reply: Reply)

  datatype Event =
    | Reserved(route: RouteId, node: NodeId)
    | Admitted(route: RouteId)
    | Released(route: RouteId)
    | Finished(route: RouteId, status: Option<nat>, failure: Option<Failure>)

  /** The answers of scheduler and nodes to the i-th attempt, given the nodes already tried. */
  type Environment = (nat, set<NodeId>) -> Turn

  // ----- one attempt

  /** The outcome proves that the node did no work: no connection came about, or the
      node's manager refused the request as busy. */
  predicate Harmless(u: Upstream) {
    || u.ConnectError? || u.ConnectTimeout? || u.PoolTimeout?
    || (u.Headers? && u.status == 429 && u.errorHeader == Some("node_busy"))
  }

  predicate ProvenBusy(u: Upstream) { u.Headers? && u.status == 429 && u.errorHeader == Some("node_busy") }

  function VerdictOf(route: RouteId, u: Upstream): Verdict {
    match u
    case StartCancelled => Final(Raised)
    case CannotBuild => Final(UpstreamFailure)
    case SendCancelled => Final(Raised)
    case ConnectError => ConnectRetry
    case ConnectTimeout => ConnectRetry
    case PoolTimeout => ConnectRetry
    case HttpError => Final(UpstreamFailure)
    case OtherError => Final(UpstreamFailure)
    case Headers(status, header, aftermath) =>
      if ProvenBusy(u) then BusyRetry
      else match aftermath
        case Readable => Final(Streaming(route, status))
        case ReadCancelled => Final(Raised)
        case ReadFailed => Final(UpstreamFailure)
        case Unbuildable => Final(UpstreamFailure)
  }

  function FailureOf(u: Upstream): Failure {
    match u
    case StartCancelled => ClientCancelled
    case CannotBuild => RequestBuildFailed
    case SendCancelled => ClientCancelled
    case ConnectError => ConnectBeforeHeaders
    case ConnectTimeout => ConnectBeforeHeaders
    case PoolTimeout => ConnectBeforeHeaders
    case HttpError => AmbiguousUpstream
    case OtherError => ProxyError
    case Headers(status, header, aftermath) =>
      if ProvenBusy(u) then NodeBusy
      else if aftermath == ReadCancelled then ClientCancelled
      else if aftermath == Unbuildable then ResponseBuildFailed
      else ResponseError
  }

  function Completion(route: RouteId, status: Option<nat>, failure: Option<Failure>): seq<Event> {
    [Released(route), Finished(route, status, failure)]
  }

  function AttemptLog(node: NodeId, route: RouteId, u: Upstream): seq<Event> {
    [Reserved(route, node)]
    + (if u.Headers? && !ProvenBusy(u) then [Admitted(route)] else [])
    + (if VerdictOf(route, u).Final? && VerdictOf(route, u).reply.Streaming? then []
       else Completion(route, if u.Headers? then Some(u.status) else None, Some(FailureOf(u))))
  }

  // ----- the conversation

  datatype Conversation = Conversation(log: seq<Event>, turns: seq<Turn>, reply: Reply)

  function Exhausted(tried: set<NodeId>, onlyBusy: bool): Reply {
    if tried != {} && onlyBusy then CapacityBusy else NoEligibleNode
  }

  function Play(env: Environment, i: nat, left: nat, tried: set<NodeId>, onlyBusy: bool): Conversation
    decreases left
  {
    if left == 0 then Conversation([], [], Exhausted(tried, onlyBusy))
    else
      var turn := env(i, tried);
      if turn.Refused? then Conversation([], [], Declined(turn.refusal))
      else
        var log, verdict := AttemptLog(turn.node, turn.route, turn.upstream), VerdictOf(turn.route, turn.upstream);
        if verdict.Final? then Conversation(log, [turn], verdict.reply)
        else
          var rest := Play(env, i + 1, left - 1, tried + {turn.node}, onlyBusy && verdict.BusyRetry?);
          Conversation(log + rest.log, [turn] + rest.turns, rest.reply)
  }

  function MaxAttempts(nodeCount: nat): nat { if nodeCount == 0 then 1 else nodeCount }

  function Request(env: Environment, nodeCount: nat): Conversation { Play(env, 0, MaxAttempts(nodeCount), {}, true) }

  // ----- the program

  /** The gateway side that all routes share; `log` is what was done, in order. */
  class Gateway {
    var log: seq<Event>

    constructor ()
      ensures log == []
    {
      log := [];
    }
  }

  /** Exactly-once ownership of a reservation. */
  class RouteOwnership {
    const route: RouteId
    var completed: bool
    var responseStatus: Option<nat>
    var streamFailure: Option<Failure>

    constructor (route: RouteId)
      ensures this.route == route && !completed && responseStatus == None && streamFailure == None
    {
      this.route := route;
      completed, responseStatus, streamFailure := false, None, None;
    }

    method AttachResponse(status: nat)
      modifies this`responseStatus
      ensures responseStatus == Some(status)
    {
      responseStatus := Some(status);
    }

    /** The first failure is the one recorded. */
    method NoteStreamFailure(code: Failure)
      modifies this`streamFailure
      ensures streamFailure == if old(streamFailure).Some? then old(streamFailure) else Some(code)
    {
      if streamFailure.None? {
        streamFailure := Some(code);
      }
    }

    /** Only the first call does anything. */
    method Complete(g: Gateway, status: Option<nat>, failure: Option<Failure>)
      modifies this`completed, g
      ensures completed
      ensures g.log == old(g.log) + if old(completed) then [] else Completion(route, status, failure)
    {
      if !completed {
        completed := true;
        g.log := g.log + [Released(route)];
        g.log := g.log + [Finished(route, status, failure)];
      }
    }
  }

  method Attempt(g: Gateway, node: NodeId, route: RouteId, u: Upstream)
      returns (verdict: Verdict, owner: RouteOwnership)
    modifies g
    ensures verdict == VerdictOf(route, u)
    ensures g.log == old(g.log) + AttemptLog(node, route, u)
    ensures fresh(owner) && owner.route == route && owner.streamFailure.None?
    ensures owner.completed <==> !(verdict.Final? && verdict.reply.Streaming?)
  {
    owner := new RouteOwnership(route);
    g.log := g.log + [Reserved(route, node)];
    match u {
      case StartCancelled =>
        owner.Complete(g, None, Some(ClientCancelled));
        verdict := Final(Raised);
      case CannotBuild =>
        owner.Complete(g, None, Some(RequestBuildFailed));
        verdict := Final(UpstreamFailure);
      case SendCancelled =>
        owner.Complete(g, None, Some(ClientCancelled));
        verdict := Final(Raised);
      case HttpError =>
        owner.Complete(g, None, Some(AmbiguousUpstream));
        verdict := Final(UpstreamFailure);
      case OtherError =>
        owner.Complete(g, None, Some(ProxyError));
        verdict := Final(UpstreamFailure);
      case Headers(status, header, aftermath) =>
        owner.AttachResponse(status);
        if status == 429 && header == Some("node_busy") {
          owner.Complete(g, Some(429), Some(NodeBusy));
          return BusyRetry, owner;
        }
        g.log := g.log + [Admitted(route)];
        match aftermath {
          case ReadCancelled =>
            owner.Complete(g, Some(status), Some(ClientCancelled));
            verdict := Final(Raised);
          case ReadFailed =>
            owner.Complete(g, Some(status), Some(ResponseError));
            verdict := Final(UpstreamFailure);
          case Unbuildable =>
            owner.Complete(g, Some(status), Some(ResponseBuildFailed));
            verdict := Final(UpstreamFailure);
          case Readable =>
            verdict := Final(Streaming(route, status));
        }
      case _ =>
        owner.Complete(g, None, Some(ConnectBeforeHeaders));
        verdict := ConnectRetry;
    }
  }

  /** A streaming reply comes with the ownership of its reservation. */
  method Handle(g: Gateway, env: Environment, nodeCount: nat) returns (reply: Reply, owned: Option<RouteOwnership>)
    modifies g
    ensures g.log == old(g.log) + Request(env, nodeCount).log
    ensures reply == Request(env, nodeCount).reply
    ensures owned.Some? <==> reply.Streaming?
    ensures owned.Some? ==>
      && fresh(owned.value) && owned.value.route == reply.route && !owned.value.completed
      && owned.value.streamFailure.None?
  {
    var tried: set<NodeId> := {};
    var onlyBusy := true;
    var max := MaxAttempts(nodeCount);
    ghost var whole := Request(env, nodeCount);
    for i := 0 to max
      invariant g.log + Play(env, i, max - i, tried, onlyBusy).log == old(g.log) + whole.log
      invariant Play(env, i, max - i, tried, onlyBusy).reply == whole.reply
    {
      var turn := env(i, tried);
      if turn.Refused? {
        return Declined(turn.refusal), None;
      }
      ghost var before := g.log;
      var verdict, owner := Attempt(g, turn.node, turn.route, turn.upstream);
      if verdict.Final? {
        return verdict.reply, if verdict.reply.Streaming? then Some(owner) else None;
      }
      if verdict.ConnectRetry? {
        onlyBusy := false;
      }
      tried := tried + {turn.node};
      Regroup(before, AttemptLog(turn.node, turn.route, turn.upstream),
        Play(env, i + 1, max - i - 1, tried, onlyBusy).log);
    }
    return Exhausted(tried, onlyBusy), None;
  }

  lemma Regroup(a: seq<Event>, b: seq<Event>, c: seq<Event>)
    ensures a + (b + c) == a + b + c
  {
  }

  /** How a client's stream ends. */
  datatype Ending = Drained | Disconnected | UpstreamBroke | DeliveryBroke

  /** The outer lifetime of a streaming response. */
  method Serve(g: Gateway, owner: RouteOwnership, status: nat, ending: Ending)
    modifies g, owner
    ensures owner.completed
    ensures g.log == old(g.log) +
      if old(owner.completed) then [] else Completion(owner.route, Some(status), owner.streamFailure)
    ensures old(owner.streamFailure).None? ==> (owner.streamFailure.None? <==> ending.Drained?)
  {
    match ending {
      case Drained =>
      case Disconnected => owner.NoteStreamFailure(ClientCancelled);
      case UpstreamBroke =>
        owner.NoteStreamFailure(UpstreamStreamError);
        owner.NoteStreamFailure(StreamDeliveryError);
      case DeliveryBroke => owner.NoteStreamFailure(StreamDeliveryError);
    }
    owner.Complete(g, Some(status), owner.streamFailure);
  }

  // ----- at most one node works

  /** What a client may rely on: one reservation at a time, returned before the next,
      and nothing reserved once a node has admitted the request. */
  datatype Phase = Free | Holding(route: RouteId) | Serving(route: RouteId) | Over | Broken

  function Next(p: Phase, e: Event): Phase {
    match e
    case Reserved(r, n) => if p == Free then Holding(r) else Broken
    case Admitted(r) => if p == Holding(r) then Serving(r) else Broken
    case Released(r) => if p == Holding(r) then Free else if p == Serving(r) then Over else Broken
    case Finished(r, status, failure) => if p == Free || p == Over then p else Broken
  }

  function Watch(p: Phase, log: seq<Event>): Phase
    decreases |log|
  {
    if log == [] then p else Watch(Next(p, log[0]), log[1..])
  }

  lemma {:induction false} WatchSplits(p: Phase, a: seq<Event>, b: seq<Event>)
    ensures Watch(p, a + b) == Watch(Watch(p, a), b)
    decreases |a|
  {
    if a == [] {
      assert a + b == b;
    } else {
      assert (a + b)[0] == a[0] && (a + b)[1..] == a[1..] + b;
      WatchSplits(Next(p, a[0]), a[1..], b);
    }
  }

  lemma WatchCompletion(p: Phase, route: RouteId, status: Option<nat>, failure: Option<Failure>)
    ensures p == Holding(route) ==> Watch(p, Completion(route, status, failure)) == Free
    ensures p == Serving(route) ==> Watch(p, Completion(route, status, failure)) == Over
  {
    var log := Completion(route, status, failure);
    var released := Next(p, Released(route));
    assert log[1..] == [Finished(route, status, failure)];
    assert Watch(released, log[1..]) == Watch(Next(released, Finished(route, status, failure)), []);
  }

  lemma WatchAttempt(node: NodeId, route: RouteId, u: Upstream)
    ensures var p, v := Watch(Free, AttemptLog(node, route, u)), VerdictOf(route, u);
      if v.Final? && v.reply.Streaming? then p == Serving(route)
      else p == if u.Headers? && !ProvenBusy(u) then Over else Free
  {
    var first: seq<Event> := [Reserved(route, node)];
    var second: seq<Event> := if u.Headers? && !ProvenBusy(u) then [Admitted(route)] else [];
    var p := Watch(Holding(route), second);
    assert Watch(Free, first) == Holding(route);
    WatchSplits(Free, first, second);
    var v := VerdictOf(route, u);
    if v.Final? && v.reply.Streaming? {
      assert AttemptLog(node, route, u) == first + second;
    } else {
      var status := if u.Headers? then Some(u.status) else None;
      WatchSplits(Free, first + second, Completion(route, status, Some(FailureOf(u))));
      WatchCompletion(p, route, status, Some(FailureOf(u)));
    }
  }

  /** The request left for the node and nothing proves that no engine worked on it. */
  predicate MayHaveWorked(u: Upstream) { !u.StartCancelled? && !u.CannotBuild? && !Harmless(u) }

  ghost predicate TurnsSound(turns: seq<Turn>, tried: set<NodeId>) {
    && (forall k :: 0 <= k < |turns| ==> turns[k].Granted? && turns[k].node !in tried)
    && (forall j, k :: 0 <= j < k < |turns| ==> turns[j].node != turns[k].node)
    && (forall k :: 0 <= k < |turns| - 1 ==> !MayHaveWorked(turns[k].upstream))
  }

  /** Candidate `c` is what the scheduler chooses for `demand`, which excludes the nodes tried. */
  ghost predicate ChosenFor(tried: set<NodeId>, v: View, demand: Demand, c: Candidate) {
    demand.excluded == tried && demand.capability in demand.model.capabilities && Chosen(v, demand, c)
  }

  /** Every grant is such a choice. */
  ghost predicate Scheduled(env: Environment) {
    forall i, tried :: env(i, tried).Granted? ==>
      exists v, demand, c :: ChosenFor(tried, v, demand, c) && c.record.node == env(i, tried).node
  }

  lemma ScheduledIsHonest(env: Environment)
    requires Scheduled(env)
    ensures Honest(env)
  {
    forall i, tried | env(i, tried).Granted? ensures env(i, tried).node !in tried {
      var v, demand, c :| ChosenFor(tried, v, demand, c) && c.record.node == env(i, tried).node;
      ChosenIsReportedEligible(v, demand, c);
    }
  }

  /** An excluded node is never granted. */
  ghost predicate Honest(env: Environment) {
    forall i, tried :: env(i, tried).Granted? ==> env(i, tried).node !in tried
  }

  lemma PlaySplits(env: Environment, i: nat, left: nat, tried: set<NodeId>, onlyBusy: bool)
    requires left > 0 && env(i, tried).Granted? && !VerdictOf(env(i, tried).route, env(i, tried).upstream).Final?
    ensures var turn := env(i, tried);
      var busy := VerdictOf(turn.route, turn.upstream).BusyRetry?;
      var all, rest := Play(env, i, left, tried, onlyBusy),
        Play(env, i + 1, left - 1, tried + {turn.node}, onlyBusy && busy);
      && all.log == AttemptLog(turn.node, turn.route, turn.upstream) + rest.log
      && all.turns == [turn] + rest.turns
      && all.reply == rest.reply
      && !MayHaveWorked(turn.upstream) && busy == ProvenBusy(turn.upstream)
  {
  }

  lemma {:induction false} PlayIsSound(env: Environment, i: nat, left: nat, tried: set<NodeId>, onlyBusy: bool)
    requires Honest(env)
    ensures var c := Play(env, i, left, tried, onlyBusy); |c.turns| <= left && TurnsSound(c.turns, tried)
    decreases left
  {
    if left > 0 && env(i, tried).Granted? && !VerdictOf(env(i, tried).route, env(i, tried).upstream).Final? {
      var turn := env(i, tried);
      PlaySplits(env, i, left, tried, onlyBusy);
      PlayIsSound(env, i + 1, left - 1, tried + {turn.node},
        onlyBusy && VerdictOf(turn.route, turn.upstream).BusyRetry?);
    }
  }

  lemma {:induction false} PlayIsWatched(env: Environment, i: nat, left: nat, tried: set<NodeId>, onlyBusy: bool)
    ensures var c := Play(env, i, left, tried, onlyBusy);
      if c.reply.Streaming? then Watch(Free, c.log) == Serving(c.reply.route) else Watch(Free, c.log) in {Free, Over}
    decreases left
  {
    if left > 0 && env(i, tried).Granted? {
      var turn := env(i, tried);
      WatchAttempt(turn.node, turn.route, turn.upstream);
      var verdict := VerdictOf(turn.route, turn.upstream);
      if !verdict.Final? {
        PlaySplits(env, i, left, tried, onlyBusy);
        var rest := Play(env, i + 1, left - 1, tried + {turn.node}, onlyBusy && verdict.BusyRetry?);
        PlayIsWatched(env, i + 1, left - 1, tried + {turn.node}, onlyBusy && verdict.BusyRetry?);
        WatchSplits(Free, AttemptLog(turn.node, turn.route, turn.upstream), rest.log);
      }
    }
  }

  /** At-most-once engine work: for one client request the nodes tried are pairwise
      distinct and no more than there are, only the last attempt can have worked, and
      every reservation is back before the next, save the one a stream still owns. */
  lemma AtMostOneNodeWorks(env: Environment, nodeCount: nat)
    requires Scheduled(env)
    ensures var c := Request(env, nodeCount);
      && |c.turns| <= MaxAttempts(nodeCount) && TurnsSound(c.turns, {})
      && if c.reply.Streaming? then Watch(Free, c.log) == Serving(c.reply.route) else Watch(Free, c.log) in {Free, Over}
  {
    ScheduledIsHonest(env);
    PlayIsSound(env, 0, MaxAttempts(nodeCount), {}, true);
    PlayIsWatched(env, 0, MaxAttempts(nodeCount), {}, true);
  }

  lemma CompletionEndsIt(env: Environment, nodeCount: nat, status: Option<nat>, failure: Option<Failure>)
    requires Request(env, nodeCount).reply.Streaming?
    ensures var c := Request(env, nodeCount); Watch(Free, c.log + Completion(c.reply.route, status, failure)) == Over
  {
    var c := Request(env, nodeCount);
    PlayIsWatched(env, 0, MaxAttempts(nodeCount), {}, true);
    WatchSplits(Free, c.log, Completion(c.reply.route, status, failure));
    WatchCompletion(Serving(c.reply.route), c.reply.route, status, failure);
  }

  /** One request from beginning to end: it is handled, a stream is served however it
      ends, and clean-up may ask for completion any number of times more.  All that is
      done keeps to the phases, a stream's reservation is back when it has been served,
      and the late completions do nothing. */
  method Converse(g: Gateway, env: Environment, nodeCount: nat, ending: Ending, late: seq<Option<Failure>>)
    returns (reply: Reply, ghost served: seq<Event>)
    modifies g
    ensures reply == Request(env, nodeCount).reply
    ensures g.log == old(g.log) + served
    ensures if reply.Streaming? then Watch(Free, served) == Over else Watch(Free, served) in {Free, Over}
    ensures Request(env, nodeCount).log <= served
  {
    var owned;
    reply, owned := Handle(g, env, nodeCount);
    served := Request(env, nodeCount).log;
    PlayIsWatched(env, 0, MaxAttempts(nodeCount), {}, true);
    if owned.Some? {
      var owner := owned.value;
      Serve(g, owner, reply.status, ending);
      ghost var completion := Completion(owner.route, Some(reply.status), owner.streamFailure);
      CompletionEndsIt(env, nodeCount, Some(reply.status), owner.streamFailure);
      Regroup(old(g.log), served, completion);
      served := served + completion;
      for i := 0 to |late|
        invariant owner.completed && g.log == old(g.log) + served
      {
        owner.Complete(g, Some(reply.status), late[i]);
      }
    }
  }

  predicate Retried(turn: Turn) { turn.Granted? && Harmless(turn.upstream) }

  predicate Busy(turn: Turn) { Retried(turn) && turn.upstream.Headers? }

  ghost predicate AllBusy(turns: seq<Turn>) { forall t :: t in turns ==> Busy(t) }

  ghost predicate AllRetried(turns: seq<Turn>) { forall t :: t in turns ==> Retried(t) }

  lemma AllOf(first: Turn, rest: seq<Turn>)
    ensures AllBusy([first] + rest) <==> Busy(first) && AllBusy(rest)
    ensures AllRetried([first] + rest) <==> Retried(first) && AllRetried(rest)
  {
    assert first in [first] + rest;
    assert forall t :: t in rest ==> t in [first] + rest;
  }

  // ----- what the client is told

  /** The client's request was cancelled during the attempt. */
  predicate Cancelled(u: Upstream) {
    u.StartCancelled? || u.SendCancelled? || (u.Headers? && u.aftermath.ReadCancelled?)
  }

  /** The reply that an attempt which is not harmless gives. */
  ghost predicate Answers(reply: Reply, turn: Turn) {
    turn.Granted? &&
    if turn.upstream.Headers? && turn.upstream.aftermath.Readable? then
      reply == Streaming(turn.route, turn.upstream.status)
    else if Cancelled(turn.upstream) then reply == Raised
    else reply == UpstreamFailure
  }

  function NodesOf(turns: seq<Turn>): set<NodeId> {
    set t | t in turns && t.Granted? :: t.node
  }

  lemma VerdictExactly(turn: Turn)
    requires turn.Granted?
    ensures var v := VerdictOf(turn.route, turn.upstream);
      && (v.Final? <==> !Harmless(turn.upstream))
      && (v.Final? ==> Answers(v.reply, turn))
      && (v.BusyRetry? <==> Busy(turn))
  {
  }

  /** How a conversation of `left` more attempts goes, in terms of the outcomes alone. */
  ghost predicate Told(env: Environment, i: nat, left: nat, tried: set<NodeId>, c: Conversation) {
    && |c.turns| <= left
    && (forall k :: 0 <= k < |c.turns| - 1 ==> Retried(c.turns[k]))
    && if c.turns != [] && !Retried(c.turns[|c.turns| - 1]) then Answers(c.reply, c.turns[|c.turns| - 1])
       else if |c.turns| == left then c.reply == CapacityBusy || c.reply == NoEligibleNode
       else
         var next := env(i + |c.turns|, tried + NodesOf(c.turns));
         next.Refused? && c.reply == Declined(next.refusal)
  }

  lemma NodesOfOneMore(turn: Turn, rest: seq<Turn>, tried: set<NodeId>)
    requires turn.Granted?
    ensures tried + NodesOf([turn] + rest) == tried + {turn.node} + NodesOf(rest)
  {
    assert forall t :: t in [turn] + rest <==> t == turn || t in rest;
  }

  lemma RetriedOneMore(turn: Turn, rest: seq<Turn>)
    requires Retried(turn) && forall k :: 0 <= k < |rest| - 1 ==> Retried(rest[k])
    ensures var turns := [turn] + rest; forall k :: 0 <= k < |turns| - 1 ==> Retried(turns[k])
  {
  }

  lemma ToldOneMore(env: Environment, i: nat, left: nat, tried: set<NodeId>, turn: Turn, rest: Conversation,
                    log: seq<Event>)
    requires left > 0 && Retried(turn) && Told(env, i + 1, left - 1, tried + {turn.node}, rest)
    ensures Told(env, i, left, tried, Conversation(log, [turn] + rest.turns, rest.reply))
  {
    RetriedOneMore(turn, rest.turns);
    NodesOfOneMore(turn, rest.turns, tried);
    var turns := [turn] + rest.turns;
    assert |turns| == |rest.turns| + 1;
    if rest.turns != [] {
      assert turns[|turns| - 1] == rest.turns[|rest.turns| - 1];
    } else {
      assert turns[|turns| - 1] == turn;
    }
  }

  lemma {:induction false} PlayTells(env: Environment, i: nat, left: nat, tried: set<NodeId>, onlyBusy: bool)
    ensures Told(env, i, left, tried, Play(env, i, left, tried, onlyBusy))
    decreases left
  {
    var c := Play(env, i, left, tried, onlyBusy);
    if left == 0 || env(i, tried).Refused? {
      assert c.turns == [] && NodesOf([]) == {};
      assert tried + {} == tried;
    } else {
      var turn := env(i, tried);
      VerdictExactly(turn);
      if Retried(turn) {
        PlaySplits(env, i, left, tried, onlyBusy);
        var busy := VerdictOf(turn.route, turn.upstream).BusyRetry?;
        PlayTells(env, i + 1, left - 1, tried + {turn.node}, onlyBusy && busy);
        ToldOneMore(env, i, left, tried, turn, Play(env, i + 1, left - 1, tried + {turn.node}, onlyBusy && busy),
          c.log);
      } else {
        assert c.turns == [turn];
      }
    }
  }

  /** Failover exactly: every attempt before the last was proved harmless; if the last was
      too, all attempts were used or the scheduler refused the next; and otherwise the
      last outcome alone decides the reply. */
  lemma RepliesExactly(env: Environment, nodeCount: nat)
    ensures Told(env, 0, if nodeCount == 0 then 1 else nodeCount, {}, Request(env, nodeCount))
  {
    PlayTells(env, 0, MaxAttempts(nodeCount), {}, true);
  }

  /** What is recorded of an attempt that does not stream. */
  lemma RecordExactly(turn: Turn)
    requires turn.Granted?
    ensures var u, log := turn.upstream, AttemptLog(turn.node, turn.route, turn.upstream);
      && log[0] == Reserved(turn.route, turn.node)
      && (Admitted(turn.route) in log <==> u.Headers? && !Harmless(u))
      && (Released(turn.route) in log <==> !(u.Headers? && u.aftermath.Readable? && !Harmless(u)))
      && (Released(turn.route) in log ==>
            var last := log[|log| - 1];
            && last.Finished? && last.route == turn.route
            && last.status == (if u.Headers? then Some(u.status) else None)
            && (last.failure == Some(ClientCancelled) <==> Cancelled(u) && !Harmless(u))
            && (last.failure == Some(NodeBusy) <==> Busy(turn))
            && (last.failure == Some(ConnectBeforeHeaders) <==> Harmless(u) && !u.Headers?)
            && (last.failure == Some(RequestBuildFailed) <==> u.CannotBuild?)
            && (last.failure == Some(AmbiguousUpstream) <==> u.HttpError?)
            && (last.failure == Some(ProxyError) <==> u.OtherError?))
  {
  }

  /** The last words of a conversation of `left` attempts that exhausts them. */
  ghost predicate Ended(c: Conversation, left: nat, onlyBusy: bool) {
    && (c.reply == CapacityBusy <==> |c.turns| == left && onlyBusy && AllBusy(c.turns))
    && (c.reply == NoEligibleNode <==>
          |c.turns| == left && AllRetried(c.turns) && !(onlyBusy && AllBusy(c.turns)))
  }

  lemma EndedOneMore(turn: Turn, rest: Conversation, left: nat, onlyBusy: bool, log: seq<Event>)
    requires left > 0 && Retried(turn) && Ended(rest, left - 1, onlyBusy && Busy(turn))
    ensures Ended(Conversation(log, [turn] + rest.turns, rest.reply), left, onlyBusy)
  {
    AllOf(turn, rest.turns);
  }

  lemma EndedNow(turn: Turn, reply: Reply, left: nat, onlyBusy: bool, log: seq<Event>)
    requires turn.Granted? && !Retried(turn) && Answers(reply, turn)
    ensures Ended(Conversation(log, [turn], reply), left, onlyBusy)
  {
    assert turn in [turn];
  }

  lemma {:induction false} PlayEnds(env: Environment, i: nat, left: nat, tried: set<NodeId>, onlyBusy: bool)
    requires tried != {} || left > 0
    ensures Ended(Play(env, i, left, tried, onlyBusy), left, onlyBusy)
    decreases left
  {
    if left > 0 && env(i, tried).Granted? {
      var turn := env(i, tried);
      var c := Play(env, i, left, tried, onlyBusy);
      VerdictExactly(turn);
      if Retried(turn) {
        PlaySplits(env, i, left, tried, onlyBusy);
        PlayEnds(env, i + 1, left - 1, tried + {turn.node}, onlyBusy && Busy(turn));
        EndedOneMore(turn, Play(env, i + 1, left - 1, tried + {turn.node}, onlyBusy && Busy(turn)), left, onlyBusy,
          c.log);
      } else {
        EndedNow(turn, c.reply, left, onlyBusy, c.log);
      }
    }
  }

  /** When the gateway gives up after trying every node, its answer tells whether all of
      them proved to be busy. */
  lemma GivingUpExactly(env: Environment, nodeCount: nat)
    ensures var c := Request(env, nodeCount);
      && (c.reply == CapacityBusy <==> |c.turns| == MaxAttempts(nodeCount) && AllBusy(c.turns))
      && (c.reply == NoEligibleNode <==>
            |c.turns| == MaxAttempts(nodeCount) && AllRetried(c.turns) && !AllBusy(c.turns))
  {
    PlayEnds(env, 0, MaxAttempts(nodeCount), {}, true);
  }
}
