/**
 Where callbacks end up, in both directions: what decides how a callback ends, and that a code comes back to
 the client whose authorize request it answers.
 */
module OAuthRouting {
  import opened Basics
  import opened Url
  import opened Params
  import opened TokenForm
  import opened Flows
  import opened OAuthMachine
  import opened OAuthInvariant
  import opened OAuthSteps
  import opened OAuthTheorems
  import OneShot
  import Relay

  // ----- what decides how a callback ends -----

  predicate Claimed(e: Ending) {
    e.AuthError? || e.Handled?
  }

  /** The place of a callback's take in the log of the flows. */
  function FlowPlace(e: Ending): Option<nat> {
    match e
    case AuthError(flowAt) => Some(flowAt)
    case Handled(flowAt, _, _) => Some(flowAt)
    case Relayed(missAt, _, _, _) => missAt
    case Rejected(missAt, _) => missAt
  }

  /** What was stored and unconsumed for the state when the callback looked. */
  function LiveFlow(fops: seq<OneShot.Op<Flow>>, raw: Str, e: Ending): Option<Flow> {
    var place := FlowPlace(e);
    if place.Some? && place.value <= |fops| then OneShot.Live(fops[..place.value], Relay.StateOf(raw)) else None
  }

  function LiveRedirect(rops: seq<OneShot.Op<Str>>, raw: Str, e: Ending): Option<Str>
    requires !Claimed(e)
  {
    if e.at <= |rops| then OneShot.Live(rops[..e.at], Relay.StateOf(raw)) else None
  }

  lemma FlowDecides(cfg: Config, t: nat, raw: Str, e: Ending, rops: seq<OneShot.Op<Str>>, fops: seq<OneShot.Op<Flow>>)
    requires EndingOk(cfg, t, raw, e, rops, fops) && OneShot.Consistent(fops)
    ensures Claimed(e) <==> LiveFlow(fops, raw, e).Some?
    ensures Claimed(e) ==> (e.AuthError? <==> Get(ParseQuery(raw), ERROR) != "")
    ensures e.Handled? ==> LiveFlow(fops, raw, e) == Some(e.flow)
    ensures FlowPlace(e).Some? ==>
      FlowPlace(e).value < |fops| &&
      fops[FlowPlace(e).value] == OneShot.Took(t, Relay.StateOf(raw), LiveFlow(fops, raw, e))
    ensures cfg.diagEnabled ==> FlowPlace(e).Some?
  {
  }

  lemma RedirectDecides(cfg: Config, t: nat, raw: Str, e: Ending, rops: seq<OneShot.Op<Str>>,
                        fops: seq<OneShot.Op<Flow>>)
    requires EndingOk(cfg, t, raw, e, rops, fops) && OneShot.Consistent(rops) && !Claimed(e)
    ensures e.at < |rops| && rops[e.at] == OneShot.Took(t, Relay.StateOf(raw), LiveRedirect(rops, raw, e))
    ensures if LiveRedirect(rops, raw, e).Some?
            then e.Relayed? && e.redirect == LiveRedirect(rops, raw, e).value else e.Rejected?
  {
  }

  /**
   A callback is claimed exactly when a /testlogin flow was live for its state when it looked, and is then an
   authorize error exactly when it has an error parameter. Otherwise it is relayed, to the live redirect, exactly
   when there was one, and rejected exactly when there was none.
   */
  lemma CallbackDecision(cfg: Config, s: State, t: nat)
    requires Reachable(cfg, s) && t < |s.threads| && s.threads[t].CDone?
    ensures
      var raw, e := s.threads[t].raw, s.threads[t].ending;
      && (cfg.diagEnabled ==> FlowPlace(e).Some?)
      && (FlowPlace(e).Some? ==>
            var at := FlowPlace(e).value;
            at < |s.flows.ops| && s.flows.ops[at] == OneShot.Took(t, Relay.StateOf(raw), LiveFlow(s.flows.ops, raw, e)))
      && (Claimed(e) <==> LiveFlow(s.flows.ops, raw, e).Some?)
      && (Claimed(e) ==> (e.AuthError? <==> Get(ParseQuery(raw), ERROR) != ""))
      && (e.Handled? ==> LiveFlow(s.flows.ops, raw, e) == Some(e.flow))
      && (!Claimed(e) ==>
            var live := LiveRedirect(s.redirects.ops, raw, e);
            && e.at < |s.redirects.ops| && s.redirects.ops[e.at] == OneShot.Took(t, Relay.StateOf(raw), live)
            && (if live.Some? then e.Relayed? && e.redirect == live.value else e.Rejected?))
  {
    ReachableInv(cfg, s);
    InvThread(cfg, s, t);
    var raw, e := s.threads[t].raw, s.threads[t].ending;
    FlowDecides(cfg, t, raw, e, s.redirects.ops, s.flows.ops);
    if !Claimed(e) {
      RedirectDecides(cfg, t, raw, e, s.redirects.ops, s.flows.ops);
    }
  }

  // ----- every save that was made is in the log -----

  function RedirectOf(raw: Str): Str {
    Get(ParseQuery(raw), REDIRECT_URI)
  }

  predicate HasSaved(th: Thread) {
    th.ASaved? || th.ADone?
  }

  predicate HasStarted(th: Thread) {
    th.LSaved? || th.LDone?
  }

  function FlowOf(th: Thread): Flow
    requires HasStarted(th)
  {
    Flow(th.verifier, Get(ParseQuery(th.raw), SECRET) != "0")
  }

  ghost predicate SavedOk(threads: seq<Thread>, ops: seq<OneShot.Op<Str>>) {
    forall t :: 0 <= t < |threads| && HasSaved(threads[t]) ==>
      OneShot.Saved(t, Relay.StateOf(threads[t].raw), RedirectOf(threads[t].raw)) in ops
  }

  ghost predicate StartedOk(threads: seq<Thread>, ops: seq<OneShot.Op<Flow>>) {
    forall t :: 0 <= t < |threads| && HasStarted(threads[t]) ==>
      OneShot.Saved(t, threads[t].state, FlowOf(threads[t])) in ops
  }

  /** The request has sent its browser straight to the server. */
  predicate SentThere(th: Thread) {
    th.ADone? || (th.LDone? && Get(ParseQuery(th.raw), VIAPROXY) == "0")
  }

  /** The authorize queries the server received are those that requests have sent to it. */
  ghost predicate SentOk(threads: seq<Thread>, requests: seq<Sent>) {
    && (forall i :: 0 <= i < |requests| ==>
          requests[i].who < |threads| && SentThere(threads[requests[i].who]) &&
          threads[requests[i].who].wire == requests[i].wire)
    && (forall t :: 0 <= t < |threads| && SentThere(threads[t]) ==> Sent(t, threads[t].wire) in requests)
  }

  /** Every code answers one of those queries, and is bound to its redirect_uri. */
  ghost predicate AnswersOk(server: Server) {
    && server.answers.Keys == server.bound.Keys
    && forall code <- server.answers ::
         && server.answers[code] < |server.requests|
         && server.bound[code] == Get(ParseQuery(server.requests[server.answers[code]].wire), REDIRECT_URI)
  }

  ghost predicate RoutingOk(s: State) {
    && SavedOk(s.threads, s.redirects.ops) && StartedOk(s.threads, s.flows.ops)
    && SentOk(s.threads, s.server.requests) && AnswersOk(s.server)
  }

  lemma SavedMoves(threads: seq<Thread>, ops: seq<OneShot.Op<Str>>, ops': seq<OneShot.Op<Str>>, t: nat, th: Thread)
    requires SavedOk(threads, ops) && t < |threads| && ops <= ops'
    requires HasSaved(th) ==> OneShot.Saved(t, Relay.StateOf(th.raw), RedirectOf(th.raw)) in ops'
    ensures SavedOk(threads[t := th], ops')
  {
    assert forall op :: op in ops ==> op in ops';
  }

  lemma StartedMoves(threads: seq<Thread>, ops: seq<OneShot.Op<Flow>>, ops': seq<OneShot.Op<Flow>>, t: nat, th: Thread)
    requires StartedOk(threads, ops) && t < |threads| && ops <= ops'
    requires HasStarted(th) ==> OneShot.Saved(t, th.state, FlowOf(th)) in ops'
    ensures StartedOk(threads[t := th], ops')
  {
    assert forall op :: op in ops ==> op in ops';
  }

  lemma SentMoves(threads: seq<Thread>, requests: seq<Sent>, t: nat, th: Thread)
    requires SentOk(threads, requests) && t < |threads|
    requires !SentThere(threads[t]) && !SentThere(th)
    ensures SentOk(threads[t := th], requests)
  {
  }

  lemma Sends(threads: seq<Thread>, requests: seq<Sent>, t: nat, th: Thread)
    requires SentOk(threads, requests) && t < |threads|
    requires !SentThere(threads[t]) && SentThere(th)
    ensures SentOk(threads[t := th], requests + [Sent(t, th.wire)])
  {
    assert forall r :: r in requests ==> r in requests + [Sent(t, th.wire)];
  }

  lemma TableSaved(cfg: Config, s: State, t: nat, step: TableStep)
    requires SavedOk(s.threads, s.redirects.ops) && TableEnabled(cfg, s, t, step)
    ensures var s' := TableApply(cfg, s, t, step); SavedOk(s'.threads, s'.redirects.ops)
  {
    var s' := TableApply(cfg, s, t, step);
    SavedMoves(s.threads, s.redirects.ops, s'.redirects.ops, t, TableNext(cfg, s, t, step));
  }

  lemma TableStarted(cfg: Config, s: State, t: nat, step: TableStep)
    requires StartedOk(s.threads, s.flows.ops) && TableEnabled(cfg, s, t, step)
    ensures var s' := TableApply(cfg, s, t, step); StartedOk(s'.threads, s'.flows.ops)
  {
    var s' := TableApply(cfg, s, t, step);
    StartedMoves(s.threads, s.flows.ops, s'.flows.ops, t, TableNext(cfg, s, t, step));
  }

  lemma SendOnSent(cfg: Config, s: State, t: nat, keys: seq<Str>)
    requires SentOk(s.threads, s.server.requests) && TableEnabled(cfg, s, t, SendOn(keys))
    ensures var s' := TableApply(cfg, s, t, SendOn(keys)); SentOk(s'.threads, s'.server.requests)
  {
    var th := TableNext(cfg, s, t, SendOn(keys));
    if SentThere(th) {
      Sends(s.threads, s.server.requests, t, th);
    } else {
      SentMoves(s.threads, s.server.requests, t, th);
    }
  }

  lemma TableSent(cfg: Config, s: State, t: nat, step: TableStep)
    requires SentOk(s.threads, s.server.requests) && TableEnabled(cfg, s, t, step)
    ensures var s' := TableApply(cfg, s, t, step); SentOk(s'.threads, s'.server.requests)
  {
    if step.SendOn? {
      SendOnSent(cfg, s, t, step.keys);
    } else {
      SentMoves(s.threads, s.server.requests, t, TableNext(cfg, s, t, step));
    }
  }

  lemma TableAnswers(cfg: Config, s: State, t: nat, step: TableStep)
    requires AnswersOk(s.server) && TableEnabled(cfg, s, t, step)
    ensures AnswersOk(TableApply(cfg, s, t, step).server)
  {
  }

  /** A step that leaves the two tables and the authorize queries alone. */
  lemma RoutingMoves(s: State, s': State, t: nat, th: Thread)
    requires RoutingOk(s) && t < |s.threads| && s'.threads == s.threads[t := th]
    requires s'.redirects == s.redirects && s'.flows == s.flows
    requires s'.server.requests == s.server.requests && s'.server.bound == s.server.bound
    requires s'.server.answers == s.server.answers
    requires !HasSaved(s.threads[t]) && !HasStarted(s.threads[t]) && !HasSaved(th) && !HasStarted(th)
    ensures RoutingOk(s')
  {
    SavedMoves(s.threads, s.redirects.ops, s.redirects.ops, t, th);
    StartedMoves(s.threads, s.flows.ops, s.flows.ops, t, th);
    SentMoves(s.threads, s.server.requests, t, th);
  }

  lemma RoutingArrives(s: State, th: Thread)
    requires RoutingOk(s) && !HasSaved(th) && !HasStarted(th)
    ensures RoutingOk(s.(threads := s.threads + [th]))
  {
  }

  lemma TokenRouting(cfg: Config, s: State, s': State, t: nat, step: TokenStep)
    requires RoutingOk(s) && TokenEnabled(cfg, s, t, step) && s' == TokenApply(cfg, s, t, step)
    ensures RoutingOk(s')
  {
    TokenFrame(cfg, s, t, step);
    RoutingMoves(s, s', t, s'.threads[t]);
  }

  lemma TableRouting(cfg: Config, s: State, t: nat, step: TableStep)
    requires RoutingOk(s) && TableEnabled(cfg, s, t, step)
    ensures RoutingOk(TableApply(cfg, s, t, step))
  {
    TableSaved(cfg, s, t, step);
    TableStarted(cfg, s, t, step);
    TableSent(cfg, s, t, step);
    TableAnswers(cfg, s, t, step);
  }

  lemma ServerRouting(s: State, step: ServerStep)
    requires RoutingOk(s) && ServerEnabled(s, step)
    ensures RoutingOk(ServerApply(s, step))
  {
  }

  lemma ArriveRouting(cfg: Config, s: State, request: Request)
    requires RoutingOk(s)
    ensures RoutingOk(s.(threads := s.threads + [NewThread(cfg, request)]))
  {
    RoutingArrives(s, NewThread(cfg, request));
  }

  lemma PostRouting(cfg: Config, s: State, t: nat, step: PostStep)
    requires RoutingOk(s) && PostEnabled(cfg, s, t, step)
    ensures RoutingOk(PostApply(cfg, s, t, step))
  {
    var moved := s.(threads := s.threads[t := PostNext(cfg, s, t, step)]);
    RoutingMoves(s, moved, t, PostNext(cfg, s, t, step));
    if step.Post? {
      RoutingArrives(moved, PostedRequest(cfg, s.threads[t], step.keys, step.readable));
    }
  }

  lemma StepRouting(cfg: Config, s: State, a: Action)
    requires RoutingOk(s) && Enabled(cfg, s, a)
    ensures RoutingOk(Apply(cfg, s, a))
  {
    match a
    case Arrive(request) => ArriveRouting(cfg, s, request);
    case OnToken(t, step) => TokenRouting(cfg, s, TokenApply(cfg, s, t, step), t, step);
    case OnTable(t, step) => TableRouting(cfg, s, t, step);
    case OnPost(t, step) => PostRouting(cfg, s, t, step);
    case OnServer(step) => ServerRouting(s, step);
  }

  lemma {:induction false} RunRouting(cfg: Config, s: State, actions: seq<Action>)
    requires RoutingOk(s) && Schedule(cfg, s, actions)
    ensures RoutingOk(Run(cfg, s, actions))
    decreases |actions|
  {
    if actions != [] {
      StepRouting(cfg, s, actions[0]);
      RunRouting(cfg, Apply(cfg, s, actions[0]), actions[1..]);
    }
  }

  /** Requests that were answered have left their redirect or flow in the log, and codes answer authorize queries. */
  lemma ReachableRouting(cfg: Config, s: State)
    requires Reachable(cfg, s)
    ensures RoutingOk(s)
  {
    var actions :| Schedule(cfg, START, actions) && Run(cfg, START, actions) == s;
    RunRouting(cfg, START, actions);
  }

  /**
   Where a /testlogin request leaves its browser: its flow is in the log under its state, its query asks for a
   code with the flow's challenge, and it goes straight to the server exactly when `viaproxy` is 0.
   */
  lemma LoginLeaves(cfg: Config, s: State, t: nat)
    requires Reachable(cfg, s) && t < |s.threads| && s.threads[t].LDone?
    ensures
      var th := s.threads[t];
      && OneShot.Saved(t, th.state, Flow(th.verifier, Get(ParseQuery(th.raw), SECRET) != "0")) in s.flows.ops
      && AsksForCode(ParseQuery(th.wire), cfg, th.state, th.challenge)
      && (Sent(t, th.wire) in s.server.requests <==> Get(ParseQuery(th.raw), VIAPROXY) == "0")
  {
    ReachableInv(cfg, s);
    InvThread(cfg, s, t);
    ReachableRouting(cfg, s);
    LoginParameters(cfg, s.threads[t].state, s.threads[t].challenge);
  }

  // ----- a code comes back to its client -----

  /** The state the server sends back is the one the client asked with. */
  lemma StatePassedOn(cfg: Config, s: State, a: nat)
    requires Reachable(cfg, s) && a < |s.threads| && s.threads[a].ADone?
    ensures Relay.StateOf(s.threads[a].wire) == Relay.StateOf(s.threads[a].raw)
  {
    ReachableInv(cfg, s);
    InvThread(cfg, s, a);
    var q := ParseQuery(s.threads[a].raw);
    ParsedForm(ParsePairs(s.threads[a].raw));
    AuthorizeForm(cfg, q);
    assert STATE !in {RESOURCE, REDIRECT_URI} by { assert |STATE| == 5 && |RESOURCE| == 8 && |REDIRECT_URI| == 12; }
  }

  /** The authorize query that a code answers, and the request that sent it. */
  function QueryOf(s: State, code: Str): Sent
    requires AnswersOk(s.server) && code in s.server.answers
  {
    s.server.requests[s.server.answers[code]]
  }

  predicate RelayedUnder(th: Thread, state: Str) {
    th.CDone? && th.ending.Relayed? && Relay.StateOf(th.raw) == state
  }

  lemma SaveLogged(threads: seq<Thread>, ops: seq<OneShot.Op<Str>>, a: nat) returns (j: nat)
    requires SavedOk(threads, ops) && a < |threads| && threads[a].ADone?
    ensures j < |ops| && ops[j] == OneShot.Saved(a, Relay.StateOf(threads[a].raw), RedirectOf(threads[a].raw))
  {
    j :| 0 <= j < |ops| && ops[j] == OneShot.Saved(a, Relay.StateOf(threads[a].raw), RedirectOf(threads[a].raw));
  }

  lemma OnlyOneRelayed(cfg: Config, s: State, t: nat, state: Str)
    requires Reachable(cfg, s) && OneShot.SavedOnce(s.redirects.ops, state)
    requires t < |s.threads| && RelayedUnder(s.threads[t], state)
    ensures forall u :: 0 <= u < |s.threads| && RelayedUnder(s.threads[u], state) ==> u == t
  {
    forall u | 0 <= u < |s.threads| && RelayedUnder(s.threads[u], state)
      ensures u == t
    {
      FreshRouting(cfg, s, t, u, 0, [], 0);
    }
  }

  /** Of the requests that have saved, the one whose save a relayed callback consumed is told by its state. */
  lemma AuthorByState(cfg: Config, s: State, j: nat, author: nat, state: Str, a: nat)
    requires Reachable(cfg, s) && RoutingOk(s) && OneShot.SavedOnce(s.redirects.ops, state)
    requires j < |s.redirects.ops| && s.redirects.ops[j].Saved?
    requires s.redirects.ops[j].who == author && s.redirects.ops[j].key == state
    requires author < |s.threads| && HasSaved(s.threads[author]) && Relay.StateOf(s.threads[author].raw) == state
    requires a < |s.threads| && (s.threads[a].ADone? || s.threads[a].LDone?)
    ensures author == a <==> s.threads[a].ADone? && state == Relay.StateOf(s.threads[a].wire)
  {
    if s.threads[a].ADone? {
      StatePassedOn(cfg, s, a);
      var i := SaveLogged(s.threads, s.redirects.ops, a);
    }
  }

  /**
   To whom a relayed code goes. The redirect is looked up by the callback's state alone. When that state was
   saved once, the client it reaches is the one whose authorize query the code answers exactly when the query
   came through /authorize and the callback carries its state; and no other callback with the state is relayed.
   */
  lemma CodeReachesItsClient(cfg: Config, s: State, t: nat, code: Str) returns (author: nat, j: nat)
    requires Reachable(cfg, s)
    requires t < |s.threads| && s.threads[t].CDone? && s.threads[t].ending.Relayed?
    requires OneShot.SavedOnce(s.redirects.ops, Relay.StateOf(s.threads[t].raw))
    requires code == Get(ParseQuery(s.threads[t].raw), CODE) && code in s.server.answers
    ensures j < s.threads[t].ending.at < |s.redirects.ops|
    ensures s.redirects.ops[j] == OneShot.Saved(author, Relay.StateOf(s.threads[t].raw), s.threads[t].ending.redirect)
    ensures author < |s.threads|
    ensures SavedBy(s.threads[author], Relay.StateOf(s.threads[t].raw), s.threads[t].ending.redirect)
    ensures
      && AnswersOk(s.server) && QueryOf(s, code).who < |s.threads|
      && var asker := s.threads[QueryOf(s, code).who];
         (author == QueryOf(s, code).who <==>
          asker.ADone? && Relay.StateOf(s.threads[t].raw) == Relay.StateOf(QueryOf(s, code).wire))
    ensures forall u ::
      0 <= u < |s.threads| && RelayedUnder(s.threads[u], Relay.StateOf(s.threads[t].raw)) ==> u == t
  {
    ReachableRouting(cfg, s);
    author, j := CallbackRouting(cfg, s, t);
    AuthorByState(cfg, s, j, author, Relay.StateOf(s.threads[t].raw), QueryOf(s, code).who);
    OnlyOneRelayed(cfg, s, t, Relay.StateOf(s.threads[t].raw));
  }

  // ----- someone is served -----

  /** A callback that arrives after `s` does its takes after everything in the logs of `s`. */
  lemma TakesLater(cfg: Config, s: State, e: State, t: nat)
    requires RedirectTakersOk(s.threads, s.redirects.ops) && Inv(cfg, e) && s.redirects.ops <= e.redirects.ops
    requires |s.threads| <= t < |e.threads| && e.threads[t].CDone? && !Claimed(e.threads[t].ending)
    ensures |s.redirects.ops| <= e.threads[t].ending.at < |e.redirects.ops|
    ensures e.redirects.ops[e.threads[t].ending.at] ==
            OneShot.Took(t, Relay.StateOf(e.threads[t].raw),
                         LiveRedirect(e.redirects.ops, e.threads[t].raw, e.threads[t].ending))
  {
    InvThread(cfg, e, t);
    RedirectDecides(cfg, t, e.threads[t].raw, e.threads[t].ending, e.redirects.ops, e.flows.ops);
    assert forall i :: 0 <= i < |s.redirects.ops| && s.redirects.ops[i].Took? ==>
      e.redirects.ops[i] == s.redirects.ops[i] && s.redirects.ops[i].who < |s.threads|;
  }

  lemma FreshDead(ops: seq<OneShot.Op<Str>>, j: nat, at: nat, a: nat, state: Str, redirect: Str) returns (x: nat)
    requires OneShot.Consistent(ops) && OneShot.SavedOnce(ops, state)
    requires j < at <= |ops| && ops[j] == OneShot.Saved(a, state, redirect) && OneShot.Live(ops[..at], state).None?
    ensures j < x < at && ops[x].Took? && ops[x].key == state && ops[x].result == Some(redirect)
  {
    OneShot.ConsistentPrefix(ops, at);
    x := OneShot.DeadWasTaken(ops[..at], j, state);
  }

  lemma RelayerOf(cfg: Config, e: State, x: nat)
    requires Inv(cfg, e) && x < |e.redirects.ops| && e.redirects.ops[x].Took? && e.redirects.ops[x].result.Some?
    ensures
      var op := e.redirects.ops[x];
      && op.who < |e.threads| && RelayedUnder(e.threads[op.who], op.key)
      && e.threads[op.who].ending.redirect == op.result.value
  {
    ConsumerOfRedirect(cfg, e, x);
    InvThread(cfg, e, e.redirects.ops[x].who);
  }

  /** A save that is no longer live when someone looks was taken by a callback that has been relayed. */
  lemma TakenByRelayed(cfg: Config, e: State, j: nat, at: nat, a: nat, state: Str, redirect: Str) returns (u: nat)
    requires Inv(cfg, e) && OneShot.SavedOnce(e.redirects.ops, state)
    requires j < at <= |e.redirects.ops| && e.redirects.ops[j] == OneShot.Saved(a, state, redirect)
    requires OneShot.Live(e.redirects.ops[..at], state).None?
    ensures u < |e.threads| && RelayedUnder(e.threads[u], state) && e.threads[u].ending.redirect == redirect
  {
    var x := FreshDead(e.redirects.ops, j, at, a, state, redirect);
    RelayerOf(cfg, e, x);
    u := e.redirects.ops[x].who;
  }

  /**
   Once an /authorize request is answered whose state is saved once, the callbacks that arrive for its state and
   that no flow claims are served: whenever there is one, exactly one callback with that state is relayed, to that
   request's own redirect_uri, and the others are rejected.
   */
  lemma OneCallbackIsServed(cfg: Config, s: State, actions: seq<Action>, a: nat, t: nat) returns (u: nat)
    requires Reachable(cfg, s) && Schedule(cfg, s, actions)
    requires a < |s.threads| && s.threads[a].ADone?
    requires OneShot.SavedOnce(Run(cfg, s, actions).redirects.ops, Relay.StateOf(s.threads[a].wire))
    requires |s.threads| <= t < |Run(cfg, s, actions).threads|
    requires var th := Run(cfg, s, actions).threads[t];
             th.CDone? && !Claimed(th.ending) && Relay.StateOf(th.raw) == Relay.StateOf(s.threads[a].wire)
    ensures
      var e := Run(cfg, s, actions);
      && u < |e.threads| && RelayedUnder(e.threads[u], Relay.StateOf(s.threads[a].wire))
      && e.threads[u].ending.redirect == RedirectOf(s.threads[a].raw)
      && (forall v :: 0 <= v < |e.threads| && RelayedUnder(e.threads[v], Relay.StateOf(s.threads[a].wire)) ==> v == u)
      && (if u == t then e.threads[t].ending.Relayed? else e.threads[t].ending.Rejected?)
  {
    var e := Run(cfg, s, actions);
    ReachableInv(cfg, s);
    ReachableRouting(cfg, s);
    ReachableRun(cfg, s, actions);
    ReachableInv(cfg, e);
    LogsGrow(cfg, s, actions);
    StatePassedOn(cfg, s, a);
    TakesLater(cfg, s, e, t);
    var j := SaveLogged(s.threads, s.redirects.ops, a);
    u := ServedBy(cfg, e, a, t, j, RedirectOf(s.threads[a].raw));
    OnlyOneRelayed(cfg, e, u, Relay.StateOf(s.threads[a].wire));
  }

  lemma ServedBy(cfg: Config, e: State, a: nat, t: nat, j: nat, redirect: Str) returns (u: nat)
    requires Reachable(cfg, e) && Inv(cfg, e)
    requires t < |e.threads| && e.threads[t].CDone? && !Claimed(e.threads[t].ending)
    requires OneShot.SavedOnce(e.redirects.ops, Relay.StateOf(e.threads[t].raw))
    requires j < e.threads[t].ending.at < |e.redirects.ops|
    requires e.redirects.ops[j] == OneShot.Saved(a, Relay.StateOf(e.threads[t].raw), redirect)
    ensures u < |e.threads| && RelayedUnder(e.threads[u], Relay.StateOf(e.threads[t].raw))
    ensures e.threads[u].ending.redirect == redirect
    ensures if u == t then e.threads[t].ending.Relayed? else e.threads[t].ending.Rejected?
  {
    var th := e.threads[t];
    InvThread(cfg, e, t);
    RedirectDecides(cfg, t, th.raw, th.ending, e.redirects.ops, e.flows.ops);
    if th.ending.Relayed? {
      u := t;
      FreshRouting(cfg, e, t, t, a, redirect, j);
    } else {
      u := TakenByRelayed(cfg, e, j, th.ending.at, a, Relay.StateOf(th.raw), redirect);
    }
  }
}
