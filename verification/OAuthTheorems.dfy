/** What the OAuth endpoints promise, for every run and every interleaving. */
module OAuthTheorems {
  import opened Basics
  import opened Url
  import opened Params
  import opened TokenForm
  import opened Memo
  import opened Flows
  import opened OAuthMachine
  import opened OAuthInvariant
  import opened OAuthSteps
  import OneShot
  import Relay

  /** `s` is a state of some run of the server. */
  ghost predicate Reachable(cfg: Config, s: State) {
    exists actions :: Schedule(cfg, START, actions) && Run(cfg, START, actions) == s
  }

  lemma ReachableInv(cfg: Config, s: State)
    requires Reachable(cfg, s)
    ensures Inv(cfg, s)
  {
    var actions :| Schedule(cfg, START, actions) && Run(cfg, START, actions) == s;
    StartInv(cfg);
    RunInv(cfg, START, actions);
  }

  lemma RunFirst(cfg: Config, s: State, a: Action, rest: seq<Action>)
    requires Enabled(cfg, s, a) && Schedule(cfg, Apply(cfg, s, a), rest)
    ensures Schedule(cfg, s, [a] + rest)
    ensures Run(cfg, s, [a] + rest) == Run(cfg, Apply(cfg, s, a), rest)
  {
    assert ([a] + rest)[1..] == rest;
  }

  lemma RunApart(cfg: Config, s: State, actions: seq<Action>)
    requires Schedule(cfg, s, actions) && actions != []
    ensures Enabled(cfg, s, actions[0]) && Schedule(cfg, Apply(cfg, s, actions[0]), actions[1..])
    ensures Run(cfg, s, actions) == Run(cfg, Apply(cfg, s, actions[0]), actions[1..])
  {
  }

  lemma RunLonger(cfg: Config, s: State, s1: State, m: State, a: Action, rest: seq<Action>, next: seq<Action>)
    requires Enabled(cfg, s, a) && s1 == Apply(cfg, s, a)
    requires Schedule(cfg, m, next) && Schedule(cfg, s1, rest + next) && Run(cfg, s1, rest + next) == Run(cfg, m, next)
    ensures Schedule(cfg, s, [a] + rest + next)
    ensures Run(cfg, s, [a] + rest + next) == Run(cfg, m, next)
  {
    RunFirst(cfg, s, a, rest + next);
    Regroup([a], rest, next);
  }

  /** One run after another is a run. */
  lemma {:induction false} RunThenRun(cfg: Config, s: State, m: State, first: seq<Action>, next: seq<Action>)
    requires Schedule(cfg, s, first) && m == Run(cfg, s, first) && Schedule(cfg, m, next)
    ensures Schedule(cfg, s, first + next)
    ensures Run(cfg, s, first + next) == Run(cfg, m, next)
    decreases |first|
  {
    if first == [] {
      assert first + next == next;
    } else {
      var a, rest := first[0], first[1..];
      assert first == [a] + rest;
      RunApart(cfg, s, first);
      var s1 := Apply(cfg, s, a);
      RunThenRun(cfg, s1, m, rest, next);
      RunLonger(cfg, s, s1, m, a, rest, next);
    }
  }

  lemma ReachableRun(cfg: Config, s: State, actions: seq<Action>)
    requires Reachable(cfg, s) && Schedule(cfg, s, actions)
    ensures Reachable(cfg, Run(cfg, s, actions))
  {
    var first :| Schedule(cfg, START, first) && Run(cfg, START, first) == s;
    RunThenRun(cfg, START, s, first, actions);
  }

  // ----- /token refines an atomic memoised upstream -----

  /** What a redemption got, and what of it is in the cache. */
  ghost predicate Accounted(op: Op, cache: Cache) {
    match op.outcome
    case None => op.code in cache && op.reply == Passed(cache[op.code])
    case Some(BuildFailed) => op.reply == HttpError(500)
    case Some(TransportFailed) => op.reply == HttpError(502)
    case Some(Answered(r)) =>
      op.reply == Passed(r) && (op.code != "" && r.status == 200 ==> op.code in cache && cache[op.code] == r)
  }

  lemma OpAccounted(cache: Cache, ops: seq<Op>, i: nat)
    requires Legal(ops) && Remembers(cache, ops) && i < |ops|
    ensures Accounted(ops[i], cache)
  {
    var op := ops[i];
    assert LegalNext(ops[..i], op);
    assert ops[..i + 1] == ops[..i] + [op];
    FirstSuccessAppend(ops[..i], op, op.code);
    if FirstSuccess(ops[..i + 1], op.code).Some? {
      FirstSuccessPersists(ops, i + 1, op.code);
      var first := FirstSuccessIs(ops, op.code);
    }
  }

  /**
   In lock order the redemptions form a history of the atomic memoised upstream; each request occurs in it
   at most once; and a request that has its reply got the one recorded for it. The cache holds exactly the
   codes that got a 200 in the history, each with the response of that redemption.
   */
  lemma TokenRefinesMemo(cfg: Config, s: State)
    requires Reachable(cfg, s)
    ensures Legal(s.token.ops)
    ensures forall i, j :: 0 <= i < j < |s.token.ops| ==> s.token.ops[i].who != s.token.ops[j].who
    ensures forall t :: 0 <= t < |s.threads| && HasCommitted(s.threads[t]) ==>
      CommittedAs(s.token.ops, t, s.threads[t].code, s.threads[t].reply, s.threads[t].at)
    ensures forall code :: code != "" ==> OneShot.Found(s.token.cache, code) == FirstSuccess(s.token.ops, code)
    ensures forall i :: 0 <= i < |s.token.ops| ==> Accounted(s.token.ops[i], s.token.cache)
    ensures forall code <- s.token.cache ::
              && code != "" && s.token.cache[code].status == 200
              && exists i :: 0 <= i < |s.token.ops| && s.token.ops[i].code == code &&
                             s.token.ops[i].outcome == Some(Answered(s.token.cache[code]))
  {
    ReachableInv(cfg, s);
    forall i | 0 <= i < |s.token.ops|
      ensures Accounted(s.token.ops[i], s.token.cache)
    {
      OpAccounted(s.token.cache, s.token.ops, i);
    }
    forall code | code in s.token.cache
      ensures exists i :: 0 <= i < |s.token.ops| && s.token.ops[i].code == code &&
                          s.token.ops[i].outcome == Some(Answered(s.token.cache[code]))
    {
      var i := FirstSuccessIs(s.token.ops, code);
    }
    RememberedStatus(s.token.cache, s.token.ops);
    forall t | 0 <= t < |s.threads| && HasCommitted(s.threads[t])
      ensures CommittedAs(s.token.ops, t, s.threads[t].code, s.threads[t].reply, s.threads[t].at)
    {
      assert ThreadOk(cfg, t, s.threads[t], s.token, s.redirects.ops, s.flows.ops);
    }
  }

  /** A request whose body cannot be read is answered with a 400 at once, whoever holds the lock. */
  lemma UnreadableRefused(cfg: Config, s: State, auth: Str)
    ensures
      var a := Arrive(Token(None, auth));
      && Enabled(cfg, s, a)
      && var th := Apply(cfg, s, a).threads[|s.threads|];
         HasReply(th) && ReplyIn(th) == HttpError(400) && Apply(cfg, s, a) == s.(threads := s.threads + [th])
  {
  }

  /** Any two clients that see a success for the same code see the same response. */
  lemma ClientsSeeOneSuccess(cfg: Config, s: State, t: nat, u: nat)
    requires Reachable(cfg, s)
    requires t < |s.threads| && u < |s.threads| && HasCommitted(s.threads[t]) && HasCommitted(s.threads[u])
    requires s.threads[t].code == s.threads[u].code != ""
    requires s.threads[t].reply.Passed? && s.threads[t].reply.response.status == 200
    requires s.threads[u].reply.Passed? && s.threads[u].reply.response.status == 200
    ensures s.threads[t].reply == s.threads[u].reply
  {
    TokenRefinesMemo(cfg, s);
    assert CommittedAs(s.token.ops, t, s.threads[t].code, s.threads[t].reply, s.threads[t].at);
    assert CommittedAs(s.token.ops, u, s.threads[u].code, s.threads[u].reply, s.threads[u].at);
    SuccessesIdentical(s.token.ops, s.threads[t].at, s.threads[u].at);
  }

  lemma {:induction false} HistoryGrows(cfg: Config, s: State, actions: seq<Action>)
    requires Schedule(cfg, s, actions)
    ensures s.token.ops <= Run(cfg, s, actions).token.ops
    decreases |actions|
  {
    if actions != [] {
      HistoryGrows(cfg, Apply(cfg, s, actions[0]), actions[1..]);
    }
  }

  /** The history respects real time: who has its reply comes before everyone who asks afterwards. */
  lemma RealTimeOrder(cfg: Config, s: State, actions: seq<Action>, t: nat, u: nat)
    requires Inv(cfg, s) && Schedule(cfg, s, actions)
    requires t < |s.threads| && HasCommitted(s.threads[t])
    requires |s.threads| <= u < |Run(cfg, s, actions).threads| && HasCommitted(Run(cfg, s, actions).threads[u])
    ensures s.threads[t].at < Run(cfg, s, actions).threads[u].at < |Run(cfg, s, actions).token.ops|
    ensures s.token.ops <= Run(cfg, s, actions).token.ops
  {
    var e := Run(cfg, s, actions);
    RunInv(cfg, s, actions);
    HistoryGrows(cfg, s, actions);
    assert ThreadOk(cfg, t, s.threads[t], s.token, s.redirects.ops, s.flows.ops);
    assert ThreadOk(cfg, u, e.threads[u], e.token, e.redirects.ops, e.flows.ops);
    assert forall i :: 0 <= i < |s.token.ops| ==> e.token.ops[i] == s.token.ops[i] && s.token.ops[i].who < |s.threads|;
  }

  // ----- after a success -----

  /** The proxy holds this success for `code`: in the cache, or received and about to be stored. */
  ghost predicate Holds(s: State, code: Str, r: Response) {
    || (code in s.token.cache && s.token.cache[code] == r)
    || (exists t :: 0 <= t < |s.threads| && InFlightWith(s.threads[t], code, r))
  }

  predicate InFlightWith(th: Thread, code: Str, r: Response) {
    InFlight(th, code) && th.outcome.response == r
  }

  /** From `s` to `s'` nothing was sent upstream for `code`, and everyone who redeemed it got `r`. */
  ghost predicate OnlyReplays(s: State, s': State, code: Str, r: Response) {
    && s.token.calls <= s'.token.calls
    && s.token.ops <= s'.token.ops
    && (forall i :: |s.token.calls| <= i < |s'.token.calls| ==> s'.token.calls[i].code != code)
    && (forall i :: |s.token.ops| <= i < |s'.token.ops| && s'.token.ops[i].code == code ==>
          s'.token.ops[i].reply == Passed(r))
  }

  lemma TokenHolds(cfg: Config, s: State, t: nat, step: TokenStep, code: Str, r: Response)
    requires Inv(cfg, s) && TokenEnabled(cfg, s, t, step) && code != "" && Holds(s, code, r)
    ensures Holds(TokenApply(cfg, s, t, step), code, r)
    ensures OnlyReplays(s, TokenApply(cfg, s, t, step), code, r)
  {
    var s' := TokenApply(cfg, s, t, step);
    assert ThreadOk(cfg, t, s.threads[t], s.token, s.redirects.ops, s.flows.ops);
    TokenGrows(cfg, s, t, step);
    if !(code in s.token.cache && s.token.cache[code] == r) {
      var u :| 0 <= u < |s.threads| && InFlightWith(s.threads[u], code, r);
      assert ThreadOk(cfg, u, s.threads[u], s.token, s.redirects.ops, s.flows.ops);
      assert u == t;
    }
  }

  lemma MoveHolds(s: State, s': State, t: nat, code: Str, r: Response)
    requires Holds(s, code, r) && s'.token == s.token
    requires |s.threads| <= |s'.threads|
    requires t < |s.threads| ==> !s.threads[t].TAnswered?
    requires forall u :: 0 <= u < |s.threads| && u != t ==> s'.threads[u] == s.threads[u]
    ensures Holds(s', code, r) && OnlyReplays(s, s', code, r)
  {
    if !(code in s.token.cache && s.token.cache[code] == r) {
      var u :| 0 <= u < |s.threads| && InFlightWith(s.threads[u], code, r);
      assert InFlightWith(s'.threads[u], code, r);
    }
  }

  lemma StepHolds(cfg: Config, s: State, a: Action, code: Str, r: Response)
    requires Inv(cfg, s) && Enabled(cfg, s, a) && code != "" && Holds(s, code, r)
    ensures Holds(Apply(cfg, s, a), code, r)
    ensures OnlyReplays(s, Apply(cfg, s, a), code, r)
  {
    if a.OnToken? {
      TokenHolds(cfg, s, a.t, a.token, code, r);
    } else {
      var mover := if a.OnTable? || a.OnPost? then a.t else |s.threads|;
      MoveHolds(s, Apply(cfg, s, a), mover, code, r);
    }
  }

  lemma ReplaysCompose(s: State, m: State, e: State, code: Str, r: Response)
    requires OnlyReplays(s, m, code, r) && OnlyReplays(m, e, code, r)
    ensures OnlyReplays(s, e, code, r)
  {
    forall i | |s.token.calls| <= i < |e.token.calls|
      ensures e.token.calls[i].code != code
    {
      assert i < |m.token.calls| ==> e.token.calls[i] == m.token.calls[i];
    }
    forall i | |s.token.ops| <= i < |e.token.ops| && e.token.ops[i].code == code
      ensures e.token.ops[i].reply == Passed(r)
    {
      assert i < |m.token.ops| ==> e.token.ops[i] == m.token.ops[i];
    }
  }

  /**
   Once the proxy has received a success for a code, no continuation of the run sends that code upstream
   again, and every later redemption of it is answered with that success: nobody gets invalid_grant.
   */
  lemma {:induction false} NothingSentAfterSuccess(cfg: Config, s: State, actions: seq<Action>, code: Str, r: Response)
    requires Inv(cfg, s) && Schedule(cfg, s, actions) && code != "" && Holds(s, code, r)
    ensures Holds(Run(cfg, s, actions), code, r)
    ensures OnlyReplays(s, Run(cfg, s, actions), code, r)
    decreases |actions|
  {
    if actions != [] {
      var m := Apply(cfg, s, actions[0]);
      StepInv(cfg, s, actions[0]);
      StepHolds(cfg, s, actions[0], code, r);
      NothingSentAfterSuccess(cfg, m, actions[1..], code, r);
      ReplaysCompose(s, m, Run(cfg, m, actions[1..]), code, r);
    }
  }

  lemma StepGrows(cfg: Config, s: State, a: Action)
    requires Inv(cfg, s) && Enabled(cfg, s, a)
    ensures Grows(s.token.cache, Apply(cfg, s, a).token.cache)
  {
    if a.OnToken? {
      TokenGrows(cfg, s, a.t, a.token);
    }
  }

  /** A cached response stays, unchanged, for the rest of the run. */
  lemma {:induction false} CachedForever(cfg: Config, s: State, actions: seq<Action>, code: Str)
    requires Inv(cfg, s) && Schedule(cfg, s, actions) && code in s.token.cache
    ensures code in Run(cfg, s, actions).token.cache
    ensures Run(cfg, s, actions).token.cache[code] == s.token.cache[code]
    decreases |actions|
  {
    if actions != [] {
      StepInv(cfg, s, actions[0]);
      StepGrows(cfg, s, actions[0]);
      CachedForever(cfg, Apply(cfg, s, actions[0]), actions[1..], code);
    }
  }

  /**
   A code the authorization server has redeemed is cached whenever the token lock is free, unless the success
   was given to somebody else or got lost on the way back.
   */
  lemma RedeemedCodeIsCached(cfg: Config, s: State, code: Str)
    requires Reachable(cfg, s)
    requires code in s.server.spent && code !in s.server.outside && s.token.lock.None?
    ensures code in s.token.cache && s.token.cache[code].status == 200
  {
    ReachableInv(cfg, s);
    if code !in s.token.cache {
      var t :| 0 <= t < |s.threads| && InFlight(s.threads[t], code);
      assert HoldsToken(s.threads[t]);
      assert false;
    }
    assert code in s.server.bound;
    RememberedStatus(s.token.cache, s.token.ops);
  }

  // ----- /testlogin -----

  /**
   When the first of the two loopback exchanges of a code succeeds, the second has the same response, or it
   failed before the exchange, whatever other requests ran in between.
   */
  lemma TestLoginReplays(cfg: Config, s: State, t: nat)
    requires Reachable(cfg, s)
    requires t < |s.threads| && s.threads[t].CDone? && s.threads[t].ending.Handled?
    ensures
      var r := s.threads[t].ending.results;
      && |r| == 2
      && (r[0].Some? && r[0].value.Passed? && r[0].value.response.status == 200 ==>
            r[1] in [None, r[0], Some(HttpError(400))])
  {
    ReachableInv(cfg, s);
    InvThread(cfg, s, t);
  }

  // ----- redirect binding -----

  /**
   Whatever the client sent, a code exchange that reaches the token endpoint carries the pinned redirect_uri, to
   which its code is bound, and neither endpoint of the authorization server ever sees `resource`.
   */
  lemma RedirectBinding(cfg: Config, s: State, i: nat)
    requires Reachable(cfg, s)
    requires i < |s.token.calls|
    ensures ParseQuery(s.token.calls[i].wire) == Rewrite(cfg, ParseQuery(s.token.calls[i].body), s.token.calls[i].auth)
    ensures RESOURCE !in ParseQuery(s.token.calls[i].wire)
    ensures
      var form := ParseQuery(s.token.calls[i].wire);
      Get(form, GRANT_TYPE) == AUTHORIZATION_CODE ==>
        && Lookup(form, REDIRECT_URI) == [cfg.resource + "/callback"]
        && (Get(form, CODE) in s.server.bound ==> Get(form, REDIRECT_URI) == s.server.bound[Get(form, CODE)])
    ensures forall j :: 0 <= j < |s.server.requests| ==> RESOURCE !in ParseQuery(s.server.requests[j].wire)
  {
    ReachableInv(cfg, s);
    assert PinnedCall(cfg, s.token.calls[i]);
    forall j | 0 <= j < |s.server.requests|
      ensures RESOURCE !in ParseQuery(s.server.requests[j].wire)
    {
      assert PinnedRequest(cfg, s.server.requests[j].wire);
    }
  }

  // ----- routing -----

  /**
   A relayed callback goes to the redirect_uri of the /authorize request that most recently saved its state
   and had not been consumed. With /testlogin enabled, no flow was waiting under that state.
   */
  lemma CallbackRouting(cfg: Config, s: State, t: nat) returns (author: nat, j: nat)
    requires Reachable(cfg, s)
    requires t < |s.threads| && s.threads[t].CDone? && s.threads[t].ending.Relayed?
    ensures author < |s.threads|
    ensures SavedBy(s.threads[author], Relay.StateOf(s.threads[t].raw), s.threads[t].ending.redirect)
    ensures j < s.threads[t].ending.at < |s.redirects.ops|
    ensures s.redirects.ops[j] == OneShot.Saved(author, Relay.StateOf(s.threads[t].raw), s.threads[t].ending.redirect)
    ensures forall x :: j < x < s.threads[t].ending.at ==> s.redirects.ops[x].key != Relay.StateOf(s.threads[t].raw)
    ensures s.threads[t].ending.url == Relay.RelayUrl(s.threads[t].ending.redirect, s.threads[t].raw)
    ensures FlowMissed(cfg, s.flows.ops, t, s.threads[t].raw, s.threads[t].ending.missAt)
  {
    ReachableInv(cfg, s);
    RelayRecorded(cfg, s, t);
    j := OneShot.TakeReturnsLatestSave(s.redirects.ops, s.threads[t].ending.at);
    author := s.redirects.ops[j].who;
  }

  /** A handled callback redeems with the flow that the latest unconsumed /testlogin request for its state started. */
  lemma FlowRouting(cfg: Config, s: State, t: nat) returns (starter: nat, j: nat)
    requires Reachable(cfg, s)
    requires t < |s.threads| && s.threads[t].CDone? && s.threads[t].ending.Handled?
    ensures starter < |s.threads|
    ensures FlowSavedBy(s.threads[starter], Relay.StateOf(s.threads[t].raw), s.threads[t].ending.flow)
    ensures j < s.threads[t].ending.flowAt < |s.flows.ops|
    ensures s.flows.ops[j] == OneShot.Saved(starter, Relay.StateOf(s.threads[t].raw), s.threads[t].ending.flow)
    ensures forall x :: j < x < s.threads[t].ending.flowAt ==> s.flows.ops[x].key != Relay.StateOf(s.threads[t].raw)
    ensures Get(ParseQuery(s.threads[t].raw), ERROR) == ""
  {
    ReachableInv(cfg, s);
    InvThread(cfg, s, t);
    j := OneShot.TakeReturnsLatestSave(s.flows.ops, s.threads[t].ending.flowAt);
    starter := s.flows.ops[j].who;
  }

  /** When its state was saved once, only one callback with the state is relayed, to that save's client. */
  lemma FreshRouting(cfg: Config, s: State, t: nat, u: nat, author: nat, redirect: Str, i: nat)
    requires Reachable(cfg, s)
    requires t < |s.threads| && s.threads[t].CDone? && s.threads[t].ending.Relayed?
    requires OneShot.SavedOnce(s.redirects.ops, Relay.StateOf(s.threads[t].raw))
    ensures i < |s.redirects.ops| &&
            s.redirects.ops[i] == OneShot.Saved(author, Relay.StateOf(s.threads[t].raw), redirect)
            ==> s.threads[t].ending.redirect == redirect
    ensures u < |s.threads| && s.threads[u].CDone? && s.threads[u].ending.Relayed?
            && Relay.StateOf(s.threads[u].raw) == Relay.StateOf(s.threads[t].raw)
            ==> t == u
  {
    RelayRecorded(cfg, s, t);
    OneShot.FreshTakes(s.redirects.ops, s.threads[t].ending.at, i);
    if u < |s.threads| && s.threads[u].CDone? && s.threads[u].ending.Relayed? {
      RelayRecorded(cfg, s, u);
      OneShot.FreshTakes(s.redirects.ops, s.threads[t].ending.at, s.threads[u].ending.at);
    }
  }

  /** A relayed callback has its take in the redirect store's log. */
  lemma RelayRecorded(cfg: Config, s: State, t: nat)
    requires Reachable(cfg, s)
    requires t < |s.threads| && s.threads[t].CDone? && s.threads[t].ending.Relayed?
    ensures OneShot.Consistent(s.redirects.ops)
    ensures
      var th := s.threads[t];
      && th.ending.at < |s.redirects.ops|
      && s.redirects.ops[th.ending.at] == OneShot.Took(t, Relay.StateOf(th.raw), Some(th.ending.redirect))
      && th.ending.url == Relay.RelayUrl(th.ending.redirect, th.raw)
      && FlowMissed(cfg, s.flows.ops, t, th.raw, th.ending.missAt)
  {
    ReachableInv(cfg, s);
    InvThread(cfg, s, t);
  }

  predicate Consumes<V>(op: OneShot.Op<V>, t: nat) {
    op.Took? && op.who == t && op.result.Some?
  }

  /** A request that took something successfully has ended, relayed or claimed by its flow. */
  lemma ConsumerOfRedirect(cfg: Config, s: State, i: nat)
    requires Inv(cfg, s) && i < |s.redirects.ops| && s.redirects.ops[i].Took? && s.redirects.ops[i].result.Some?
    ensures
      var t := s.redirects.ops[i].who;
      t < |s.threads| && s.threads[t].CDone? && s.threads[t].ending.Relayed? && s.threads[t].ending.at == i
  {
    var t := s.redirects.ops[i].who;
    assert TookRedirect(s.threads[t], i);
    InvThread(cfg, s, t);
  }

  lemma ConsumerOfFlow(cfg: Config, s: State, i: nat)
    requires Inv(cfg, s) && i < |s.flows.ops| && s.flows.ops[i].Took? && s.flows.ops[i].result.Some?
    ensures
      var t := s.flows.ops[i].who;
      && t < |s.threads| && TookFlow(s.threads[t], i)
      && !(s.threads[t].CDone? && (s.threads[t].ending.Relayed? || s.threads[t].ending.Rejected?))
  {
    var t := s.flows.ops[i].who;
    assert TookFlow(s.threads[t], i);
    InvThread(cfg, s, t);
  }

  /** A request consumes at most one entry of the two tables together. */
  lemma AtMostOneEntryConsumed(cfg: Config, s: State, t: nat, i: nat, j: nat)
    requires Reachable(cfg, s)
    ensures i < |s.redirects.ops| && j < |s.redirects.ops| &&
            Consumes(s.redirects.ops[i], t) && Consumes(s.redirects.ops[j], t) ==>
      i == j
    ensures i < |s.flows.ops| && j < |s.flows.ops| && Consumes(s.flows.ops[i], t) && Consumes(s.flows.ops[j], t) ==>
      i == j
    ensures !(i < |s.redirects.ops| && j < |s.flows.ops| &&
              Consumes(s.redirects.ops[i], t) && Consumes(s.flows.ops[j], t))
  {
    ReachableInv(cfg, s);
    if i < |s.redirects.ops| && Consumes(s.redirects.ops[i], t) {
      ConsumerOfRedirect(cfg, s, i);
    }
    if j < |s.redirects.ops| && Consumes(s.redirects.ops[j], t) {
      ConsumerOfRedirect(cfg, s, j);
    }
    if i < |s.flows.ops| && Consumes(s.flows.ops[i], t) {
      ConsumerOfFlow(cfg, s, i);
    }
    if j < |s.flows.ops| && Consumes(s.flows.ops[j], t) {
      ConsumerOfFlow(cfg, s, j);
    }
  }

  /** Per state: every save was taken, overwritten, or is still stored. */
  lemma SavesConserved(cfg: Config, s: State, state: Str)
    requires Reachable(cfg, s)
    ensures OneShot.Saves(s.redirects.ops, state) ==
            OneShot.Takes(s.redirects.ops, state) + OneShot.Overwrites(s.redirects.ops, state) +
            if state in s.redirects.m then 1 else 0
    ensures OneShot.Saves(s.flows.ops, state) ==
            OneShot.Takes(s.flows.ops, state) + OneShot.Overwrites(s.flows.ops, state) +
            if state in s.flows.m then 1 else 0
  {
    ReachableInv(cfg, s);
    OneShot.Conservation(s.redirects.ops, state);
    OneShot.Conservation(s.flows.ops, state);
    assert OneShot.Found(s.redirects.m, state) == OneShot.Live(s.redirects.ops, state);
    assert OneShot.Found(s.flows.m, state) == OneShot.Live(s.flows.ops, state);
  }

  // ----- relay chains -----

  lemma {:induction false} LogsGrow(cfg: Config, s: State, actions: seq<Action>)
    requires Schedule(cfg, s, actions)
    ensures s.redirects.ops <= Run(cfg, s, actions).redirects.ops
    ensures s.flows.ops <= Run(cfg, s, actions).flows.ops
    decreases |actions|
  {
    if actions != [] {
      LogsGrow(cfg, Apply(cfg, s, actions[0]), actions[1..]);
    }
  }

  function Entries(s: State): nat {
    |s.redirects.m| + |s.flows.m|
  }

  function Consumed(s: State): nat {
    OneShot.AllTakes(s.redirects.ops) + OneShot.AllTakes(s.flows.ops)
  }

  function Added(s: State): nat {
    OneShot.AllSaves(s.redirects.ops) + OneShot.AllSaves(s.flows.ops)
  }

  /**
   Through any part of a run, the entries that callbacks consume are entries that were there or were added.
   However a relay chain is interleaved with other requests, it has at most as many consuming hops as there
   were entries and new saves; without new saves each hop removes one entry.
   */
  lemma HopsBoundedByEntries(cfg: Config, s: State, actions: seq<Action>)
    requires Inv(cfg, s) && Schedule(cfg, s, actions)
    ensures
      var e := Run(cfg, s, actions);
      && Consumed(e) - Consumed(s) <= Entries(s) - Entries(e) + Added(e) - Added(s)
      && (Added(e) == Added(s) ==> Consumed(e) - Consumed(s) == Entries(s) - Entries(e))
  {
    var e := Run(cfg, s, actions);
    RunInv(cfg, s, actions);
    LogsGrow(cfg, s, actions);
    OneShot.SavesAndOverwritesGrow(s.redirects.ops, e.redirects.ops);
    OneShot.SavesAndOverwritesGrow(s.flows.ops, e.flows.ops);
    OneShot.TakesBoundedByEntries(s.redirects.m, s.redirects.ops, e.redirects.m, e.redirects.ops);
    OneShot.TakesBoundedByEntries(s.flows.m, s.flows.ops, e.flows.m, e.flows.ops);
    assert OneShot.AllSaves(s.redirects.ops) <= OneShot.AllSaves(e.redirects.ops);
  }
}
