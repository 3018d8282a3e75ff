/** A whole test login: started, answered, redeemed, and replayed, with one call of the authorization server. */
module OAuthTestRun {
  import opened Basics
  import opened Url
  import opened Params
  import opened TokenForm
  import opened Memo
  import opened Flows
  import opened OAuthMachine
  import opened OAuthInvariant
  import opened OAuthSteps
  import opened OAuthTheorems
  import opened OAuthWitness
  import OneShot
  import Relay

  function FlowFor(raw: Str, verifier: Str): Flow {
    Flow(verifier, Get(ParseQuery(raw), SECRET) != "0")
  }

  /** GET /testlogin up to the point where the flow is stored. */
  lemma Started(cfg: Config, raw: Str, state: Str, verifier: Str, challenge: Str) returns (s: State)
    requires cfg.diagEnabled
    ensures Reachable(cfg, s)
    ensures s == START.(threads := [LSaved(raw, state, verifier, challenge)],
                        flows := AfterSave(START.flows, 0, state, FlowFor(raw, verifier)))
  {
    StartReachable(cfg);
    var s1 := START.(threads := [LWait(raw, state, verifier, challenge)]);
    Reach(cfg, START, Arrive(Login(raw, state, verifier, challenge)), s1);
    var s2 := s1.(threads := [LHeld(raw, state, verifier, challenge)], flows := START.flows.(lock := Some(0)));
    Reach(cfg, s1, OnTable(0, LockFlows), s2);
    s := s1.(threads := [LSaved(raw, state, verifier, challenge)],
             flows := AfterSave(START.flows, 0, state, FlowFor(raw, verifier)));
    Reach(cfg, s2, OnTable(0, SaveFlow), s);
  }

  lemma LoginWire(cfg: Config, th: Thread) returns (keys: seq<Str>, wire: Str)
    requires th.LSaved?
    ensures Enumerates(keys, Outgoing(cfg, th).Keys) && wire == Encode(Outgoing(cfg, th), keys)
    ensures Get(ParseQuery(wire), REDIRECT_URI) == cfg.Callback()
  {
    keys := EnumerationExists(Outgoing(cfg, th).Keys);
    wire := Encode(Outgoing(cfg, th), keys);
    SentOn(cfg, th, keys);
  }

  lemma SentAway(cfg: Config, m: State, th: Thread, keys: seq<Str>, wire: Str) returns (s: State)
    requires m.threads == [th] && th.LSaved? && Get(ParseQuery(th.raw), VIAPROXY) == "0"
    requires Enumerates(keys, Outgoing(cfg, th).Keys) && wire == Encode(Outgoing(cfg, th), keys)
    ensures TableEnabled(cfg, m, 0, SendOn(keys)) && s == TableApply(cfg, m, 0, SendOn(keys))
    ensures s == m.(threads := [LDone(th.raw, th.state, th.verifier, th.challenge, wire)],
                    server := m.server.(requests := m.server.requests + [Sent(0, wire)]))
  {
    var next := LDone(th.raw, th.state, th.verifier, th.challenge, wire);
    assert m.threads[0] == th && m.threads[0 := next] == [next];
    s := TableApply(cfg, m, 0, SendOn(keys));
  }

  /** The browser goes straight to the server. */
  lemma LoggedIn(cfg: Config, m: State, th: Thread) returns (s: State, wire: Str)
    requires Reachable(cfg, m) && m.threads == [th] && th.LSaved? && Get(ParseQuery(th.raw), VIAPROXY) == "0"
    ensures Reachable(cfg, s) && Get(ParseQuery(wire), REDIRECT_URI) == cfg.Callback()
    ensures s == m.(threads := [LDone(th.raw, th.state, th.verifier, th.challenge, wire)],
                    server := m.server.(requests := m.server.requests + [Sent(0, wire)]))
  {
    var keys;
    keys, wire := LoginWire(cfg, th);
    s := SentAway(cfg, m, th, keys, wire);
    Reach(cfg, m, OnTable(0, SendOn(keys)), s);
  }

  /** A callback without an error finds the flow of its state. */
  lemma Returned(cfg: Config, s: State, raw: Str, flow: Flow) returns (s': State)
    requires Reachable(cfg, s) && cfg.diagEnabled && s.flows.lock.None?
    requires Relay.StateOf(raw) in s.flows.m && s.flows.m[Relay.StateOf(raw)] == flow
    requires Get(ParseQuery(raw), ERROR) == ""
    ensures Reachable(cfg, s')
    ensures s' == s.(threads := s.threads + [CPost(raw, flow, |s.flows.ops|, [])],
                     flows := AfterTaking(s.flows, |s.threads|, Relay.StateOf(raw)))
  {
    var t, at := |s.threads|, |s.flows.ops|;
    var s1 := s.(threads := s.threads + [CWait(raw)]);
    Reach(cfg, s, Arrive(Callback(raw)), s1);
    LastReplaced(s.threads, CWait(raw), CHeldFlow(raw));
    var s2 := s.(threads := s.threads + [CHeldFlow(raw)], flows := s.flows.(lock := Some(t)));
    Reach(cfg, s1, OnTable(t, LockFlows), s2);
    LastReplaced(s.threads, CHeldFlow(raw), CPost(raw, flow, at, []));
    s' := s.(threads := s.threads + [CPost(raw, flow, at, [])], flows := AfterTaking(s.flows, t, Relay.StateOf(raw)));
    Reach(cfg, s2, OnTable(t, TakeFlow), s');
  }

  /** The request it posts. */
  predicate PostedFor(cfg: Config, code: Str, flow: Flow, body: Str, form: Values) {
    && ParseQuery(body) == ExchangeForm(cfg, code, flow) && form == Prepare(cfg, ParseQuery(body))
    && Get(form, CODE) == code && Full(form) && RESOURCE !in form
    && Get(form, GRANT_TYPE) == AUTHORIZATION_CODE && Get(form, REDIRECT_URI) == cfg.Callback()
  }

  lemma PostedForm(cfg: Config, code: Str, flow: Flow, body: Str, form: Values)
    requires ParseQuery(body) == ExchangeForm(cfg, code, flow) && form == Prepare(cfg, ParseQuery(body))
    ensures PostedFor(cfg, code, flow, body, form)
  {
    ExchangedForm(cfg, code, flow);
    ExchangeParameters(cfg, code, flow);
    PreparedForm(cfg, ParseQuery(body));
  }

  lemma PostBody(cfg: Config, th: Thread) returns (keys: seq<Str>, body: Str, form: Values)
    requires th.CPost?
    ensures Enumerates(keys, ExchangeForm(cfg, CodeOf(th), th.flow).Keys)
    ensures PostedFor(cfg, CodeOf(th), th.flow, body, form)
    ensures PostedRequest(cfg, th, keys, true) == TWait(body, form, "")
  {
    keys := EnumerationExists(ExchangeForm(cfg, CodeOf(th), th.flow).Keys);
    body := Encode(ExchangeForm(cfg, CodeOf(th), th.flow), keys);
    ExchangedForm(cfg, CodeOf(th), th.flow);
    EncodeRoundTrip(ExchangeForm(cfg, CodeOf(th), th.flow), keys);
    form := Prepare(cfg, ParseQuery(body));
    PostedForm(cfg, CodeOf(th), th.flow, body, form);
  }

  lemma MiddleReplaced<T>(init: seq<T>, x: T, others: seq<T>, y: T)
    ensures (init + [x] + others)[|init|] == x
    ensures (init + [x] + others)[|init| := y] == init + [y] + others
  {
  }

  /** A callback posts its request. */
  lemma PostSent(cfg: Config, s: State, init: seq<Thread>, others: seq<Thread>, th: Thread)
    returns (s': State, body: Str, form: Values)
    requires Reachable(cfg, s) && s.threads == init + [th] + others && th.CPost?
    ensures Reachable(cfg, s') && PostedFor(cfg, CodeOf(th), th.flow, body, form)
    ensures s' == s.(threads := init + [CAwait(th.raw, th.flow, th.flowAt, th.results, |s.threads|)] + others +
                                [TWait(body, form, "")],
                     posts := s.posts + [Posted(|init|, |s.threads|)])
  {
    var keys;
    keys, body, form := PostBody(cfg, th);
    var waiting := CAwait(th.raw, th.flow, th.flowAt, th.results, |s.threads|);
    MiddleReplaced(init, th, others, waiting);
    s' := s.(threads := init + [waiting] + others + [TWait(body, form, "")],
             posts := s.posts + [Posted(|init|, |s.threads|)]);
    Reach(cfg, s, OnPost(|init|, Post(keys, true)), s');
  }

  /** The callback sees the reply of its request, the newest one. */
  lemma Collected(cfg: Config, s: State, init: seq<Thread>, others: seq<Thread>, th: Thread, last: Thread)
    returns (s': State)
    requires Reachable(cfg, s) && s.threads == init + [th] + others + [last] && last.TDone?
    requires th.CAwait? && th.child == |init + [th] + others|
    ensures Reachable(cfg, s')
    ensures s' == s.(threads := init + [NextAttempt(th, Some(last.reply))] + others + [last])
  {
    var next := NextAttempt(th, Some(last.reply));
    Regroup(init + [th], others, [last]);
    Regroup(init + [next], others, [last]);
    MiddleReplaced(init, th, others + [last], next);
    assert s.threads[th.child] == last;
    s' := s.(threads := init + [next] + others + [last]);
    Reach(cfg, s, OnPost(|init|, Collect), s');
  }

  /** The newest request is on its way to the server, for a code that is bound and not yet redeemed. */
  lemma Forwarded(cfg: Config, s: State, init: seq<Thread>, body: Str, form: Values, code: Str, flow: Flow)
    returns (s': State, call: Call)
    requires Reachable(cfg, s) && s.threads == init + [TWait(body, form, "")] && s.token.lock.None?
    requires PostedFor(cfg, code, flow, body, form) && !Hit(s.token.cache, code)
    ensures Reachable(cfg, s') && call.code == code && IsExchange(call.wire)
    ensures Get(ParseQuery(call.wire), CODE) == code && Get(ParseQuery(call.wire), REDIRECT_URI) == cfg.Callback()
    ensures s' == s.(threads := init + [TSent(body, code, call.wire, "")],
                     token := s.token.(lock := Some(|init|), calls := s.token.calls + [call]))
  {
    var t := |init|;
    LastReplaced(init, TWait(body, form, ""), THeld(body, form, ""));
    var s1 := s.(threads := init + [THeld(body, form, "")], token := s.token.(lock := Some(t)));
    Reach(cfg, s, OnToken(t, Lock), s1);
    LastReplaced(init, THeld(body, form, ""), TMiss(body, form, ""));
    var s2 := s1.(threads := init + [TMiss(body, form, "")]);
    Reach(cfg, s1, OnToken(t, Consult), s2);
    var keys := EnumerationExists(Inject(cfg, form, "").Keys);
    var wire := Encode(Inject(cfg, form, ""), keys);
    InjectedForm(cfg, form, "");
    EncodeRoundTrip(Inject(cfg, form, ""), keys);
    call := Call(t, body, code, wire, "");
    LastReplaced(init, TMiss(body, form, ""), TSent(body, code, wire, ""));
    s' := s2.(threads := init + [TSent(body, code, wire, "")],
              token := s2.token.(calls := s.token.calls + [call]));
    Reach(cfg, s2, OnToken(t, Forward(keys)), s');
  }

  /** The server redeems the code, and the request replies. */
  lemma Granting(cfg: Config, s: State, init: seq<Thread>, body: Str, code: Str, wire: Str, r: Response)
    returns (s': State)
    requires Reachable(cfg, s) && s.threads == init + [TSent(body, code, wire, "")]
    requires Redeemable(s.server, wire) && Get(ParseQuery(wire), CODE) == code != "" && r.status == 200
    ensures Reachable(cfg, s')
    ensures s' == s.(threads := init + [TDone(code, Passed(r), |s.token.ops|)],
                     server := Grant(s.server, code, r),
                     token := s.token.(lock := None, cache := s.token.cache[code := r],
                                       ops := s.token.ops + [Op(|init|, code, Some(Answered(r)), Passed(r))]))
  {
    LastReplaced(init, TSent(body, code, wire, ""), TAnswered(code, Answered(r)));
    var s1 := s.(threads := init + [TAnswered(code, Answered(r))], server := Grant(s.server, code, r));
    Reach(cfg, s, OnToken(|init|, Answer(r)), s1);
    s' := Settled(cfg, s1, init, code, Answered(r));
  }

  lemma ChildGranted(cfg: Config, s: State, init: seq<Thread>, body: Str, form: Values, code: Str, flow: Flow,
                     r: Response)
    returns (s': State)
    requires Reachable(cfg, s) && s.threads == init + [TWait(body, form, "")] && s.token == START.token
    requires PostedFor(cfg, code, flow, body, form) && code != "" && r.status == 200
    requires code in s.server.bound && s.server.bound[code] == cfg.Callback() && code !in s.server.spent
    ensures Reachable(cfg, s') && s'.posts == s.posts && s'.server == Grant(s.server, code, r)
    ensures s'.threads == init + [TDone(code, Passed(r), 0)]
    ensures OneGrant(s'.token, |init|, code, r)
  {
    var s1, call := Forwarded(cfg, s, init, body, form, code, flow);
    s' := Granting(cfg, s1, init, body, code, call.wire, r);
  }

  /** The proxy after one call, which `who` made for `code`. */
  ghost predicate OneGrant(token: TokenTable, who: nat, code: Str, r: Response) {
    && token.lock.None? && token.cache == map[code := r] && |token.calls| == 1
    && token.ops == [Op(who, code, Some(Answered(r)), Passed(r))]
  }

  /** The newest request finds its code cached. */
  lemma Replayed(cfg: Config, s: State, init: seq<Thread>, body: Str, form: Values, code: Str) returns (s': State)
    requires Reachable(cfg, s) && s.threads == init + [TWait(body, form, "")] && s.token.lock.None?
    requires Get(form, CODE) == code && Hit(s.token.cache, code)
    ensures Reachable(cfg, s')
    ensures
      var reply := Passed(s.token.cache[code]);
      s' == s.(threads := init + [TDone(code, reply, |s.token.ops|)],
               token := s.token.(ops := s.token.ops + [Op(|init|, code, None, reply)]))
  {
    var t := |init|;
    LastReplaced(init, TWait(body, form, ""), THeld(body, form, ""));
    var s1 := s.(threads := init + [THeld(body, form, "")], token := s.token.(lock := Some(t)));
    Reach(cfg, s, OnToken(t, Lock), s1);
    s' := Released(cfg, s1, init, body, form, Passed(s.token.cache[code]));
    ReachableRun(cfg, s1, ReplaySteps(t)[1..]);
  }

  // ----- the run -----

  /** The flow is stored and the server has issued a code for it. */
  lemma FlowIssued(cfg: Config, login: Str, state: Str, verifier: Str, challenge: Str, code: Str)
    returns (s: State, wire: Str)
    requires cfg.diagEnabled && Get(ParseQuery(login), VIAPROXY) == "0" && code != ""
    ensures Reachable(cfg, s) && s.threads == [LDone(login, state, verifier, challenge, wire)]
    ensures s.token == START.token && s.posts == [] && s.server.requests == [Sent(0, wire)]
    ensures s.flows == AfterSave(START.flows, 0, state, FlowFor(login, verifier))
    ensures s.server.bound == map[code := cfg.Callback()] && s.server.answers == map[code := 0]
    ensures s.server.spent == {}
  {
    var m0 := Started(cfg, login, state, verifier, challenge);
    var m;
    m, wire := LoggedIn(cfg, m0, m0.threads[0]);
    s := ServerApply(m, Issue(0, code));
    Reach(cfg, m, OnServer(Issue(0, code)), s);
  }

  function Waiting(th: Thread, child: nat): Thread
    requires th.CPost?
  {
    CAwait(th.raw, th.flow, th.flowAt, th.results, child)
  }

  /** The callback's first attempt: its exchange goes to the server and is granted. */
  lemma FirstAttempt(cfg: Config, s: State, init: seq<Thread>, others: seq<Thread>, th: Thread, code: Str, r: Response)
    returns (e: State)
    requires Reachable(cfg, s) && s.threads == init + [th] + others && s.token == START.token && r.status == 200
    requires th.CPost? && CodeOf(th) == code != ""
    requires code in s.server.bound && s.server.bound[code] == cfg.Callback() && code !in s.server.spent
    ensures Reachable(cfg, e) && e.posts == s.posts + [Posted(|init|, |s.threads|)]
    ensures e.threads == init + [NextAttempt(Waiting(th, |s.threads|), Some(Passed(r)))] + others +
                         [TDone(code, Passed(r), 0)]
    ensures OneGrant(e.token, |s.threads|, code, r) && e.server == Grant(s.server, code, r)
  {
    var waiting := Waiting(th, |s.threads|);
    var s1, body, form := PostSent(cfg, s, init, others, th);
    var s2 := ChildGranted(cfg, s1, init + [waiting] + others, body, form, code, th.flow, r);
    e := Collected(cfg, s2, init, others, waiting, TDone(code, Passed(r), 0));
  }

  /** Another attempt: the same form again, answered from the cache. */
  lemma SecondAttempt(cfg: Config, s: State, init: seq<Thread>, others: seq<Thread>, th: Thread, code: Str, r: Response)
    returns (e: State)
    requires Reachable(cfg, s) && s.threads == init + [th] + others && s.token.lock.None?
    requires th.CPost? && CodeOf(th) == code != "" && s.token.cache == map[code := r]
    ensures Reachable(cfg, e) && e.posts == s.posts + [Posted(|init|, |s.threads|)]
    ensures e.threads == init + [NextAttempt(Waiting(th, |s.threads|), Some(Passed(r)))] + others +
                         [TDone(code, Passed(r), |s.token.ops|)]
    ensures e.token.ops == s.token.ops + [Op(|s.threads|, code, None, Passed(r))]
    ensures e.token.calls == s.token.calls && e.server == s.server
  {
    var waiting := Waiting(th, |s.threads|);
    var s1, body, form := PostSent(cfg, s, init, others, th);
    var s2 := Replayed(cfg, s1, init + [waiting] + others, body, form, code);
    e := Collected(cfg, s2, init, others, waiting, TDone(code, Passed(r), |s.token.ops|));
  }

  /** A callback with one result posts again; with two it is done. */
  lemma Attempted(raw: Str, flow: Flow, at: nat, child: nat, result: Option<Reply>)
    ensures NextAttempt(CAwait(raw, flow, at, [], child), result) == CPost(raw, flow, at, [result])
    ensures NextAttempt(CAwait(raw, flow, at, [result], child), result) ==
            CDone(raw, Handled(at, flow, [result, result]))
  {
    assert [] + [result] == [result] && [result] + [result] == [result, result];
  }

  /** A callback that has just started makes its first attempt, the server granting it. */
  lemma StartedGranted(cfg: Config, s: State, first: Thread, raw: Str, flow: Flow, at: nat, code: Str, r: Response)
    returns (e: State)
    requires Reachable(cfg, s) && s.threads == [first] + [CPost(raw, flow, at, [])] && s.token == START.token
    requires Get(ParseQuery(raw), CODE) == code != "" && r.status == 200
    requires code in s.server.bound && s.server.bound[code] == cfg.Callback() && code !in s.server.spent
    ensures Reachable(cfg, e) && e.posts == s.posts + [Posted(1, 2)]
    ensures e.threads == [first] + [CPost(raw, flow, at, [Some(Passed(r))])] + [TDone(code, Passed(r), 0)]
    ensures OneGrant(e.token, 2, code, r) && e.server == Grant(s.server, code, r)
  {
    var th, done := CPost(raw, flow, at, []), TDone(code, Passed(r), 0);
    Attempted(raw, flow, at, 2, Some(Passed(r)));
    assert [first] + [th] + [] == [first] + [th];
    e := FirstAttempt(cfg, s, [first], [], th, code, r);
    assert e.threads == [first] + [CPost(raw, flow, at, [Some(Passed(r))])] + [] + [done];
  }

  /** It makes its second attempt and is done. */
  lemma OnceMore(cfg: Config, s: State, first: Thread, raw: Str, flow: Flow, at: nat, code: Str, r: Response)
    returns (e: State)
    requires Reachable(cfg, s) && OneGrant(s.token, 2, code, r)
    requires s.threads == [first] + [CPost(raw, flow, at, [Some(Passed(r))])] + [TDone(code, Passed(r), 0)]
    requires Get(ParseQuery(raw), CODE) == code != ""
    ensures Reachable(cfg, e) && e.posts == s.posts + [Posted(1, 3)] && e.server == s.server
    ensures |e.threads| == 4 && e.threads[0] == first
    ensures e.threads[1] == CDone(raw, Handled(at, flow, [Some(Passed(r)), Some(Passed(r))]))
    ensures |e.token.calls| == 1 && e.token.ops == s.token.ops + [Op(3, code, None, Passed(r))]
  {
    Attempted(raw, flow, at, 3, Some(Passed(r)));
    e := SecondAttempt(cfg, s, [first], [TDone(code, Passed(r), 0)], CPost(raw, flow, at, [Some(Passed(r))]), code, r);
  }

  /** The callback arrives with the code and has found the flow. */
  lemma FlowReturned(cfg: Config, login: Str, state: Str, verifier: Str, challenge: Str, code: Str, raw: Str)
    returns (s: State, wire: Str)
    requires cfg.diagEnabled && Get(ParseQuery(login), VIAPROXY) == "0" && code != ""
    requires Relay.StateOf(raw) == state && Get(ParseQuery(raw), ERROR) == ""
    ensures Reachable(cfg, s) && s.token == START.token && s.posts == []
    ensures s.threads ==
            [LDone(login, state, verifier, challenge, wire)] + [CPost(raw, FlowFor(login, verifier), 1, [])]
    ensures code in s.server.bound && s.server.bound[code] == cfg.Callback() && s.server.spent == {}
  {
    var m;
    m, wire := FlowIssued(cfg, login, state, verifier, challenge, code);
    s := Returned(cfg, m, raw, FlowFor(login, verifier));
  }

  /**
   A test login that works, for every query with `viaproxy` 0, every state, verifier and challenge, every code and
   every 200: the callback that brings the code shows that response twice, the server was called once and has
   redeemed the code, and the second result is a replay.
   */
  lemma TestLoginRun(cfg: Config, login: Str, state: Str, verifier: Str, challenge: Str, code: Str, r: Response,
                     raw: Str)
    returns (s: State, wire: Str)
    requires cfg.diagEnabled && Get(ParseQuery(login), VIAPROXY) == "0" && code != "" && r.status == 200
    requires Relay.StateOf(raw) == state && Get(ParseQuery(raw), CODE) == code && Get(ParseQuery(raw), ERROR) == ""
    ensures Reachable(cfg, s) && |s.threads| == 4
    ensures s.threads[0] == LDone(login, state, verifier, challenge, wire)
    ensures s.threads[1].CDone? && s.threads[1].raw == raw && s.threads[1].ending.Handled?
    ensures s.threads[1].ending.flow == Flow(verifier, Get(ParseQuery(login), SECRET) != "0")
    ensures s.threads[1].ending.results == [Some(Passed(r)), Some(Passed(r))]
    ensures s.posts == [Posted(1, 2), Posted(1, 3)] && |s.token.calls| == 1 && s.server.spent == {code}
    ensures s.token.ops == [Op(2, code, Some(Answered(r)), Passed(r)), Op(3, code, None, Passed(r))]
  {
    var flow := FlowFor(login, verifier);
    var m;
    m, wire := FlowReturned(cfg, login, state, verifier, challenge, code, raw);
    var first := LDone(login, state, verifier, challenge, wire);
    m := StartedGranted(cfg, m, first, raw, flow, 1, code, r);
    s := OnceMore(cfg, m, first, raw, flow, 1, code, r);
  }
}
