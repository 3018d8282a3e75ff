/**
 Runs in which the token proxy promises less than its comments say, and the exact conditions under which it
 does not.
 */
module OAuthWitness {
  import opened Basics
  import opened Url
  import opened Params
  import opened TokenForm
  import opened Memo
  import opened OAuthMachine
  import opened OAuthInvariant
  import opened OAuthSteps
  import opened OAuthTheorems
  import opened OAuthCalls
  import opened OAuthRouting
  import OneShot
  import Relay

  // ----- building runs -----

  lemma Reach(cfg: Config, s: State, a: Action, s': State)
    requires Reachable(cfg, s) && Enabled(cfg, s, a) && s' == Apply(cfg, s, a)
    ensures Reachable(cfg, s')
  {
    RunFirst(cfg, s, a, []);
    ReachableRun(cfg, s, [a] + []);
  }

  /** The actions lead from `s` to `e`. */
  ghost predicate Leads(cfg: Config, s: State, actions: seq<Action>, e: State) {
    Schedule(cfg, s, actions) && Run(cfg, s, actions) == e
  }

  lemma LeadsStep(cfg: Config, s: State, a: Action, m: State, rest: seq<Action>, e: State)
    requires Enabled(cfg, s, a) && m == Apply(cfg, s, a) && Leads(cfg, m, rest, e)
    ensures Leads(cfg, s, [a] + rest, e)
  {
    RunFirst(cfg, s, a, rest);
  }

  lemma LeadsNowhere(cfg: Config, s: State)
    ensures Leads(cfg, s, [], s)
  {
  }

  lemma LastReplaced<T>(init: seq<T>, last: T, next: T)
    ensures (init + [last])[|init| := next] == init + [next]
  {
  }

  /** A newly arrived request takes the free lock and finds nothing cached. */
  lemma Miss(cfg: Config, s: State, body: Str, form: Values) returns (m: State)
    requires Reachable(cfg, s) && s.token.lock.None?
    requires form == Prepare(cfg, ParseQuery(body)) && !Hit(s.token.cache, Get(form, CODE))
    ensures Reachable(cfg, m)
    ensures m == s.(threads := s.threads + [TMiss(body, form, "")], token := s.token.(lock := Some(|s.threads|)))
  {
    var t := |s.threads|;
    var s1 := s.(threads := s.threads + [TWait(body, form, "")]);
    Reach(cfg, s, Arrive(Token(Some(body), "")), s1);
    LastReplaced(s.threads, TWait(body, form, ""), THeld(body, form, ""));
    var s2 := s.(threads := s.threads + [THeld(body, form, "")], token := s.token.(lock := Some(t)));
    Reach(cfg, s1, OnToken(t, Lock), s2);
    LastReplaced(s.threads, THeld(body, form, ""), TMiss(body, form, ""));
    m := s2.(threads := s.threads + [TMiss(body, form, "")]);
    Reach(cfg, s2, OnToken(t, Consult), m);
  }

  /** It is sent upstream, and answered. */
  lemma Asked(cfg: Config, m: State, init: seq<Thread>, body: Str, form: Values, r: Response)
    returns (m': State, call: Call)
    requires Reachable(cfg, m) && m.threads == init + [TMiss(body, form, "")]
    requires Full(form) && RESOURCE !in form && Get(form, GRANT_TYPE) != AUTHORIZATION_CODE
    ensures Reachable(cfg, m') && call.code == Get(form, CODE) && !IsExchange(call.wire)
    ensures m' ==
            m.(threads := init + [TAnswered(call.code, Answered(r))],
               token := m.token.(calls := m.token.calls + [call]))
  {
    var t, code := |init|, Get(form, CODE);
    var keys := EnumerationExists(Inject(cfg, form, "").Keys);
    var wire := Encode(Inject(cfg, form, ""), keys);
    InjectedForm(cfg, form, "");
    EncodeRoundTrip(Inject(cfg, form, ""), keys);
    call := Call(t, body, code, wire, "");
    LastReplaced(init, TMiss(body, form, ""), TSent(body, code, wire, ""));
    var m1 := m.(threads := init + [TSent(body, code, wire, "")], token := m.token.(calls := m.token.calls + [call]));
    Reach(cfg, m, OnToken(t, Forward(keys)), m1);
    LastReplaced(init, TSent(body, code, wire, ""), TAnswered(code, Answered(r)));
    m' := m1.(threads := init + [TAnswered(code, Answered(r))]);
    Reach(cfg, m1, OnToken(t, Answer(r)), m');
  }

  /** It replies and releases the lock. */
  lemma Settled(cfg: Config, m: State, init: seq<Thread>, code: Str, o: Outcome) returns (m': State)
    requires Reachable(cfg, m) && m.threads == init + [TAnswered(code, o)]
    ensures Reachable(cfg, m')
    ensures var at := |m.token.ops|;
            m' == m.(threads := init + [TDone(code, ReplyOf(o), at)],
                     token := m.token.(lock := None, cache := Remember(m.token.cache, code, o),
                                       ops := m.token.ops + [Op(|init|, code, Some(o), ReplyOf(o))]))
  {
    var t, at, reply := |init|, |m.token.ops|, ReplyOf(o);
    var op := Op(t, code, Some(o), reply);
    LastReplaced(init, TAnswered(code, o), TReply(code, reply, at));
    var m1 := m.(threads := init + [TReply(code, reply, at)],
                 token := m.token.(cache := Remember(m.token.cache, code, o), ops := m.token.ops + [op]));
    Reach(cfg, m, OnToken(t, Store), m1);
    LastReplaced(init, TReply(code, reply, at), TWritten(code, reply, at));
    var m2 := m1.(threads := init + [TWritten(code, reply, at)]);
    Reach(cfg, m1, OnToken(t, Write), m2);
    LastReplaced(init, TWritten(code, reply, at), TDone(code, reply, at));
    m' := m2.(threads := init + [TDone(code, reply, at)], token := m2.token.(lock := None));
    Reach(cfg, m2, OnToken(t, Unlock), m');
  }

  /** A whole /token request that is no exchange, sent upstream and answered with `r`. */
  lemma Served(cfg: Config, s: State, body: Str, r: Response) returns (s': State, call: Call)
    requires Reachable(cfg, s) && s.token.lock.None?
    requires Get(ParseQuery(body), GRANT_TYPE) != AUTHORIZATION_CODE && !Hit(s.token.cache, Get(ParseQuery(body), CODE))
    ensures Reachable(cfg, s')
    ensures
      var code := Get(ParseQuery(body), CODE);
      && call.code == code && !IsExchange(call.wire)
      && s' == s.(threads := s.threads + [TDone(code, Passed(r), |s.token.ops|)],
                  token := TokenTable(None, Remember(s.token.cache, code, Answered(r)),
                                      s.token.ops + [Op(|s.threads|, code, Some(Answered(r)), Passed(r))],
                                      s.token.calls + [call]))
  {
    var form := Prepare(cfg, ParseQuery(body));
    ParsedIsReady(cfg, body);
    var m := Miss(cfg, s, body, form);
    var m2;
    m2, call := Asked(cfg, m, s.threads, body, form, r);
    s' := Settled(cfg, m2, s.threads, call.code, Answered(r));
  }

  /** What a request for a cached code does once it has arrived, its thread being the newest. */
  function ReplaySteps(t: nat): seq<Action> {
    [OnToken(t, Lock)] + ([OnToken(t, Consult)] + ([OnToken(t, Write)] + ([OnToken(t, Unlock)] + [])))
  }

  /** A whole /token request for a cached code: nothing is sent, and the cached response comes back. */
  lemma ServedFromCache(cfg: Config, s: State, body: Str) returns (s': State)
    requires s.token.lock.None? && Hit(s.token.cache, Get(ParseQuery(body), CODE))
    ensures Leads(cfg, s, [Arrive(Token(Some(body), ""))] + ReplaySteps(|s.threads|), s')
    ensures
      var code := Get(ParseQuery(body), CODE);
      var reply := Passed(s.token.cache[code]);
      s' == s.(threads := s.threads + [TDone(code, reply, |s.token.ops|)],
               token := s.token.(ops := s.token.ops + [Op(|s.threads|, code, None, reply)]))
  {
    var t, form := |s.threads|, Prepare(cfg, ParseQuery(body));
    ParsedIsReady(cfg, body);
    var s1 := s.(threads := s.threads + [TWait(body, form, "")]);
    LastReplaced(s.threads, TWait(body, form, ""), THeld(body, form, ""));
    var s2 := s.(threads := s.threads + [THeld(body, form, "")], token := s.token.(lock := Some(t)));
    s' := Released(cfg, s2, s.threads, body, form, Passed(s.token.cache[Get(form, CODE)]));
    LeadsStep(cfg, s1, OnToken(t, Lock), s2, ReplaySteps(t)[1..], s');
    assert ReplaySteps(t) == [OnToken(t, Lock)] + ReplaySteps(t)[1..];
    LeadsStep(cfg, s, Arrive(Token(Some(body), "")), s1, ReplaySteps(t), s');
  }

  lemma Released(cfg: Config, m: State, init: seq<Thread>, body: Str, form: Values, reply: Reply) returns (m': State)
    requires m.threads == init + [THeld(body, form, "")]
    requires Hit(m.token.cache, Get(form, CODE)) && reply == Passed(m.token.cache[Get(form, CODE)])
    ensures Leads(cfg, m, ReplaySteps(|init|)[1..], m')
    ensures m' == m.(threads := init + [TDone(Get(form, CODE), reply, |m.token.ops|)],
                     token := m.token.(lock := None, ops := m.token.ops + [Op(|init|, Get(form, CODE), None, reply)]))
  {
    var t, code, at := |init|, Get(form, CODE), |m.token.ops|;
    LastReplaced(init, THeld(body, form, ""), TReply(code, reply, at));
    var m1 := m.(threads := init + [TReply(code, reply, at)],
                 token := m.token.(ops := m.token.ops + [Op(t, code, None, reply)]));
    LastReplaced(init, TReply(code, reply, at), TWritten(code, reply, at));
    var m2 := m1.(threads := init + [TWritten(code, reply, at)]);
    LastReplaced(init, TWritten(code, reply, at), TDone(code, reply, at));
    m' := m2.(threads := init + [TDone(code, reply, at)], token := m2.token.(lock := None));
    LeadsNowhere(cfg, m');
    LeadsStep(cfg, m2, OnToken(t, Unlock), m', [], m');
    LeadsStep(cfg, m1, OnToken(t, Write), m2, [OnToken(t, Unlock)] + [], m');
    LeadsStep(cfg, m, OnToken(t, Consult), m1, [OnToken(t, Write)] + ([OnToken(t, Unlock)] + []), m');
    assert ReplaySteps(t)[1..] == [OnToken(t, Consult)] + ([OnToken(t, Write)] + ([OnToken(t, Unlock)] + []));
  }

  lemma StartReachable(cfg: Config)
    ensures Reachable(cfg, START)
  {
    assert Schedule(cfg, START, []) && Run(cfg, START, []) == START;
  }

  // ----- requests without a code -----

  /** Two redemptions of `code` in one run, the earlier one a success. */
  ghost predicate AfterSuccess(cfg: Config, s: State, t: nat, u: nat, code: Str) {
    && Reachable(cfg, s) && t < |s.threads| && u < |s.threads|
    && HasCommitted(s.threads[t]) && HasCommitted(s.threads[u]) && s.threads[t].at < s.threads[u].at
    && s.threads[t].code == s.threads[u].code == code && Granted(Some(s.threads[t].reply))
  }

  /** Whoever redeems `code` after a success gets that success again, in every run. */
  ghost predicate AlwaysReplayed(cfg: Config, code: Str) {
    forall s, t: nat, u: nat :: AfterSuccess(cfg, s, t, u, code) ==> s.threads[u].reply == s.threads[t].reply
  }

  lemma CodeReplayed(cfg: Config, s: State, t: nat, u: nat, code: Str)
    requires AfterSuccess(cfg, s, t, u, code) && code != ""
    ensures s.threads[u].reply == s.threads[t].reply
  {
    TokenRefinesMemo(cfg, s);
    assert CommittedAs(s.token.ops, t, code, s.threads[t].reply, s.threads[t].at);
    assert CommittedAs(s.token.ops, u, code, s.threads[u].reply, s.threads[u].at);
    ReplayedAfterSuccess(s.token.ops, s.threads[t].at, s.threads[u].at);
  }

  /** Two requests with an empty body: the first gets a 200, the second goes upstream again and gets a 400. */
  lemma WithoutCode(cfg: Config) returns (s: State)
    ensures AfterSuccess(cfg, s, 0, 1, "") && s.threads[1].reply != s.threads[0].reply
    ensures |s.token.calls| == 2
  {
    var granted, refused := Response(200, "application/json", "{}"), Response(400, "application/json", "{}");
    NoForm();
    StartReachable(cfg);
    var s1, call1 := Served(cfg, START, "", granted);
    var s2, call2 := Served(cfg, s1, "", refused);
    s := s2;
    assert s.threads[0] == TDone("", Passed(granted), 0) && s.threads[1] == TDone("", Passed(refused), 1);
  }

  lemma NoForm()
    ensures Get(ParseQuery(""), CODE) == "" && Get(ParseQuery(""), GRANT_TYPE) != AUTHORIZATION_CODE
  {
    Relay.NoParameters();
    assert ParseQuery("") == map[];
    assert |AUTHORIZATION_CODE| == 18;
  }

  /** The replay promise holds for a request's code exactly when the request carries one. */
  lemma AlwaysReplayedIffCode(cfg: Config, code: Str)
    ensures AlwaysReplayed(cfg, code) <==> code != ""
  {
    if code != "" {
      forall s, t: nat, u: nat | AfterSuccess(cfg, s, t, u, code)
        ensures s.threads[u].reply == s.threads[t].reply
      {
        CodeReplayed(cfg, s, t, u, code);
      }
    } else {
      var s := WithoutCode(cfg);
      assert AfterSuccess(cfg, s, 0, 1, code);
    }
  }

  // ----- other requests that carry a code -----

  const REFRESH_TOKEN: Str := "refresh_token"

  function RefreshForm(code: Str): Values {
    map[GRANT_TYPE := [REFRESH_TOKEN], CODE := [code]]
  }

  lemma RefreshBody(code: Str) returns (body: Str)
    ensures Get(ParseQuery(body), CODE) == code && Get(ParseQuery(body), GRANT_TYPE) != AUTHORIZATION_CODE
  {
    assert GRANT_TYPE != CODE by { assert |GRANT_TYPE| == 10 && |CODE| == 4; }
    assert REFRESH_TOKEN != AUTHORIZATION_CODE by { assert |REFRESH_TOKEN| == 13 && |AUTHORIZATION_CODE| == 18; }
    var keys := EnumerationExists(RefreshForm(code).Keys);
    body := Encode(RefreshForm(code), keys);
    EncodeRoundTrip(RefreshForm(code), keys);
  }

  /** A run in which the authorization server has issued `code`. */
  lemma Issued(cfg: Config, code: Str) returns (s: State)
    requires code != ""
    ensures Reachable(cfg, s) && code in s.server.bound && s.server.spent == {} && s.server.granted == map[]
    ensures s.token == START.token
  {
    StartReachable(cfg);
    var s1 := START.(threads := [AWait("")]);
    Reach(cfg, START, Arrive(Authorize("")), s1);
    var s2 := s1.(threads := [AHeld("")], redirects := START.redirects.(lock := Some(0)));
    Reach(cfg, s1, OnTable(0, LockRedirects), s2);
    var s3 := TableApply(cfg, s2, 0, SaveRedirect);
    Reach(cfg, s2, OnTable(0, SaveRedirect), s3);
    s := SentAndIssued(cfg, s3, code);
  }

  lemma SentAndIssued(cfg: Config, m: State, code: Str) returns (s: State)
    requires Reachable(cfg, m) && |m.threads| == 1 && m.threads[0].ASaved? && m.server == START.server && code != ""
    ensures Reachable(cfg, s) && code in s.server.bound && s.server.spent == {} && s.server.granted == map[]
    ensures s.token == m.token
  {
    var keys := EnumerationExists(Outgoing(cfg, m.threads[0]).Keys);
    var m1 := TableApply(cfg, m, 0, SendOn(keys));
    Reach(cfg, m, OnTable(0, SendOn(keys)), m1);
    s := ServerApply(m1, Issue(0, code));
    Reach(cfg, m1, OnServer(Issue(0, code)), s);
  }

  /**
   The proxy caches any 200 under the `code` a request carries. A request for another grant that carries an
   issued code fills the cache with its own response: there is a run to a state `m` in which it has done so, and
   from there the exchange of the code, or any other request that carries it, arrives and is answered with that
   response. Nothing is sent for it, and the code stays unredeemed.
   */
  lemma PlainSuccessStandsIn(cfg: Config, code: Str, r: Response, exchange: Str)
    returns (m: State, steps: seq<Action>, s: State)
    requires code != "" && Success(r) && Get(ParseQuery(exchange), CODE) == code
    ensures Reachable(cfg, m) && code in m.server.bound && code !in m.server.spent
    ensures PlainSuccess(m, code) && |m.token.calls| == 1 && !IsExchange(m.token.calls[0].wire)
    ensures Leads(cfg, m, [Arrive(Token(Some(exchange), ""))] + steps, s) && Reachable(cfg, s)
    ensures s.threads == m.threads + [TDone(code, Passed(r), 1)]
    ensures |m.token.ops| == 1 && m.token.ops[0].code == code && m.token.ops[0].who < |m.threads|
    ensures s.token.ops == m.token.ops + [Op(|m.threads|, code, None, Passed(r))]
    ensures s.token.calls == m.token.calls && s.server == m.server
  {
    var start := Issued(cfg, code);
    var body := RefreshBody(code);
    var call;
    m, call := Served(cfg, start, body, r);
    ReachableHistory(cfg, m);
    var t := |start.threads|;
    assert m.token.calls == [call] && m.threads[t] == TDone(code, Passed(r), 0);
    CallIsPlain(m, t, code, r);
    steps := ReplaySteps(|m.threads|);
    s := ServedFromCache(cfg, m, exchange);
    ReachableRun(cfg, m, [Arrive(Token(Some(exchange), ""))] + steps);
  }

  lemma CallIsPlain(s: State, t: nat, code: Str, r: Response)
    requires HistoryOk(s) && |s.token.calls| == 1 && !IsExchange(s.token.calls[0].wire) && Success(r)
    requires t < |s.threads| && s.threads[t].TDone? && s.threads[t].at < |s.token.ops| && s.threads[t].code == code
    requires s.token.ops[s.threads[t].at].outcome == Some(Answered(r))
    ensures PlainSuccess(s, code)
  {
    var n := CallOf(s.threads, s.token, t);
    assert GotSuccess(s.threads, s.token, n, r);
  }

  // ----- a code under another request's state -----

  /** Every form is some query. */
  lemma Printed(v: Values) returns (raw: Str)
    requires Full(v)
    ensures ParseQuery(raw) == v
  {
    var keys := EnumerationExists(v.Keys);
    raw := Encode(v, keys);
    EncodeRoundTrip(v, keys);
  }

  lemma AuthorizeQuery(state: Str, redirect: Str) returns (raw: Str)
    ensures Relay.StateOf(raw) == state && RedirectOf(raw) == redirect
  {
    assert STATE != REDIRECT_URI by { assert |STATE| == 5 && |REDIRECT_URI| == 12; }
    raw := Printed(map[STATE := [state], REDIRECT_URI := [redirect]]);
  }

  lemma CallbackQuery(state: Str, code: Str) returns (raw: Str)
    ensures Relay.StateOf(raw) == state && Get(ParseQuery(raw), CODE) == code
  {
    assert STATE != CODE by { assert |STATE| == 5 && |CODE| == 4; }
    raw := Printed(map[STATE := [state], CODE := [code]]);
  }

  /** The redirect store when a request has saved. */
  function WithSave(table: Table<Str>, who: nat, raw: Str): Table<Str> {
    AfterSave(table, who, Relay.StateOf(raw), RedirectOf(raw))
  }

  /** A whole /authorize request. */
  lemma Authorized(cfg: Config, s: State, raw: Str) returns (s': State, wire: Str)
    requires Reachable(cfg, s) && s.redirects.lock.None?
    ensures Reachable(cfg, s')
    ensures s' == s.(threads := s.threads + [ADone(raw, wire)], redirects := WithSave(s.redirects, |s.threads|, raw),
                     server := s.server.(requests := s.server.requests + [Sent(|s.threads|, wire)]))
  {
    var t := |s.threads|;
    var s1 := s.(threads := s.threads + [AWait(raw)]);
    Reach(cfg, s, Arrive(Authorize(raw)), s1);
    LastReplaced(s.threads, AWait(raw), AHeld(raw));
    var s2 := s.(threads := s.threads + [AHeld(raw)], redirects := s.redirects.(lock := Some(t)));
    Reach(cfg, s1, OnTable(t, LockRedirects), s2);
    LastReplaced(s.threads, AHeld(raw), ASaved(raw));
    var s3 := s.(threads := s.threads + [ASaved(raw)], redirects := WithSave(s.redirects, t, raw));
    Reach(cfg, s2, OnTable(t, SaveRedirect), s3);
    s', wire := Forwarded(cfg, s3, s.threads, raw);
  }

  lemma Forwarded(cfg: Config, m: State, init: seq<Thread>, raw: Str) returns (m': State, wire: Str)
    requires Reachable(cfg, m) && m.threads == init + [ASaved(raw)]
    ensures Reachable(cfg, m')
    ensures m' == m.(threads := init + [ADone(raw, wire)],
                     server := m.server.(requests := m.server.requests + [Sent(|init|, wire)]))
  {
    var keys := EnumerationExists(Outgoing(cfg, ASaved(raw)).Keys);
    wire := Encode(Outgoing(cfg, ASaved(raw)), keys);
    LastReplaced(init, ASaved(raw), ADone(raw, wire));
    m' := m.(threads := init + [ADone(raw, wire)],
             server := m.server.(requests := m.server.requests + [Sent(|init|, wire)]));
    Reach(cfg, m, OnTable(|init|, SendOn(keys)), m');
  }

  /** A callback arrives and finds no /testlogin flow, if it looks for one. */
  lemma Unclaimed(cfg: Config, s: State, raw: Str) returns (s': State, missAt: Option<nat>)
    requires Reachable(cfg, s) && s.flows.lock.None? && Relay.StateOf(raw) !in s.flows.m
    ensures Reachable(cfg, s') && s'.threads == s.threads + [CMiss(raw, missAt)]
    ensures s'.redirects == s.redirects && s'.server == s.server
  {
    var t := |s.threads|;
    if cfg.diagEnabled {
      var s1 := s.(threads := s.threads + [CWait(raw)]);
      Reach(cfg, s, Arrive(Callback(raw)), s1);
      LastReplaced(s.threads, CWait(raw), CHeldFlow(raw));
      var s2 := s.(threads := s.threads + [CHeldFlow(raw)], flows := s.flows.(lock := Some(t)));
      Reach(cfg, s1, OnTable(t, LockFlows), s2);
      missAt := Some(|s.flows.ops|);
      LastReplaced(s.threads, CHeldFlow(raw), CMiss(raw, missAt));
      s' := s.(threads := s.threads + [CMiss(raw, missAt)], flows := AfterTaking(s.flows, t, Relay.StateOf(raw)));
      Reach(cfg, s2, OnTable(t, TakeFlow), s');
    } else {
      missAt := None;
      s' := s.(threads := s.threads + [CMiss(raw, missAt)]);
      Reach(cfg, s, Arrive(Callback(raw)), s');
    }
  }

  /** A callback for a stored state is relayed. */
  lemma RelayedOn(cfg: Config, m: State, init: seq<Thread>, raw: Str, missAt: Option<nat>, redirect: Str)
    returns (m': State, ending: Ending)
    requires Reachable(cfg, m) && m.threads == init + [CMiss(raw, missAt)] && m.redirects.lock.None?
    requires Relay.StateOf(raw) in m.redirects.m && m.redirects.m[Relay.StateOf(raw)] == redirect
    ensures Reachable(cfg, m') && ending.Relayed? && ending.redirect == redirect
    ensures m' == m.(threads := init + [CDone(raw, ending)],
                     redirects := AfterTaking(m.redirects, |init|, Relay.StateOf(raw)))
  {
    var t := |init|;
    LastReplaced(init, CMiss(raw, missAt), CHeldStore(raw, missAt));
    var m1 := m.(threads := init + [CHeldStore(raw, missAt)], redirects := m.redirects.(lock := Some(t)));
    Reach(cfg, m, OnTable(t, LockRedirects), m1);
    ending := Relayed(missAt, |m.redirects.ops|, redirect, Relay.RelayUrl(redirect, raw));
    LastReplaced(init, CHeldStore(raw, missAt), CDone(raw, ending));
    m' := m.(threads := init + [CDone(raw, ending)], redirects := AfterTaking(m.redirects, t, Relay.StateOf(raw)));
    Reach(cfg, m1, OnTable(t, TakeRedirect), m');
  }

  /** Two answered /authorize requests, of which the first one has been issued a code. */
  lemma TwoClients(cfg: Config, code: Str, raw0: Str, raw1: Str) returns (s: State, wire0: Str, wire1: Str)
    requires code != ""
    ensures Reachable(cfg, s) && s.threads == [ADone(raw0, wire0), ADone(raw1, wire1)]
    ensures s.redirects == WithSave(WithSave(START.redirects, 0, raw0), 1, raw1) && s.flows == START.flows
    ensures s.server.requests == [Sent(0, wire0), Sent(1, wire1)] && s.server.answers == map[code := 0]
  {
    StartReachable(cfg);
    var s0, s1;
    s0, wire0 := Authorized(cfg, START, raw0);
    s1, wire1 := Authorized(cfg, s0, raw1);
    s := ServerApply(s1, Issue(0, code));
    Reach(cfg, s1, OnServer(Issue(0, code)), s);
  }

  /** The redirect store after two saves and a take under the second state. */
  lemma TwoSavesOneTake(raw0: Str, raw1: Str, raw: Str, table: Table<Str>, taken: Table<Str>)
    requires Relay.StateOf(raw0) != Relay.StateOf(raw1) == Relay.StateOf(raw)
    requires table == WithSave(WithSave(START.redirects, 0, raw0), 1, raw1)
    requires taken == AfterTaking(table, 2, Relay.StateOf(raw))
    ensures table.lock.None?
    ensures Relay.StateOf(raw) in table.m && table.m[Relay.StateOf(raw)] == RedirectOf(raw1)
    ensures taken.ops == [OneShot.Saved(0, Relay.StateOf(raw0), RedirectOf(raw0)),
                          OneShot.Saved(1, Relay.StateOf(raw1), RedirectOf(raw1)),
                          OneShot.Took(2, Relay.StateOf(raw), Some(RedirectOf(raw1)))]
  {
  }

  /** Then a callback under the second request's state. */
  lemma Crossed(cfg: Config, code: Str, raw0: Str, raw1: Str, raw: Str)
    returns (s: State, wire0: Str, wire1: Str, ending: Ending)
    requires code != "" && Relay.StateOf(raw0) != Relay.StateOf(raw1) == Relay.StateOf(raw)
    ensures Reachable(cfg, s) && s.threads == [ADone(raw0, wire0), ADone(raw1, wire1)] + [CDone(raw, ending)]
    ensures ending.Relayed? && ending.redirect == RedirectOf(raw1)
    ensures s.redirects.ops == [OneShot.Saved(0, Relay.StateOf(raw0), RedirectOf(raw0)),
                                OneShot.Saved(1, Relay.StateOf(raw1), RedirectOf(raw1)),
                                OneShot.Took(2, Relay.StateOf(raw), Some(RedirectOf(raw1)))]
    ensures s.server.requests == [Sent(0, wire0), Sent(1, wire1)] && s.server.answers == map[code := 0]
  {
    var m;
    m, wire0, wire1 := TwoClients(cfg, code, raw0, raw1);
    TwoSavesOneTake(raw0, raw1, raw, m.redirects, AfterTaking(m.redirects, 2, Relay.StateOf(raw)));
    s, ending := Arrived(cfg, m, raw, RedirectOf(raw1));
  }

  /** A callback arrives for a stored state that no flow claims. */
  lemma Arrived(cfg: Config, m: State, raw: Str, redirect: Str) returns (s: State, ending: Ending)
    requires Reachable(cfg, m) && m.flows == START.flows && m.redirects.lock.None?
    requires Relay.StateOf(raw) in m.redirects.m && m.redirects.m[Relay.StateOf(raw)] == redirect
    ensures Reachable(cfg, s) && ending.Relayed? && ending.redirect == redirect
    ensures s.threads == m.threads + [CDone(raw, ending)] && s.server == m.server
    ensures s.redirects == AfterTaking(m.redirects, |m.threads|, Relay.StateOf(raw))
  {
    var m1, missAt := Unclaimed(cfg, m, raw);
    s, ending := RelayedOn(cfg, m1, m.threads, raw, missAt, redirect);
  }

  /** An answered /authorize request with this state and redirect. */
  predicate AskedWith(th: Thread, state: Str, redirect: Str) {
    th.ADone? && Relay.StateOf(th.raw) == state && RedirectOf(th.raw) == redirect
  }

  lemma OnceEach(ops: seq<OneShot.Op<Str>>)
    requires |ops| == 3 && ops[0].Saved? && ops[1].Saved? && ops[2].Took? && ops[0].key != ops[1].key
    ensures forall k :: OneShot.SavedOnce(ops, k)
  {
  }

  /**
   The relay looks at a callback's state alone. A callback that brings a code under the state of another
   client's request is relayed to that other client, although every state was saved just once.
   */
  lemma CodeUnderAnotherState(cfg: Config, code: Str, state0: Str, redirect0: Str, state1: Str, redirect1: Str)
    returns (s: State)
    requires code != "" && state0 != state1
    ensures Reachable(cfg, s) && |s.threads| == 3 && forall k :: OneShot.SavedOnce(s.redirects.ops, k)
    ensures AskedWith(s.threads[0], state0, redirect0) && AskedWith(s.threads[1], state1, redirect1)
    ensures AnswersOk(s.server) && code in s.server.answers && QueryOf(s, code) == Sent(0, s.threads[0].wire)
    ensures s.threads[2].CDone? && Get(ParseQuery(s.threads[2].raw), CODE) == code
    ensures s.threads[2].ending.Relayed? && s.threads[2].ending.redirect == redirect1
  {
    var raw0 := AuthorizeQuery(state0, redirect0);
    var raw1 := AuthorizeQuery(state1, redirect1);
    var raw := CallbackQuery(state1, code);
    var wire0, wire1, ending;
    s, wire0, wire1, ending := Crossed(cfg, code, raw0, raw1, raw);
    OnceEach(s.redirects.ops);
    ReachableRouting(cfg, s);
    assert s.threads[0] == ADone(raw0, wire0) && s.threads[1] == ADone(raw1, wire1);
    assert s.threads[2] == CDone(raw, ending);
  }
}
