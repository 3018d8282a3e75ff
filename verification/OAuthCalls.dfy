/**
 What /token sends upstream against what it answers: one call for each redemption that consulted the server,
 none for a replay; and when a cached response is the server's own answer for the code.
 */
module OAuthCalls {
  import opened Basics
  import opened Url
  import opened Params
  import opened TokenForm
  import opened Memo
  import opened Flows
  import opened OAuthMachine
  import opened OAuthInvariant
  import opened OAuthSteps
  import opened OAuthTheorems
  import OneShot
  import Relay

  // ----- calls and redemptions -----

  /** The outcome a /token request has got, once it has one; None also for a replay. */
  function OutcomeOf(th: Thread, ops: seq<Op>): Option<Outcome> {
    if th.TAnswered? then Some(th.outcome)
    else if HasCommitted(th) && th.at < |ops| then ops[th.at].outcome
    else None
  }

  function CodeIn(th: Thread): Str
    requires th.TSent? || th.TAnswered? || HasCommitted(th)
  {
    th.code
  }

  predicate WentOut(o: Option<Outcome>) {
    o.Some? && !o.value.BuildFailed?
  }

  /** The request is waiting for the answer to its call, or has an outcome of it. */
  predicate HasCalled(th: Thread, ops: seq<Op>) {
    th.TSent? || WentOut(OutcomeOf(th, ops))
  }

  /** The call is the one this request made. */
  predicate Made(th: Thread, ops: seq<Op>, call: Call) {
    && HasCalled(th, ops)
    && CodeIn(th) == call.code
    && (th.TSent? ==> th.wire == call.wire && th.body == call.body && th.auth == call.auth)
  }

  ghost predicate Called(calls: seq<Call>, who: nat) {
    exists i :: 0 <= i < |calls| && calls[i].who == who
  }

  ghost predicate CallsOk(threads: seq<Thread>, token: TokenTable) {
    && (forall i :: 0 <= i < |token.calls| ==>
          token.calls[i].who < |threads| && Made(threads[token.calls[i].who], token.ops, token.calls[i]))
    && (forall i, j :: 0 <= i < j < |token.calls| ==> token.calls[i].who != token.calls[j].who)
    && (forall t :: 0 <= t < |threads| && HasCalled(threads[t], token.ops) ==> Called(token.calls, t))
  }

  /** A committed request's place lies in the history, so a longer history does not change its outcome. */
  ghost predicate PlacesOk(threads: seq<Thread>, ops: seq<Op>) {
    forall t :: 0 <= t < |threads| && HasCommitted(threads[t]) ==> threads[t].at < |ops|
  }

  lemma Places(cfg: Config, s: State)
    requires ThreadsOk(cfg, s)
    ensures PlacesOk(s.threads, s.token.ops)
  {
    forall t | 0 <= t < |s.threads| && HasCommitted(s.threads[t])
      ensures s.threads[t].at < |s.token.ops|
    {
      assert ThreadOk(cfg, t, s.threads[t], s.token, s.redirects.ops, s.flows.ops);
    }
  }

  /** A request moves without calling; its outcome, if it has one, stays. */
  lemma CallsMove(threads: seq<Thread>, token: TokenTable, token': TokenTable, t: nat, th: Thread)
    requires CallsOk(threads, token) && PlacesOk(threads, token.ops) && t < |threads|
    requires token'.calls == token.calls && token.ops <= token'.ops
    requires HasCalled(threads[t], token.ops) <==> HasCalled(th, token'.ops)
    requires HasCalled(th, token'.ops) ==> !th.TSent? && CodeIn(th) == CodeIn(threads[t])
    ensures CallsOk(threads[t := th], token')
  {
    forall u | 0 <= u < |threads| && u != t
      ensures OutcomeOf(threads[u], token'.ops) == OutcomeOf(threads[u], token.ops)
    {
    }
  }

  lemma CallsArrive(threads: seq<Thread>, token: TokenTable, th: Thread)
    requires CallsOk(threads, token) && !HasCalled(th, token.ops)
    ensures CallsOk(threads + [th], token)
  {
  }

  /** A request makes its call. */
  lemma CallsAdded(threads: seq<Thread>, token: TokenTable, token': TokenTable, t: nat, th: Thread, call: Call)
    requires CallsOk(threads, token) && t < |threads| && !HasCalled(threads[t], token.ops)
    requires token'.ops == token.ops && token'.calls == token.calls + [call]
    requires call.who == t && Made(th, token.ops, call)
    ensures CallsOk(threads[t := th], token')
  {
    var n := |token.calls|;
    assert token'.calls[n].who == t;
    forall u | 0 <= u < |threads| && u != t && HasCalled(threads[u], token.ops)
      ensures Called(token'.calls, u)
    {
      var i :| 0 <= i < n && token.calls[i].who == u;
      assert token'.calls[i].who == u;
    }
  }

  lemma ForwardCalls(cfg: Config, s: State, t: nat, keys: seq<Str>)
    requires CallsOk(s.threads, s.token) && TokenEnabled(cfg, s, t, Forward(keys))
    ensures var s' := TokenApply(cfg, s, t, Forward(keys)); CallsOk(s'.threads, s'.token)
  {
    var s' := TokenApply(cfg, s, t, Forward(keys));
    CallsAdded(s.threads, s.token, s'.token, t, s'.threads[t], s'.token.calls[|s.token.calls|]);
  }

  lemma TokenCalls(cfg: Config, s: State, t: nat, step: TokenStep)
    requires CallsOk(s.threads, s.token) && PlacesOk(s.threads, s.token.ops) && TokenEnabled(cfg, s, t, step)
    ensures var s' := TokenApply(cfg, s, t, step); CallsOk(s'.threads, s'.token)
  {
    if step.Forward? {
      ForwardCalls(cfg, s, t, step.keys);
    } else {
      var s' := TokenApply(cfg, s, t, step);
      CallsMove(s.threads, s.token, s'.token, t, s'.threads[t]);
    }
  }

  /** Callbacks, authorizations and logins never call the token endpoint. */
  predicate OffTokenPath(th: Thread) {
    !OnTokenPath(th)
  }

  lemma OffUncalled(th: Thread, ops: seq<Op>)
    requires OffTokenPath(th) || th.TWait? || th.TBad?
    ensures !HasCalled(th, ops) && OutcomeOf(th, ops).None?
  {
  }

  lemma NextOff(th: Thread, result: Option<Reply>)
    requires th.CPost? || th.CAwait?
    ensures OffTokenPath(NextAttempt(th, result))
  {
  }

  lemma CallbackOff(th: Thread)
    requires th.CPost? || th.CAwait?
    ensures OffTokenPath(th)
  {
  }

  lemma PostOff(cfg: Config, s: State, t: nat, step: PostStep)
    requires PostEnabled(cfg, s, t, step)
    ensures OffTokenPath(s.threads[t]) && OffTokenPath(PostNext(cfg, s, t, step))
  {
    var th := s.threads[t];
    CallbackOff(th);
    match step
    case Post(_, _) => CallbackOff(CAwait(th.raw, th.flow, th.flowAt, th.results, |s.threads|));
    case Collect => NextOff(th, Some(ReplyIn(s.threads[th.child])));
    case _ => NextOff(th, None);
  }

  lemma TakenOff(raw: Str, at: nat, found: Option<Flow>)
    ensures OffTokenPath(AfterTake(raw, at, found))
  {
  }

  lemma TableOff(cfg: Config, s: State, t: nat, step: TableStep)
    requires TableEnabled(cfg, s, t, step)
    ensures OffTokenPath(s.threads[t]) && OffTokenPath(TableNext(cfg, s, t, step))
  {
    if step.TakeFlow? {
      var raw := s.threads[t].raw;
      TakenOff(raw, |s.flows.ops|, OneShot.Found(s.flows.m, Relay.StateOf(raw)));
    }
  }

  lemma NewUncalled(cfg: Config, body: Option<Str>, auth: Str)
    ensures TokenThread(cfg, body, auth).TWait? || TokenThread(cfg, body, auth).TBad?
  {
  }

  lemma ArrivalUncalled(cfg: Config, request: Request, ops: seq<Op>)
    ensures !HasCalled(NewThread(cfg, request), ops)
  {
    if request.Token? {
      NewUncalled(cfg, request.body, request.auth);
    }
  }

  lemma PostedUncalled(cfg: Config, th: Thread, keys: seq<Str>, readable: bool)
    requires th.CPost?
    ensures PostedRequest(cfg, th, keys, readable).TWait? || PostedRequest(cfg, th, keys, readable).TBad?
  {
    NewUncalled(cfg, if readable then Some(Encode(ExchangeForm(cfg, CodeOf(th), th.flow), keys)) else None, "");
  }

  lemma PostCalls(cfg: Config, s: State, t: nat, step: PostStep, th': Thread)
    requires CallsOk(s.threads, s.token) && PlacesOk(s.threads, s.token.ops) && PostEnabled(cfg, s, t, step)
    requires th' == PostNext(cfg, s, t, step)
    ensures var s' := PostApply(cfg, s, t, step); CallsOk(s'.threads, s'.token)
  {
    PostOff(cfg, s, t, step);
    OffUncalled(s.threads[t], s.token.ops);
    OffUncalled(th', s.token.ops);
    CallsMove(s.threads, s.token, s.token, t, th');
    if step.Post? {
      var child := PostedRequest(cfg, s.threads[t], step.keys, step.readable);
      PostedUncalled(cfg, s.threads[t], step.keys, step.readable);
      OffUncalled(child, s.token.ops);
      CallsArrive(s.threads[t := th'], s.token, child);
    }
  }

  lemma TableCalls(cfg: Config, s: State, t: nat, step: TableStep)
    requires CallsOk(s.threads, s.token) && PlacesOk(s.threads, s.token.ops) && TableEnabled(cfg, s, t, step)
    ensures var s' := TableApply(cfg, s, t, step); CallsOk(s'.threads, s'.token)
  {
    TableOff(cfg, s, t, step);
    OffUncalled(s.threads[t], s.token.ops);
    OffUncalled(TableNext(cfg, s, t, step), s.token.ops);
    CallsMove(s.threads, s.token, s.token, t, TableNext(cfg, s, t, step));
  }

  // ----- what the server has granted -----

  /** The call at `i` brought back this success. */
  predicate GotSuccess(threads: seq<Thread>, token: TokenTable, i: nat, r: Response) {
    && i < |token.calls| && token.calls[i].who < |threads| && Success(r)
    && OutcomeOf(threads[token.calls[i].who], token.ops) == Some(Answered(r))
  }

  /** Every success of an exchange is the one the server granted. */
  ghost predicate GotIsGranted(threads: seq<Thread>, token: TokenTable, granted: map<Str, Response>) {
    forall i: nat, r :: GotSuccess(threads, token, i, r) && IsExchange(token.calls[i].wire) ==>
      token.calls[i].code in granted && granted[token.calls[i].code] == r
  }

  ghost predicate ExchangeGot(threads: seq<Thread>, token: TokenTable, code: Str, r: Response) {
    exists i: nat :: GotSuccess(threads, token, i, r) && IsExchange(token.calls[i].wire) && token.calls[i].code == code
  }

  /** Every success the server granted was brought back by an exchange. */
  ghost predicate GrantedIsGot(threads: seq<Thread>, token: TokenTable, granted: map<Str, Response>) {
    forall code <- granted :: ExchangeGot(threads, token, code, granted[code])
  }

  predicate SpentExact(server: Server) {
    server.spent == server.granted.Keys + server.outside
  }

  ghost predicate GrantsOk(s: State) {
    && SpentExact(s.server)
    && GotIsGranted(s.threads, s.token, s.server.granted) && GrantedIsGot(s.threads, s.token, s.server.granted)
  }

  /** Nothing changes in what calls have brought back. */
  ghost predicate SameGot(threads: seq<Thread>, token: TokenTable, threads': seq<Thread>, token': TokenTable) {
    && token.calls <= token'.calls
    && (forall i: nat, r :: GotSuccess(threads', token', i, r) <==> GotSuccess(threads, token, i, r))
  }

  lemma GrantsFrame(threads: seq<Thread>, token: TokenTable, threads': seq<Thread>, token': TokenTable,
                    granted: map<Str, Response>)
    requires GotIsGranted(threads, token, granted) && GrantedIsGot(threads, token, granted)
    requires SameGot(threads, token, threads', token')
    ensures GotIsGranted(threads', token', granted) && GrantedIsGot(threads', token', granted)
  {
    forall code | code in granted
      ensures ExchangeGot(threads', token', code, granted[code])
    {
      var i: nat :|
        GotSuccess(threads, token, i, granted[code]) && IsExchange(token.calls[i].wire) && token.calls[i].code == code;
      assert GotSuccess(threads', token', i, granted[code]);
    }
  }

  predicate SuccessIn(o: Option<Outcome>) {
    o.Some? && o.value.Answered? && Success(o.value.response)
  }

  /** A move that changes no request's success. */
  lemma SameGotMove(threads: seq<Thread>, token: TokenTable, token': TokenTable, t: nat, th: Thread)
    requires CallsOk(threads, token) && PlacesOk(threads, token.ops) && t < |threads|
    requires token.calls <= token'.calls && token.ops <= token'.ops
    requires forall i :: |token.calls| <= i < |token'.calls| ==> token'.calls[i].who == t && th.TSent?
    requires OutcomeOf(th, token'.ops) == OutcomeOf(threads[t], token.ops)
             || (!SuccessIn(OutcomeOf(th, token'.ops)) && !SuccessIn(OutcomeOf(threads[t], token.ops)))
    ensures SameGot(threads, token, threads[t := th], token')
  {
    forall u | 0 <= u < |threads| && u != t
      ensures OutcomeOf(threads[u], token'.ops) == OutcomeOf(threads[u], token.ops)
    {
    }
  }

  lemma SameGotArrive(threads: seq<Thread>, token: TokenTable, th: Thread)
    requires CallsOk(threads, token)
    ensures SameGot(threads, token, threads + [th], token)
  {
  }

  lemma GotElsewhere(threads: seq<Thread>, token: TokenTable, t: nat, th: Thread, i: nat, r: Response)
    requires CallsOk(threads, token) && t < |threads|
    requires i < |token.calls| ==> token.calls[i].who != t
    ensures GotSuccess(threads[t := th], token, i, r) <==> GotSuccess(threads, token, i, r)
  {
  }

  lemma CallOf(threads: seq<Thread>, token: TokenTable, t: nat) returns (n: nat)
    requires CallsOk(threads, token) && t < |threads| && HasCalled(threads[t], token.ops)
    ensures n < |token.calls| && token.calls[n].who == t && Made(threads[t], token.ops, token.calls[n])
    ensures forall i :: 0 <= i < |token.calls| && token.calls[i].who == t ==> i == n
  {
    n :| 0 <= n < |token.calls| && token.calls[n].who == t;
  }

  lemma SuccessIsBack(threads: seq<Thread>, token: TokenTable, i: nat, r: Response)
    requires GotSuccess(threads, token, i, r)
    ensures !threads[token.calls[i].who].TSent?
  {
  }

  lemma GotStays(threads: seq<Thread>, token: TokenTable, t: nat, th: Thread, i: nat, r: Response)
    requires CallsOk(threads, token) && t < |threads| && threads[t].TSent? && GotSuccess(threads, token, i, r)
    ensures GotSuccess(threads[t := th], token, i, r)
  {
    SuccessIsBack(threads, token, i, r);
    GotElsewhere(threads, token, t, th, i, r);
  }

  /** What calls have brought back stays while another request gets its answer. */
  lemma ExchangeStays(threads: seq<Thread>, token: TokenTable, t: nat, th: Thread, code: Str, r: Response)
    requires CallsOk(threads, token) && t < |threads| && threads[t].TSent? && ExchangeGot(threads, token, code, r)
    ensures ExchangeGot(threads[t := th], token, code, r)
  {
    var i: nat :| GotSuccess(threads, token, i, r) && IsExchange(token.calls[i].wire) && token.calls[i].code == code;
    GotStays(threads, token, t, th, i, r);
  }

  /** The server grants an exchange: the one new success, for a code it had not granted. */
  lemma GrantAdded(threads: seq<Thread>, token: TokenTable, t: nat, th: Thread, code: Str, r: Response,
                   granted: map<Str, Response>)
    requires CallsOk(threads, token) && GotIsGranted(threads, token, granted) && GrantedIsGot(threads, token, granted)
    requires t < |threads| && threads[t].TSent? && threads[t].code == code && IsExchange(threads[t].wire)
    requires code !in granted
    requires th == TAnswered(code, Answered(r)) && Success(r)
    ensures GotIsGranted(threads[t := th], token, granted[code := r])
    ensures GrantedIsGot(threads[t := th], token, granted[code := r])
  {
    var n := CallOf(threads, token, t);
    var threads', granted' := threads[t := th], granted[code := r];
    forall i: nat, x | GotSuccess(threads', token, i, x) && IsExchange(token.calls[i].wire)
      ensures token.calls[i].code in granted' && granted'[token.calls[i].code] == x
    {
      if i != n {
        GotElsewhere(threads, token, t, th, i, x);
      }
    }
    GrantedStays(threads, token, t, th, n, code, r, granted);
  }

  lemma GrantedStays(threads: seq<Thread>, token: TokenTable, t: nat, th: Thread, n: nat, code: Str, r: Response,
                     granted: map<Str, Response>)
    requires CallsOk(threads, token) && GrantedIsGot(threads, token, granted) && t < |threads| && threads[t].TSent?
    requires n < |token.calls| && token.calls[n].who == t && token.calls[n].code == code
    requires IsExchange(token.calls[n].wire)
    requires th == TAnswered(code, Answered(r)) && Success(r)
    ensures GrantedIsGot(threads[t := th], token, granted[code := r])
  {
    var threads', granted' := threads[t := th], granted[code := r];
    assert GotSuccess(threads', token, n, r);
    forall c | c in granted'.Keys
      ensures ExchangeGot(threads', token, c, granted'[c])
    {
      if c != code {
        ExchangeStays(threads, token, t, th, c, granted[c]);
      }
    }
  }

  /** An answer that grants nothing: no exchange has a new success. */
  lemma PlainAnswer(threads: seq<Thread>, token: TokenTable, t: nat, th: Thread, granted: map<Str, Response>)
    requires CallsOk(threads, token) && GotIsGranted(threads, token, granted) && GrantedIsGot(threads, token, granted)
    requires t < |threads| && threads[t].TSent? && th.TAnswered?
    requires IsExchange(threads[t].wire) ==> !SuccessIn(Some(th.outcome))
    ensures GotIsGranted(threads[t := th], token, granted) && GrantedIsGot(threads[t := th], token, granted)
  {
    var n := CallOf(threads, token, t);
    var threads' := threads[t := th];
    forall i: nat, x | GotSuccess(threads', token, i, x) && IsExchange(token.calls[i].wire)
      ensures token.calls[i].code in granted && granted[token.calls[i].code] == x
    {
      if i != n {
        GotElsewhere(threads, token, t, th, i, x);
      }
    }
    GrantedStaysPlain(threads, token, t, th, granted);
  }

  lemma GrantedStaysPlain(threads: seq<Thread>, token: TokenTable, t: nat, th: Thread, granted: map<Str, Response>)
    requires CallsOk(threads, token) && GrantedIsGot(threads, token, granted) && t < |threads| && threads[t].TSent?
    ensures GrantedIsGot(threads[t := th], token, granted)
  {
    forall c | c in granted.Keys
      ensures ExchangeGot(threads[t := th], token, c, granted[c])
    {
      ExchangeStays(threads, token, t, th, c, granted[c]);
    }
  }

  /** An answer that redeems a code: the server records what it gives. */
  lemma GrantingAnswer(cfg: Config, s: State, t: nat, response: Response)
    requires t < |s.threads| && s.threads[t].TSent? && s.threads[t].code == Get(ParseQuery(s.threads[t].wire), CODE)
    requires Success(response) && IsExchange(s.threads[t].wire)
    requires GrantsOk(s) && CallsOk(s.threads, s.token) && TokenEnabled(cfg, s, t, Answer(response))
    ensures GrantsOk(TokenApply(cfg, s, t, Answer(response)))
  {
    var code := s.threads[t].code;
    GrantAdded(s.threads, s.token, t, TAnswered(code, Answered(response)), code, response, s.server.granted);
  }

  lemma AnswerGrants(cfg: Config, s: State, t: nat, response: Response)
    requires t < |s.threads| && s.threads[t].TSent? && s.threads[t].code == Get(ParseQuery(s.threads[t].wire), CODE)
    requires GrantsOk(s) && CallsOk(s.threads, s.token) && TokenEnabled(cfg, s, t, Answer(response))
    ensures GrantsOk(TokenApply(cfg, s, t, Answer(response)))
  {
    if Success(response) && IsExchange(s.threads[t].wire) {
      GrantingAnswer(cfg, s, t, response);
    } else {
      PlainAnswer(s.threads, s.token, t, TAnswered(s.threads[t].code, Answered(response)), s.server.granted);
    }
  }

  /** Apart from answers, steps of /token requests bring no success. */
  lemma QuietStep(cfg: Config, s: State, t: nat, step: TokenStep)
    requires PlacesOk(s.threads, s.token.ops) && TokenEnabled(cfg, s, t, step) && !step.Answer?
    ensures
      var s' := TokenApply(cfg, s, t, step);
      && s.token.calls <= s'.token.calls && s.token.ops <= s'.token.ops
      && (forall i :: |s.token.calls| <= i < |s'.token.calls| ==> s'.token.calls[i].who == t && s'.threads[t].TSent?)
      && (OutcomeOf(s'.threads[t], s'.token.ops) == OutcomeOf(s.threads[t], s.token.ops)
          || (!SuccessIn(OutcomeOf(s'.threads[t], s'.token.ops)) && !SuccessIn(OutcomeOf(s.threads[t], s.token.ops))))
      && s'.server.granted == s.server.granted && (SpentExact(s.server) ==> SpentExact(s'.server))
  {
  }

  lemma QuietGrants(cfg: Config, s: State, s': State, t: nat, step: TokenStep)
    requires GrantsOk(s) && CallsOk(s.threads, s.token) && PlacesOk(s.threads, s.token.ops)
    requires TokenEnabled(cfg, s, t, step) && !step.Answer? && s' == TokenApply(cfg, s, t, step)
    ensures GrantsOk(s')
  {
    QuietStep(cfg, s, t, step);
    TokenFrame(cfg, s, t, step);
    SameGotMove(s.threads, s.token, s'.token, t, s'.threads[t]);
    GrantsFrame(s.threads, s.token, s'.threads, s'.token, s.server.granted);
  }

  /** Requests off the token path move without any effect here. */
  lemma OffGrants(s: State, t: nat, th: Thread)
    requires GrantsOk(s) && CallsOk(s.threads, s.token) && PlacesOk(s.threads, s.token.ops) && t < |s.threads|
    requires OffTokenPath(s.threads[t]) && OffTokenPath(th)
    ensures GrantsOk(s.(threads := s.threads[t := th]))
  {
    OffUncalled(s.threads[t], s.token.ops);
    OffUncalled(th, s.token.ops);
    SameGotMove(s.threads, s.token, s.token, t, th);
    GrantsFrame(s.threads, s.token, s.threads[t := th], s.token, s.server.granted);
  }

  lemma TableGrants(cfg: Config, s: State, t: nat, step: TableStep)
    requires GrantsOk(s) && CallsOk(s.threads, s.token) && PlacesOk(s.threads, s.token.ops)
    requires TableEnabled(cfg, s, t, step)
    ensures GrantsOk(TableApply(cfg, s, t, step))
  {
    TableOff(cfg, s, t, step);
    OffGrants(s, t, TableNext(cfg, s, t, step));
  }

  lemma ArriveGrants(s: State, th: Thread)
    requires GrantsOk(s) && CallsOk(s.threads, s.token)
    ensures GrantsOk(s.(threads := s.threads + [th]))
  {
    SameGotArrive(s.threads, s.token, th);
    GrantsFrame(s.threads, s.token, s.threads + [th], s.token, s.server.granted);
  }

  lemma PostGrants(cfg: Config, s: State, t: nat, step: PostStep, th': Thread)
    requires GrantsOk(s) && CallsOk(s.threads, s.token) && PlacesOk(s.threads, s.token.ops)
    requires PostEnabled(cfg, s, t, step)
    requires th' == PostNext(cfg, s, t, step)
    ensures GrantsOk(PostApply(cfg, s, t, step))
  {
    var moved := s.(threads := s.threads[t := th']);
    PostOff(cfg, s, t, step);
    OffGrants(s, t, th');
    if step.Post? {
      OffUncalled(s.threads[t], s.token.ops);
      OffUncalled(th', s.token.ops);
      CallsMove(s.threads, s.token, s.token, t, th');
      ArriveGrants(moved, PostedRequest(cfg, s.threads[t], step.keys, step.readable));
    }
  }

  lemma ServerGrants(s: State, step: ServerStep)
    requires GrantsOk(s) && ServerEnabled(s, step)
    ensures GrantsOk(ServerApply(s, step))
  {
  }

  // ----- all actions -----

  ghost predicate HistoryOk(s: State) {
    CallsOk(s.threads, s.token) && GrantsOk(s)
  }

  lemma TokenHistory(cfg: Config, s: State, t: nat, step: TokenStep)
    requires Inv(cfg, s) && HistoryOk(s) && TokenEnabled(cfg, s, t, step)
    ensures HistoryOk(TokenApply(cfg, s, t, step))
  {
    Places(cfg, s);
    TokenCalls(cfg, s, t, step);
    if step.Answer? {
      InvThread(cfg, s, t);
      AnswerGrants(cfg, s, t, step.response);
    } else {
      QuietGrants(cfg, s, TokenApply(cfg, s, t, step), t, step);
    }
  }

  lemma TableHistory(cfg: Config, s: State, t: nat, step: TableStep)
    requires Inv(cfg, s) && HistoryOk(s) && TableEnabled(cfg, s, t, step)
    ensures HistoryOk(TableApply(cfg, s, t, step))
  {
    Places(cfg, s);
    TableCalls(cfg, s, t, step);
    TableGrants(cfg, s, t, step);
  }

  lemma PostHistory(cfg: Config, s: State, t: nat, step: PostStep)
    requires Inv(cfg, s) && HistoryOk(s) && PostEnabled(cfg, s, t, step)
    ensures HistoryOk(PostApply(cfg, s, t, step))
  {
    Places(cfg, s);
    PostCalls(cfg, s, t, step, PostNext(cfg, s, t, step));
    PostGrants(cfg, s, t, step, PostNext(cfg, s, t, step));
  }

  lemma ArriveHistory(cfg: Config, s: State, request: Request)
    requires HistoryOk(s)
    ensures HistoryOk(s.(threads := s.threads + [NewThread(cfg, request)]))
  {
    ArrivalUncalled(cfg, request, s.token.ops);
    CallsArrive(s.threads, s.token, NewThread(cfg, request));
    ArriveGrants(s, NewThread(cfg, request));
  }

  lemma StepHistory(cfg: Config, s: State, a: Action)
    requires Inv(cfg, s) && HistoryOk(s) && Enabled(cfg, s, a)
    ensures HistoryOk(Apply(cfg, s, a))
  {
    match a
    case Arrive(request) => ArriveHistory(cfg, s, request);
    case OnToken(t, step) => TokenHistory(cfg, s, t, step);
    case OnTable(t, step) => TableHistory(cfg, s, t, step);
    case OnPost(t, step) => PostHistory(cfg, s, t, step);
    case OnServer(step) => ServerGrants(s, step);
  }

  lemma {:induction false} RunHistory(cfg: Config, s: State, actions: seq<Action>)
    requires Inv(cfg, s) && HistoryOk(s) && Schedule(cfg, s, actions)
    ensures HistoryOk(Run(cfg, s, actions))
    decreases |actions|
  {
    if actions != [] {
      StepInv(cfg, s, actions[0]);
      StepHistory(cfg, s, actions[0]);
      RunHistory(cfg, Apply(cfg, s, actions[0]), actions[1..]);
    }
  }

  lemma ReachableHistory(cfg: Config, s: State)
    requires Reachable(cfg, s)
    ensures HistoryOk(s)
  {
    var actions :| Schedule(cfg, START, actions) && Run(cfg, START, actions) == s;
    StartInv(cfg);
    RunHistory(cfg, START, actions);
  }

  // ----- results -----

  /**
   The proxy calls the server exactly once for each redemption that consulted it, for that redemption's code,
   and never for a replay or for a request it could not build.
   */
  lemma OneCallPerConsultation(cfg: Config, s: State, k: nat)
    requires Reachable(cfg, s) && k < |s.token.ops|
    ensures WentOut(s.token.ops[k].outcome) <==> Called(s.token.calls, s.token.ops[k].who)
    ensures forall i, j :: 0 <= i < j < |s.token.calls| ==> s.token.calls[i].who != s.token.calls[j].who
    ensures forall i :: 0 <= i < |s.token.calls| && s.token.calls[i].who == s.token.ops[k].who ==>
      s.token.calls[i].code == s.token.ops[k].code
  {
    ReachableInv(cfg, s);
    ReachableHistory(cfg, s);
    var t := s.token.ops[k].who;
    InvThread(cfg, s, t);
    assert OutcomeOf(s.threads[t], s.token.ops) == s.token.ops[k].outcome;
  }

  /** The redemption that put the cached response there. */
  lemma {:induction false} FirstSuccessOrigin(ops: seq<Op>, code: Str) returns (k: nat)
    requires FirstSuccess(ops, code).Some?
    ensures k < |ops| && ops[k].code == code && Fresh(ops[k])
    ensures ops[k].outcome == Some(Answered(FirstSuccess(ops, code).value))
  {
    var n := |ops| - 1;
    if FirstSuccess(ops[..n], code).Some? {
      k := FirstSuccessOrigin(ops[..n], code);
    } else {
      k := n;
    }
  }

  /** A call that brought a success for a cached code is the call that filled the cache. */
  lemma SuccessIsCached(cfg: Config, s: State, i: nat, r: Response) returns (k: nat)
    requires Inv(cfg, s) && HistoryOk(s) && GotSuccess(s.threads, s.token, i, r)
    requires s.token.calls[i].code != "" && s.token.calls[i].code in s.token.cache
    ensures k < |s.token.ops| && s.token.ops[k].who == s.token.calls[i].who
    ensures s.token.ops[k].code == s.token.calls[i].code
    ensures Fresh(s.token.ops[k]) && s.token.ops[k].outcome == Some(Answered(r))
  {
    var t := s.token.calls[i].who;
    InvThread(cfg, s, t);
    k := s.threads[t].at;
  }

  /** Some request that is no exchange carried the code and got a success. */
  ghost predicate PlainSuccess(s: State, code: Str) {
    exists i: nat, r :: GotSuccess(s.threads, s.token, i, r) &&
                        s.token.calls[i].code == code && !IsExchange(s.token.calls[i].wire)
  }

  /** All calls that brought a success for a cached code are the same call. */
  lemma OneSuccessfulCall(cfg: Config, s: State, i: nat, r: Response, j: nat, x: Response)
    requires Inv(cfg, s) && HistoryOk(s) && GotSuccess(s.threads, s.token, i, r) && GotSuccess(s.threads, s.token, j, x)
    requires s.token.calls[i].code == s.token.calls[j].code != "" && s.token.calls[i].code in s.token.cache
    ensures i == j && r == x
  {
    var k := SuccessIsCached(cfg, s, i, r);
    var l := SuccessIsCached(cfg, s, j, x);
    OneFreshSuccess(s.token.ops, k, l);
  }

  /** The call that filled the cache. */
  lemma CacheFiller(cfg: Config, s: State, code: Str) returns (i: nat)
    requires Inv(cfg, s) && HistoryOk(s) && code in s.token.cache
    ensures GotSuccess(s.threads, s.token, i, s.token.cache[code]) && s.token.calls[i].code == code && code != ""
  {
    assert FirstSuccess(s.token.ops, code) == Some(s.token.cache[code]);
    var k := FirstSuccessOrigin(s.token.ops, code);
    var t := s.token.ops[k].who;
    InvThread(cfg, s, t);
    i := CallOf(s.threads, s.token, t);
  }

  lemma GrantingCall(s: State, code: Str) returns (j: nat)
    requires HistoryOk(s) && code in s.server.granted
    ensures GotSuccess(s.threads, s.token, j, s.server.granted[code])
    ensures IsExchange(s.token.calls[j].wire) && s.token.calls[j].code == code
  {
    assert ExchangeGot(s.threads, s.token, code, s.server.granted[code]);
    j :| GotSuccess(s.threads, s.token, j, s.server.granted[code]) && IsExchange(s.token.calls[j].wire)
         && s.token.calls[j].code == code;
  }

  /**
   What is cached for a code is the server's own answer to an exchange of that code exactly when no request
   that is not an exchange has carried the code and got a 200.
   */
  lemma OwnAnswerIff(cfg: Config, s: State, code: Str)
    requires Reachable(cfg, s) && code in s.token.cache
    ensures code in s.server.granted && s.server.granted[code] == s.token.cache[code] <==> !PlainSuccess(s, code)
  {
    ReachableInv(cfg, s);
    ReachableHistory(cfg, s);
    var i := CacheFiller(cfg, s, code);
    if IsExchange(s.token.calls[i].wire) {
      forall j: nat, x | GotSuccess(s.threads, s.token, j, x) && s.token.calls[j].code == code
        ensures IsExchange(s.token.calls[j].wire)
      {
        OneSuccessfulCall(cfg, s, i, s.token.cache[code], j, x);
      }
    } else if code in s.server.granted {
      var j := GrantingCall(s, code);
      OneSuccessfulCall(cfg, s, i, s.token.cache[code], j, s.server.granted[code]);
    }
  }

  /**
   A code the authorization server has redeemed can be replayed whenever the token lock is free, with the
   server's own answer, unless that answer was given to somebody else or got lost on the way back.
   */
  lemma RedeemedCodeIsReplayable(cfg: Config, s: State, code: Str)
    requires Reachable(cfg, s)
    requires code in s.server.spent && code !in s.server.outside && s.token.lock.None?
    ensures code in s.token.cache && Success(s.token.cache[code])
    ensures code in s.server.granted && s.token.cache[code] == s.server.granted[code]
  {
    RedeemedCodeIsCached(cfg, s, code);
    ReachableInv(cfg, s);
    ReachableHistory(cfg, s);
    var j := GrantingCall(s, code);
    var i := CacheFiller(cfg, s, code);
    OneSuccessfulCall(cfg, s, i, s.token.cache[code], j, s.server.granted[code]);
  }
}
