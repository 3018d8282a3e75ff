/**
 /authorize, /callback, /token and /testlogin as concurrent threads over three mutex-guarded tables,
 together with the authorization server that issues and redeems codes. A thread's index is its name and
 its constructor is its program counter; every step is one atomic action, and a run is any sequence of
 enabled actions. The logs (`ops`, `calls`, `requests`, `posts`) record what happened and steer nothing.
 */
module OAuthMachine {
  import opened Basics
  import opened Url
  import opened Params
  import opened TokenForm
  import opened Memo
  import opened Flows
  import OneShot
  import Relay

  // ----- state -----

  type Results = seq<Option<Reply>>

  /** `at` fields point into the log of the table where the thread's own operation is recorded. */
  datatype Ending =
    | AuthError(flowAt: nat)
    | Handled(flowAt: nat, flow: Flow, results: Results)
    | Relayed(missAt: Option<nat>, at: nat, redirect: Str, url: Str)
    | Rejected(missAt: Option<nat>, at: nat)

  datatype Thread =
    // POST /token
    | TWait(body: Str, form: Values, auth: Str)   // body parsed and prepared, lock not taken
    | THeld(body: Str, form: Values, auth: Str)   // lock held, cache not consulted
    | TMiss(body: Str, form: Values, auth: Str)   // nothing cached for this code
    | TSent(body: Str, code: Str, wire: Str, auth: Str)  // waiting for the authorization server
    | TAnswered(code: Str, outcome: Outcome)
    | TReply(code: Str, reply: Reply, at: nat)    // reply decided, not yet written
    | TWritten(code: Str, reply: Reply, at: nat)  // reply written, lock still held
    | TDone(code: Str, reply: Reply, at: nat)
    | TBad                                        // body could not be read
    // GET /authorize
    | AWait(raw: Str) | AHeld(raw: Str) | ASaved(raw: Str) | ADone(raw: Str, wire: Str)
    // GET /testlogin
    | LWait(raw: Str, state: Str, verifier: Str, challenge: Str)
    | LHeld(raw: Str, state: Str, verifier: Str, challenge: Str)
    | LSaved(raw: Str, state: Str, verifier: Str, challenge: Str)
    | LDone(raw: Str, state: Str, verifier: Str, challenge: Str, wire: Str)
    // GET /callback
    | CWait(raw: Str) | CHeldFlow(raw: Str)
    | CMiss(raw: Str, missAt: Option<nat>) | CHeldStore(raw: Str, missAt: Option<nat>)
    | CPost(raw: Str, flow: Flow, flowAt: nat, results: Results)
    | CAwait(raw: Str, flow: Flow, flowAt: nat, results: Results, child: nat)
    | CDone(raw: Str, ending: Ending)

  /** A request the proxy sent to the token endpoint on behalf of a client's `body`. */
  datatype Call = Call(who: nat, body: Str, code: Str, wire: Str, auth: Str)

  /** An authorize query and the request that sent the browser away with it. */
  datatype Sent = Sent(who: nat, wire: Str)

  datatype TokenTable = TokenTable(lock: Option<nat>, cache: Cache, ops: seq<Op>, calls: seq<Call>)

  datatype Table<V> = Table(lock: Option<nat>, m: map<Str, V>, ops: seq<OneShot.Op<V>>)

  /**
   The authorization server: authorize queries it received, the redirect_uri each code is bound to, the
   query each code answers, codes already redeemed, those of them whose success never reached the proxy,
   and the success it gave the proxy for each of the others.
   */
  datatype Server = Server(requests: seq<Sent>, bound: map<Str, Str>, answers: map<Str, nat>,
                           spent: set<Str>, outside: set<Str>, granted: map<Str, Response>)

  /** A callback posted a loopback request. */
  datatype Posted = Posted(parent: nat, child: nat)

  datatype State = State(threads: seq<Thread>, token: TokenTable, redirects: Table<Str>, flows: Table<Flow>,
                         server: Server, posts: seq<Posted>)

  const START := State([], TokenTable(None, map[], [], []), Table(None, map[], []), Table(None, map[], []),
                       Server([], map[], map[], {}, {}, map[]), [])

  // ----- actions -----

  datatype Request =
    | Token(body: Option<Str>, auth: Str)
    | Authorize(raw: Str)
    | Login(raw: Str, state: Str, verifier: Str, challenge: Str)
    | Callback(raw: Str)

  datatype TokenStep =
    | Lock
    | Consult
    | FailBuild
    | Forward(keys: seq<Str>)
    | Answer(response: Response)
    | Lose(redeemed: bool)   // no response arrives; the server may have redeemed the code all the same
    | Store
    | Write
    | Unlock

  /** SendOn prints the outgoing authorize query with its keys in the given order. */
  datatype TableStep = LockRedirects | SaveRedirect | TakeRedirect
    | LockFlows | SaveFlow | TakeFlow | SendOn(keys: seq<Str>)

  datatype PostStep =
    | Post(keys: seq<Str>, readable: bool)
    | PostFails
    | Collect
    | GiveUp

  datatype ServerStep = Issue(i: nat, code: Str) | RedeemElsewhere(code: Str)

  datatype Action =
    | Arrive(request: Request)
    | OnToken(t: nat, token: TokenStep)
    | OnTable(t: nat, table: TableStep)
    | OnPost(t: nat, post: PostStep)
    | OnServer(server: ServerStep)

  // ----- arrivals -----

  function TokenThread(cfg: Config, body: Option<Str>, auth: Str): Thread {
    if body.None? then TBad else TWait(body.value, Prepare(cfg, ParseQuery(body.value)), auth)
  }

  function NewThread(cfg: Config, r: Request): Thread {
    match r
    case Token(body, auth) => TokenThread(cfg, body, auth)
    case Authorize(raw) => AWait(raw)
    case Login(raw, state, verifier, challenge) => LWait(raw, state, verifier, challenge)
    case Callback(raw) => if cfg.diagEnabled then CWait(raw) else CMiss(raw, None)
  }

  // ----- /token -----

  /** The server may redeem this token request: a bound, unspent code with its own redirect_uri. */
  predicate Redeemable(server: Server, wire: Str) {
    var form := ParseQuery(wire);
    var code := Get(form, CODE);
    && Get(form, GRANT_TYPE) == AUTHORIZATION_CODE
    && code in server.bound && code !in server.spent
    && Get(form, REDIRECT_URI) == server.bound[code]
  }

  predicate IsExchange(wire: Str) {
    Get(ParseQuery(wire), GRANT_TYPE) == AUTHORIZATION_CODE
  }

  ghost predicate TokenEnabled(cfg: Config, s: State, t: nat, step: TokenStep) {
    t < |s.threads| &&
    var th := s.threads[t];
    match step
    case Lock => th.TWait? && s.token.lock.None?
    case Consult => th.THeld?
    case FailBuild => th.TMiss?
    case Forward(keys) => th.TMiss? && Enumerates(keys, Inject(cfg, th.form, th.auth).Keys)
    case Answer(response) => th.TSent? && (Success(response) && IsExchange(th.wire) ==> Redeemable(s.server, th.wire))
    case Lose(redeemed) => th.TSent? && (redeemed ==> Redeemable(s.server, th.wire))
    case Store => th.TAnswered?
    case Write => th.TReply?
    case Unlock => th.TWritten?
  }

  function TokenApply(cfg: Config, s: State, t: nat, step: TokenStep): State
    requires TokenEnabled(cfg, s, t, step)
  {
    var th := s.threads[t];
    var k := s.token;
    match step
    case Lock => s.(threads := s.threads[t := THeld(th.body, th.form, th.auth)], token := k.(lock := Some(t)))
    case Consult =>
      var code := Get(th.form, CODE);
      if Hit(k.cache, code) then
        var op := Op(t, code, None, Passed(k.cache[code]));
        s.(threads := s.threads[t := TReply(code, op.reply, |k.ops|)], token := k.(ops := k.ops + [op]))
      else
        s.(threads := s.threads[t := TMiss(th.body, th.form, th.auth)])
    case FailBuild => s.(threads := s.threads[t := TAnswered(Get(th.form, CODE), BuildFailed)])
    case Forward(keys) =>
      var code := Get(th.form, CODE);
      var wire := Encode(Inject(cfg, th.form, th.auth), keys);
      s.(threads := s.threads[t := TSent(th.body, code, wire, th.auth)],
         token := k.(calls := k.calls + [Call(t, th.body, code, wire, th.auth)]))
    case Answer(response) =>
      s.(threads := s.threads[t := TAnswered(th.code, Answered(response))],
         server := if Success(response) && IsExchange(th.wire)
                   then Grant(s.server, Get(ParseQuery(th.wire), CODE), response)
                   else s.server)
    case Lose(redeemed) =>
      s.(threads := s.threads[t := TAnswered(th.code, TransportFailed)],
         server := if redeemed then SpendOutside(s.server, Get(ParseQuery(th.wire), CODE)) else s.server)
    case Store =>
      var op := Op(t, th.code, Some(th.outcome), ReplyOf(th.outcome));
      s.(threads := s.threads[t := TReply(th.code, op.reply, |k.ops|)],
         token := k.(cache := Remember(k.cache, th.code, th.outcome), ops := k.ops + [op]))
    case Write => s.(threads := s.threads[t := TWritten(th.code, th.reply, th.at)])
    case Unlock => s.(threads := s.threads[t := TDone(th.code, th.reply, th.at)], token := k.(lock := None))
  }

  /** The server redeems a code for the proxy. */
  function Grant(server: Server, code: Str, response: Response): Server {
    server.(spent := server.spent + {code}, granted := server.granted[code := response])
  }

  /** The server redeems a code, and the proxy never hears of it. */
  function SpendOutside(server: Server, code: Str): Server {
    server.(spent := server.spent + {code}, outside := server.outside + {code})
  }

  // ----- the redirect store and the /testlogin flows -----

  /** The query a saved /authorize or /testlogin request sends the browser away with. */
  function Outgoing(cfg: Config, th: Thread): Values
    requires th.ASaved? || th.LSaved?
  {
    if th.ASaved? then RewriteAuthorize(cfg, ParseQuery(th.raw)) else LoginQuery(cfg, th.state, th.challenge)
  }

  ghost predicate TableEnabled(cfg: Config, s: State, t: nat, step: TableStep) {
    t < |s.threads| &&
    var th := s.threads[t];
    match step
    case LockRedirects => (th.AWait? || th.CMiss?) && s.redirects.lock.None?
    case SaveRedirect => th.AHeld?
    case TakeRedirect => th.CHeldStore?
    case LockFlows => (th.LWait? || th.CWait?) && s.flows.lock.None?
    case SaveFlow => th.LHeld?
    case TakeFlow => th.CHeldFlow?
    case SendOn(keys) => (th.ASaved? || th.LSaved?) && Enumerates(keys, Outgoing(cfg, th).Keys)
  }

  function AfterTake(raw: Str, at: nat, found: Option<Flow>): Thread {
    if found.None? then CMiss(raw, Some(at))
    else if Get(ParseQuery(raw), ERROR) != "" then CDone(raw, AuthError(at))
    else CPost(raw, found.value, at, [])
  }

  /** The acting thread afterwards; a take is recorded at the end of the table's log. */
  function TableNext(cfg: Config, s: State, t: nat, step: TableStep): Thread
    requires TableEnabled(cfg, s, t, step)
  {
    var th := s.threads[t];
    match step
    case LockRedirects => if th.AWait? then AHeld(th.raw) else CHeldStore(th.raw, th.missAt)
    case SaveRedirect => ASaved(th.raw)
    case TakeRedirect =>
      var found, at := OneShot.Found(s.redirects.m, Relay.StateOf(th.raw)), |s.redirects.ops|;
      CDone(th.raw, if found.Some?
                    then Relayed(th.missAt, at, found.value, Relay.RelayUrl(found.value, th.raw))
                    else Rejected(th.missAt, at))
    case LockFlows => if th.LWait? then LHeld(th.raw, th.state, th.verifier, th.challenge) else CHeldFlow(th.raw)
    case SaveFlow => LSaved(th.raw, th.state, th.verifier, th.challenge)
    case TakeFlow => AfterTake(th.raw, |s.flows.ops|, OneShot.Found(s.flows.m, Relay.StateOf(th.raw)))
    case SendOn(keys) =>
      var wire := Encode(Outgoing(cfg, th), keys);
      if th.ASaved? then ADone(th.raw, wire) else LDone(th.raw, th.state, th.verifier, th.challenge, wire)
  }

  function AfterSave<V>(table: Table<V>, t: nat, state: Str, value: V): Table<V> {
    Table(None, OneShot.Save(table.m, state, value), table.ops + [OneShot.Saved(t, state, value)])
  }

  function AfterTaking<V>(table: Table<V>, t: nat, state: Str): Table<V> {
    Table(None, OneShot.Take(table.m, state), table.ops + [OneShot.Took(t, state, OneShot.Found(table.m, state))])
  }

  function TableApply(cfg: Config, s: State, t: nat, step: TableStep): State
    requires TableEnabled(cfg, s, t, step)
  {
    var th := s.threads[t];
    var moved := s.(threads := s.threads[t := TableNext(cfg, s, t, step)]);
    match step
    case LockRedirects => moved.(redirects := s.redirects.(lock := Some(t)))
    case SaveRedirect =>
      moved.(redirects := AfterSave(s.redirects, t, Relay.StateOf(th.raw), Get(ParseQuery(th.raw), REDIRECT_URI)))
    case TakeRedirect => moved.(redirects := AfterTaking(s.redirects, t, Relay.StateOf(th.raw)))
    case LockFlows => moved.(flows := s.flows.(lock := Some(t)))
    case SaveFlow =>
      moved.(flows := AfterSave(s.flows, t, th.state, Flow(th.verifier, Get(ParseQuery(th.raw), SECRET) != "0")))
    case TakeFlow => moved.(flows := AfterTaking(s.flows, t, Relay.StateOf(th.raw)))
    case SendOn(keys) =>
      if th.ASaved? || Get(ParseQuery(th.raw), VIAPROXY) == "0"
      then moved.(server := s.server.(requests := s.server.requests + [Sent(t, Encode(Outgoing(cfg, th), keys))]))
      else moved
  }

  // ----- the two attempts of a /testlogin callback -----

  function CodeOf(th: Thread): Str
    requires th.CPost? || th.CAwait?
  {
    Get(ParseQuery(th.raw), CODE)
  }

  /** The thread has produced its response. */
  predicate HasReply(th: Thread) {
    th.TWritten? || th.TDone? || th.TBad?
  }

  function ReplyIn(th: Thread): Reply
    requires HasReply(th)
  {
    if th.TBad? then HttpError(400) else th.reply
  }

  ghost predicate PostEnabled(cfg: Config, s: State, t: nat, step: PostStep) {
    t < |s.threads| &&
    var th := s.threads[t];
    match step
    case Post(keys, readable) => th.CPost? && Enumerates(keys, ExchangeForm(cfg, CodeOf(th), th.flow).Keys)
    case PostFails => th.CPost?
    case Collect => th.CAwait? && th.child < |s.threads| && HasReply(s.threads[th.child])
    case GiveUp => th.CAwait?
  }

  /** Record the result of an attempt; after the second one the callback is done. */
  function NextAttempt(th: Thread, result: Option<Reply>): Thread
    requires th.CPost? || th.CAwait?
  {
    var results := th.results + [result];
    if |results| < 2 then CPost(th.raw, th.flow, th.flowAt, results)
    else CDone(th.raw, Handled(th.flowAt, th.flow, results))
  }

  /** The acting thread afterwards; a posted request becomes the newest thread. */
  function PostNext(cfg: Config, s: State, t: nat, step: PostStep): Thread
    requires PostEnabled(cfg, s, t, step)
  {
    var th := s.threads[t];
    match step
    case Post(keys, readable) => CAwait(th.raw, th.flow, th.flowAt, th.results, |s.threads|)
    case PostFails => NextAttempt(th, None)
    case Collect => NextAttempt(th, Some(ReplyIn(s.threads[th.child])))
    case GiveUp => NextAttempt(th, None)
  }

  /** The loopback request as /token sees it. */
  function PostedRequest(cfg: Config, th: Thread, keys: seq<Str>, readable: bool): Thread
    requires th.CPost?
  {
    TokenThread(cfg, if readable then Some(Encode(ExchangeForm(cfg, CodeOf(th), th.flow), keys)) else None, "")
  }

  function PostApply(cfg: Config, s: State, t: nat, step: PostStep): State
    requires PostEnabled(cfg, s, t, step)
  {
    var moved := s.threads[t := PostNext(cfg, s, t, step)];
    if step.Post? then
      s.(threads := moved + [PostedRequest(cfg, s.threads[t], step.keys, step.readable)],
         posts := s.posts + [Posted(t, |s.threads|)])
    else s.(threads := moved)
  }

  // ----- the authorization server on its own -----

  predicate ServerEnabled(s: State, step: ServerStep) {
    match step
    case Issue(i, code) => i < |s.server.requests| && code != "" && code !in s.server.bound
    case RedeemElsewhere(code) => code in s.server.bound && code !in s.server.spent
  }

  /** A new code is bound to the redirect_uri of the authorize request it answers. */
  function ServerApply(s: State, step: ServerStep): State
    requires ServerEnabled(s, step)
  {
    match step
    case Issue(i, code) =>
      s.(server := s.server.(bound := s.server.bound[code := Get(ParseQuery(s.server.requests[i].wire), REDIRECT_URI)],
                             answers := s.server.answers[code := i]))
    case RedeemElsewhere(code) => s.(server := SpendOutside(s.server, code))
  }

  // ----- runs -----

  ghost predicate Enabled(cfg: Config, s: State, a: Action) {
    match a
    case Arrive(request) => request.Login? ==> cfg.diagEnabled
    case OnToken(t, step) => TokenEnabled(cfg, s, t, step)
    case OnTable(t, step) => TableEnabled(cfg, s, t, step)
    case OnPost(t, step) => PostEnabled(cfg, s, t, step)
    case OnServer(step) => ServerEnabled(s, step)
  }

  function Apply(cfg: Config, s: State, a: Action): State
    requires Enabled(cfg, s, a)
  {
    match a
    case Arrive(request) => s.(threads := s.threads + [NewThread(cfg, request)])
    case OnToken(t, step) => TokenApply(cfg, s, t, step)
    case OnTable(t, step) => TableApply(cfg, s, t, step)
    case OnPost(t, step) => PostApply(cfg, s, t, step)
    case OnServer(step) => ServerApply(s, step)
  }

  /** The actions can be taken one after the other from `s`. */
  ghost predicate Schedule(cfg: Config, s: State, actions: seq<Action>)
    decreases |actions|
  {
    actions == [] || (Enabled(cfg, s, actions[0]) && Schedule(cfg, Apply(cfg, s, actions[0]), actions[1..]))
  }

  function Run(cfg: Config, s: State, actions: seq<Action>): State
    requires Schedule(cfg, s, actions)
    decreases |actions|
  {
    if actions == [] then s else Run(cfg, Apply(cfg, s, actions[0]), actions[1..])
  }
}
