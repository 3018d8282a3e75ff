/** What every step of the OAuth machine keeps. */
module OAuthInvariant {
  import opened Basics
  import opened Url
  import opened Params
  import opened TokenForm
  import opened Memo
  import opened Flows
  import opened OAuthMachine
  import OneShot
  import Relay

  // ----- the parts of the invariant -----

  predicate HoldsToken(th: Thread) {
    th.THeld? || th.TMiss? || th.TSent? || th.TAnswered? || th.TReply? || th.TWritten?
  }

  predicate HoldsRedirects(th: Thread) {
    th.AHeld? || th.CHeldStore?
  }

  predicate HoldsFlows(th: Thread) {
    th.LHeld? || th.CHeldFlow?
  }

  /** The mutex is held by exactly the thread that is inside its critical section. */
  ghost predicate LockOk(threads: seq<Thread>, lock: Option<nat>, holds: Thread -> bool) {
    && (forall t :: 0 <= t < |threads| ==> (holds(threads[t]) <==> lock == Some(t)))
    && (lock.Some? ==> lock.value < |threads|)
  }

  ghost predicate LocksOk(s: State) {
    && LockOk(s.threads, s.token.lock, HoldsToken)
    && LockOk(s.threads, s.redirects.lock, HoldsRedirects)
    && LockOk(s.threads, s.flows.lock, HoldsFlows)
  }

  /** The committed redemptions are a history of the atomic memoised upstream; the cache is its memory. */
  ghost predicate MemoOk(s: State) {
    Legal(s.token.ops) && Remembers(s.token.cache, s.token.ops)
  }

  ghost predicate TablesOk(s: State) {
    && OneShot.Agrees(s.redirects.m, s.redirects.ops) && OneShot.Consistent(s.redirects.ops)
    && OneShot.Agrees(s.flows.m, s.flows.ops) && OneShot.Consistent(s.flows.ops)
  }

  /** The form is the prepared body, and ready to go upstream. */
  ghost predicate Ready(cfg: Config, body: Str, form: Values) {
    && form == Prepare(cfg, ParseQuery(body))
    && Full(form)
    && RESOURCE !in form
    && (Get(form, GRANT_TYPE) == AUTHORIZATION_CODE ==> Lookup(form, REDIRECT_URI) == [cfg.Callback()])
  }

  /** A success among the results of earlier attempts is remembered. */
  predicate ResultsRemembered(cache: Cache, code: Str, results: Results) {
    forall i :: 0 <= i < |results| && Granted(results[i]) ==>
      code != "" && code in cache && results[i] == Some(Passed(cache[code]))
  }

  /** After a success the second attempt has no result, the same result, or failed before the exchange. */
  predicate Replays(results: Results) {
    |results| == 2 && (Granted(results[0]) ==> results[1] in [None, results[0], Some(HttpError(400))])
  }

  ghost predicate FlowTaken(fops: seq<OneShot.Op<Flow>>, t: nat, raw: Str, at: nat, found: Option<Flow>) {
    at < |fops| && fops[at] == OneShot.Took(t, Relay.StateOf(raw), found)
  }

  ghost predicate FlowMissed(cfg: Config, fops: seq<OneShot.Op<Flow>>, t: nat, raw: Str, missAt: Option<nat>) {
    if cfg.diagEnabled then missAt.Some? && FlowTaken(fops, t, raw, missAt.value, None) else missAt.None?
  }

  ghost predicate EndingOk(cfg: Config, t: nat, raw: Str, e: Ending, rops: seq<OneShot.Op<Str>>,
                           fops: seq<OneShot.Op<Flow>>) {
    match e
    case AuthError(at) => Get(ParseQuery(raw), ERROR) != "" && at < |fops| && fops[at].Took? && fops[at].result.Some?
                          && FlowTaken(fops, t, raw, at, fops[at].result)
    case Handled(at, flow, results) =>
      Get(ParseQuery(raw), ERROR) == "" && FlowTaken(fops, t, raw, at, Some(flow)) && Replays(results)
    case Relayed(missAt, at, redirect, url) =>
      && url == Relay.RelayUrl(redirect, raw) && FlowMissed(cfg, fops, t, raw, missAt)
      && at < |rops| && rops[at] == OneShot.Took(t, Relay.StateOf(raw), Some(redirect))
    case Rejected(missAt, at) =>
      FlowMissed(cfg, fops, t, raw, missAt) && at < |rops| && rops[at] == OneShot.Took(t, Relay.StateOf(raw), None)
  }

  /** What a thread at its program point knows about the shared tables, without looking at other threads. */
  ghost predicate ThreadOk(cfg: Config, t: nat, th: Thread, token: TokenTable, rops: seq<OneShot.Op<Str>>,
                           fops: seq<OneShot.Op<Flow>>) {
    match th
    case TWait(body, form, auth) => Ready(cfg, body, form)
    case THeld(body, form, auth) => Ready(cfg, body, form)
    case TMiss(body, form, auth) => Ready(cfg, body, form) && !Hit(token.cache, Get(form, CODE))
    case TSent(body, code, wire, auth) => !Hit(token.cache, code) && code == Get(ParseQuery(wire), CODE)
    case TAnswered(code, outcome) => !Hit(token.cache, code)
    case TReply(code, reply, at) => CommittedAs(token.ops, t, code, reply, at)
    case TWritten(code, reply, at) => CommittedAs(token.ops, t, code, reply, at)
    case TDone(code, reply, at) => CommittedAs(token.ops, t, code, reply, at)
    case ADone(raw, wire) => ParseQuery(wire) == RewriteAuthorize(cfg, ParseQuery(raw))
    case LDone(raw, state, verifier, challenge, wire) => ParseQuery(wire) == LoginQuery(cfg, state, challenge)
    case CWait(raw) => cfg.diagEnabled
    case CHeldFlow(raw) => cfg.diagEnabled
    case CMiss(raw, missAt) => FlowMissed(cfg, fops, t, raw, missAt)
    case CHeldStore(raw, missAt) => FlowMissed(cfg, fops, t, raw, missAt)
    case CPost(raw, flow, at, results) =>
      && |results| <= 1 && Get(ParseQuery(raw), ERROR) == "" && FlowTaken(fops, t, raw, at, Some(flow))
      && ResultsRemembered(token.cache, CodeOf(th), results)
    case CAwait(raw, flow, at, results, child) =>
      && |results| <= 1 && Get(ParseQuery(raw), ERROR) == "" && FlowTaken(fops, t, raw, at, Some(flow))
      && ResultsRemembered(token.cache, CodeOf(th), results)
    case CDone(raw, e) => EndingOk(cfg, t, raw, e, rops, fops)
    case _ => true
  }

  /** The reply is the one recorded at position `at` of the history. */
  ghost predicate CommittedAs(ops: seq<Op>, t: nat, code: Str, reply: Reply, at: nat) {
    at < |ops| && ops[at].who == t && ops[at].code == code && ops[at].reply == reply
  }

  ghost predicate ThreadsOk(cfg: Config, s: State) {
    forall t :: 0 <= t < |s.threads| ==> ThreadOk(cfg, t, s.threads[t], s.token, s.redirects.ops, s.flows.ops)
  }

  predicate OnTokenPath(th: Thread) {
    th.TWait? || HoldsToken(th) || th.TDone? || th.TBad?
  }

  function TokenCode(th: Thread): Str
    requires OnTokenPath(th) && !th.TBad?
  {
    if th.TWait? || th.THeld? || th.TMiss? then Get(th.form, CODE) else th.code
  }

  /** A /token request for the exchange of `code`; it succeeds only if there is a code. */
  predicate Exchanges(child: Thread, code: Str) {
    && OnTokenPath(child)
    && (!child.TBad? ==> TokenCode(child) == code)
    && (child.TWait? || child.THeld? || child.TMiss? ==> Get(child.form, GRANT_TYPE) == AUTHORIZATION_CODE)
    && (child.TSent? ==> IsExchange(child.wire))
    && (child.TAnswered? && Granted(Some(ReplyOf(child.outcome))) ==> code != "")
    && (HasCommitted(child) && Granted(Some(child.reply)) ==> code != "")
  }

  /** The loopback request of a waiting callback is an exchange of the callback's code. */
  predicate ChildOk(parent: Thread, child: Thread)
    requires parent.CAwait?
  {
    && Exchanges(child, CodeOf(parent))
    && (|parent.results| == 1 && Granted(parent.results[0]) && HasCommitted(child) ==>
          child.reply == parent.results[0].value)
  }

  ghost predicate AwaitsOk(threads: seq<Thread>) {
    forall t :: 0 <= t < |threads| && threads[t].CAwait? ==>
      threads[t].child < |threads| && ChildOk(threads[t], threads[threads[t].child])
  }

  predicate HasCommitted(th: Thread) {
    th.TReply? || th.TWritten? || th.TDone?
  }

  /** Every committed redemption belongs to one thread, which still knows its place. */
  ghost predicate OwnersOk(s: State) {
    forall i :: 0 <= i < |s.token.ops| ==>
      var t := s.token.ops[i].who;
      t < |s.threads| && HasCommitted(s.threads[t]) && s.threads[t].at == i
  }

  predicate TookRedirect(th: Thread, at: nat) {
    th.CDone? && ((th.ending.Relayed? && th.ending.at == at) || (th.ending.Rejected? && th.ending.at == at))
  }

  predicate TookFlow(th: Thread, at: nat) {
    || ((th.CMiss? || th.CHeldStore?) && th.missAt == Some(at))
    || ((th.CPost? || th.CAwait?) && th.flowAt == at)
    || (th.CDone? && match th.ending
                     case AuthError(flowAt) => flowAt == at
                     case Handled(flowAt, _, _) => flowAt == at
                     case Relayed(missAt, _, _, _) => missAt == Some(at)
                     case Rejected(missAt, _) => missAt == Some(at))
  }

  /** Every take in a log belongs to one callback, which still knows its place. */
  ghost predicate RedirectTakersOk(threads: seq<Thread>, ops: seq<OneShot.Op<Str>>) {
    forall i :: 0 <= i < |ops| && ops[i].Took? ==> ops[i].who < |threads| && TookRedirect(threads[ops[i].who], i)
  }

  ghost predicate FlowTakersOk(threads: seq<Thread>, ops: seq<OneShot.Op<Flow>>) {
    forall i :: 0 <= i < |ops| && ops[i].Took? ==> ops[i].who < |threads| && TookFlow(threads[ops[i].who], i)
  }

  /** Every saved redirect is the one its own /authorize request asked for. */
  ghost predicate SaversOk(threads: seq<Thread>, ops: seq<OneShot.Op<Str>>) {
    forall i :: 0 <= i < |ops| && ops[i].Saved? ==>
      ops[i].who < |threads| && SavedBy(threads[ops[i].who], ops[i].key, ops[i].value)
  }

  predicate SavedBy(th: Thread, state: Str, redirect: Str) {
    (th.ASaved? || th.ADone?) && state == Relay.StateOf(th.raw) && redirect == Get(ParseQuery(th.raw), REDIRECT_URI)
  }

  /** Every saved flow is the one its own /testlogin request started. */
  ghost predicate FlowSaversOk(threads: seq<Thread>, ops: seq<OneShot.Op<Flow>>) {
    forall i :: 0 <= i < |ops| && ops[i].Saved? ==>
      ops[i].who < |threads| && FlowSavedBy(threads[ops[i].who], ops[i].key, ops[i].value)
  }

  predicate FlowSavedBy(th: Thread, state: Str, flow: Flow) {
    (th.LSaved? || th.LDone?) && state == th.state && flow == Flow(th.verifier, Get(ParseQuery(th.raw), SECRET) != "0")
  }

  /** Nothing the server sees carries `resource`, and every flow uses the one callback. */
  ghost predicate WiresOk(cfg: Config, s: State) {
    && (forall i :: 0 <= i < |s.server.requests| ==> PinnedRequest(cfg, s.server.requests[i].wire))
    && (forall code <- s.server.bound :: code != "" && s.server.bound[code] == cfg.Callback())
    && (forall i :: 0 <= i < |s.token.calls| ==> PinnedCall(cfg, s.token.calls[i]))
  }

  ghost predicate PinnedRequest(cfg: Config, wire: Str) {
    RESOURCE !in ParseQuery(wire) && Lookup(ParseQuery(wire), REDIRECT_URI) == [cfg.Callback()]
  }

  ghost predicate PinnedCall(cfg: Config, call: Call) {
    && RESOURCE !in ParseQuery(call.wire)
    && call.code == Get(ParseQuery(call.wire), CODE)
    && ParseQuery(call.wire) == Rewrite(cfg, ParseQuery(call.body), call.auth)
    && (IsExchange(call.wire) ==> Lookup(ParseQuery(call.wire), REDIRECT_URI) == [cfg.Callback()])
  }

  /** The proxy has received a success for `code`, stored or about to be. */
  ghost predicate Received(s: State, code: Str) {
    || code in s.token.cache
    || (exists t :: 0 <= t < |s.threads| && InFlight(s.threads[t], code))
  }

  predicate InFlight(th: Thread, code: Str) {
    th.TAnswered? && th.code == code && Succeeds(code, th.outcome)
  }

  /** A redeemed code is replayable unless its success never reached the proxy. */
  ghost predicate SpentOk(s: State) {
    && s.server.spent <= s.server.bound.Keys
    && s.server.outside <= s.server.spent
    && (forall code <- s.server.spent :: code in s.server.outside || Received(s, code))
  }

  ghost predicate Inv(cfg: Config, s: State) {
    && LocksOk(s) && MemoOk(s) && TablesOk(s) && ThreadsOk(cfg, s) && AwaitsOk(s.threads)
    && OwnersOk(s) && WiresOk(cfg, s) && SpentOk(s)
    && SaversOk(s.threads, s.redirects.ops) && FlowSaversOk(s.threads, s.flows.ops)
    && RedirectTakersOk(s.threads, s.redirects.ops) && FlowTakersOk(s.threads, s.flows.ops)
  }

  lemma StartInv(cfg: Config)
    ensures Inv(cfg, START)
  {
  }
}
