/** Every step keeps the invariant of the OAuth machine, one part and one group of actions at a time. */
module OAuthSteps {
  import opened Basics
  import opened Url
  import opened Params
  import opened TokenForm
  import opened Memo
  import opened Flows
  import opened OAuthMachine
  import opened OAuthInvariant
  import OneShot
  import Relay

  // ----- locks -----

  /** A thread that moves without entering or leaving the critical section. */
  lemma LockMove(threads: seq<Thread>, lock: Option<nat>, holds: Thread -> bool, t: nat, th: Thread)
    requires LockOk(threads, lock, holds) && t < |threads|
    requires holds(th) == holds(threads[t])
    ensures LockOk(threads[t := th], lock, holds)
  {
  }

  lemma LockEnter(threads: seq<Thread>, holds: Thread -> bool, t: nat, th: Thread)
    requires LockOk(threads, None, holds) && t < |threads|
    requires holds(th)
    ensures LockOk(threads[t := th], Some(t), holds)
  {
  }

  lemma LockLeave(threads: seq<Thread>, lock: Option<nat>, holds: Thread -> bool, t: nat, th: Thread)
    requires LockOk(threads, lock, holds) && t < |threads|
    requires holds(threads[t]) && !holds(th)
    ensures LockOk(threads[t := th], None, holds)
  {
  }

  lemma LockArrive(threads: seq<Thread>, lock: Option<nat>, holds: Thread -> bool, th: Thread)
    requires LockOk(threads, lock, holds) && !holds(th)
    ensures LockOk(threads + [th], lock, holds)
  {
  }

  lemma TokenLocks(cfg: Config, s: State, t: nat, step: TokenStep)
    requires LocksOk(s) && TokenEnabled(cfg, s, t, step)
    ensures LocksOk(TokenApply(cfg, s, t, step))
  {
    var th' := TokenApply(cfg, s, t, step).threads[t];
    LockMove(s.threads, s.redirects.lock, HoldsRedirects, t, th');
    LockMove(s.threads, s.flows.lock, HoldsFlows, t, th');
    match step
    case Lock => LockEnter(s.threads, HoldsToken, t, th');
    case Unlock => LockLeave(s.threads, s.token.lock, HoldsToken, t, th');
    case _ => LockMove(s.threads, s.token.lock, HoldsToken, t, th');
  }

  lemma TableRedirectLock(cfg: Config, s: State, t: nat, step: TableStep)
    requires LocksOk(s) && TableEnabled(cfg, s, t, step)
    ensures var s' := TableApply(cfg, s, t, step); LockOk(s'.threads, s'.redirects.lock, HoldsRedirects)
  {
    var th' := TableNext(cfg, s, t, step);
    if step.LockRedirects? {
      LockEnter(s.threads, HoldsRedirects, t, th');
    } else if step.SaveRedirect? || step.TakeRedirect? {
      LockLeave(s.threads, s.redirects.lock, HoldsRedirects, t, th');
    } else {
      LockMove(s.threads, s.redirects.lock, HoldsRedirects, t, th');
    }
  }

  lemma TableFlowLock(cfg: Config, s: State, t: nat, step: TableStep)
    requires LocksOk(s) && TableEnabled(cfg, s, t, step)
    ensures var s' := TableApply(cfg, s, t, step); LockOk(s'.threads, s'.flows.lock, HoldsFlows)
  {
    var th' := TableNext(cfg, s, t, step);
    if step.LockFlows? {
      LockEnter(s.threads, HoldsFlows, t, th');
    } else if step.SaveFlow? || step.TakeFlow? {
      LockLeave(s.threads, s.flows.lock, HoldsFlows, t, th');
    } else {
      LockMove(s.threads, s.flows.lock, HoldsFlows, t, th');
    }
  }

  lemma TableLocks(cfg: Config, s: State, t: nat, step: TableStep)
    requires LocksOk(s) && TableEnabled(cfg, s, t, step)
    ensures LocksOk(TableApply(cfg, s, t, step))
  {
    LockMove(s.threads, s.token.lock, HoldsToken, t, TableNext(cfg, s, t, step));
    TableRedirectLock(cfg, s, t, step);
    TableFlowLock(cfg, s, t, step);
  }

  lemma OutsideMoves(s: State, t: nat, th: Thread)
    requires LocksOk(s) && t < |s.threads|
    requires Outside(s.threads[t]) && Outside(th)
    ensures LocksOk(s.(threads := s.threads[t := th]))
  {
    LockMove(s.threads, s.token.lock, HoldsToken, t, th);
    LockMove(s.threads, s.redirects.lock, HoldsRedirects, t, th);
    LockMove(s.threads, s.flows.lock, HoldsFlows, t, th);
  }

  lemma OutsideArrives(s: State, th: Thread)
    requires LocksOk(s) && Outside(th)
    ensures LocksOk(s.(threads := s.threads + [th]))
  {
    LockArrive(s.threads, s.token.lock, HoldsToken, th);
    LockArrive(s.threads, s.redirects.lock, HoldsRedirects, th);
    LockArrive(s.threads, s.flows.lock, HoldsFlows, th);
  }

  predicate Outside(th: Thread) {
    !HoldsToken(th) && !HoldsRedirects(th) && !HoldsFlows(th)
  }

  /** A waiting callback never holds a mutex, not even while its loopback request runs. */
  lemma PostLocks(cfg: Config, s: State, t: nat, step: PostStep)
    requires LocksOk(s) && PostEnabled(cfg, s, t, step)
    ensures LocksOk(PostApply(cfg, s, t, step))
  {
    var th' := PostNext(cfg, s, t, step);
    OutsideMoves(s, t, th');
    if step.Post? {
      OutsideArrives(s.(threads := s.threads[t := th']), PostedRequest(cfg, s.threads[t], step.keys, step.readable));
    }
  }

  // ----- the memo -----

  lemma TokenMemo(cfg: Config, s: State, t: nat, step: TokenStep)
    requires MemoOk(s) && ThreadsOk(cfg, s) && TokenEnabled(cfg, s, t, step)
    ensures MemoOk(TokenApply(cfg, s, t, step))
  {
    var th := s.threads[t];
    if step.Consult? {
      RedeemIsLegal(s.token.cache, s.token.ops, t, Get(th.form, CODE), BuildFailed);
    } else if step.Store? {
      RedeemIsLegal(s.token.cache, s.token.ops, t, th.code, th.outcome);
    }
  }

  // ----- the two stores -----

  lemma TableTables(cfg: Config, s: State, t: nat, step: TableStep)
    requires TablesOk(s) && TableEnabled(cfg, s, t, step)
    ensures TablesOk(TableApply(cfg, s, t, step))
  {
    var th := s.threads[t];
    var r, f := s.redirects, s.flows;
    match step
    case SaveRedirect => OneShot.SaveKeeps(r.m, r.ops, t, Relay.StateOf(th.raw), Get(ParseQuery(th.raw), REDIRECT_URI));
    case TakeRedirect => OneShot.TakeKeeps(r.m, r.ops, t, Relay.StateOf(th.raw));
    case SaveFlow =>
      OneShot.SaveKeeps(f.m, f.ops, t, th.state, Flow(th.verifier, Get(ParseQuery(th.raw), SECRET) != "0"));
    case TakeFlow => OneShot.TakeKeeps(f.m, f.ops, t, Relay.StateOf(th.raw));
    case _ =>
  }

  // ----- owners -----

  lemma TokenOwners(cfg: Config, s: State, t: nat, step: TokenStep)
    requires OwnersOk(s) && TokenEnabled(cfg, s, t, step)
    ensures OwnersOk(TokenApply(cfg, s, t, step))
  {
  }

  lemma RedirectTakerMoves(threads: seq<Thread>, ops: seq<OneShot.Op<Str>>, t: nat, th: Thread)
    requires RedirectTakersOk(threads, ops) && t < |threads|
    requires !threads[t].CDone?
    ensures RedirectTakersOk(threads[t := th], ops)
  {
  }

  lemma FlowTakerMoves(threads: seq<Thread>, ops: seq<OneShot.Op<Flow>>, t: nat, th: Thread)
    requires FlowTakersOk(threads, ops) && t < |threads|
    requires forall at :: TookFlow(threads[t], at) ==> TookFlow(th, at)
    ensures FlowTakersOk(threads[t := th], ops)
  {
  }

  lemma TableRedirectTakers(cfg: Config, s: State, t: nat, step: TableStep)
    requires RedirectTakersOk(s.threads, s.redirects.ops) && TableEnabled(cfg, s, t, step)
    ensures var s' := TableApply(cfg, s, t, step); RedirectTakersOk(s'.threads, s'.redirects.ops)
  {
    RedirectTakerMoves(s.threads, s.redirects.ops, t, TableNext(cfg, s, t, step));
  }

  lemma FlowTakerAdded(threads: seq<Thread>, ops: seq<OneShot.Op<Flow>>, op: OneShot.Op<Flow>)
    requires FlowTakersOk(threads, ops)
    requires op.Took? ==> op.who < |threads| && TookFlow(threads[op.who], |ops|)
    ensures FlowTakersOk(threads, ops + [op])
  {
  }

  lemma FlowPlaceKept(cfg: Config, s: State, t: nat, step: TableStep, at: nat)
    requires TableEnabled(cfg, s, t, step) && TookFlow(s.threads[t], at)
    ensures TookFlow(TableNext(cfg, s, t, step), at)
  {
  }

  lemma TableFlowTakers(cfg: Config, s: State, t: nat, step: TableStep)
    requires FlowTakersOk(s.threads, s.flows.ops) && TableEnabled(cfg, s, t, step)
    ensures var s' := TableApply(cfg, s, t, step); FlowTakersOk(s'.threads, s'.flows.ops)
  {
    var s' := TableApply(cfg, s, t, step);
    forall at | TookFlow(s.threads[t], at)
      ensures TookFlow(s'.threads[t], at)
    {
      FlowPlaceKept(cfg, s, t, step, at);
    }
    FlowTakerMoves(s.threads, s.flows.ops, t, s'.threads[t]);
    if step.SaveFlow? || step.TakeFlow? {
      FlowTakerAdded(s'.threads, s.flows.ops, s'.flows.ops[|s.flows.ops|]);
    }
  }

  lemma SaverMoves(threads: seq<Thread>, ops: seq<OneShot.Op<Str>>, t: nat, th: Thread)
    requires SaversOk(threads, ops) && t < |threads|
    requires threads[t].ADone? || threads[t].ASaved? ==> (th.ADone? || th.ASaved?) && th.raw == threads[t].raw
    ensures SaversOk(threads[t := th], ops)
  {
  }

  lemma FlowSaverMoves(threads: seq<Thread>, ops: seq<OneShot.Op<Flow>>, t: nat, th: Thread)
    requires FlowSaversOk(threads, ops) && t < |threads|
    requires threads[t].LDone? || threads[t].LSaved? ==>
      (th.LDone? || th.LSaved?) &&
      (th.raw, th.state, th.verifier) == (threads[t].raw, threads[t].state, threads[t].verifier)
    ensures FlowSaversOk(threads[t := th], ops)
  {
  }

  lemma TableFlowSavers(cfg: Config, s: State, t: nat, step: TableStep)
    requires FlowSaversOk(s.threads, s.flows.ops) && TableEnabled(cfg, s, t, step)
    ensures var s' := TableApply(cfg, s, t, step); FlowSaversOk(s'.threads, s'.flows.ops)
  {
    FlowSaverMoves(s.threads, s.flows.ops, t, TableNext(cfg, s, t, step));
  }

  lemma TableSavers(cfg: Config, s: State, t: nat, step: TableStep)
    requires SaversOk(s.threads, s.redirects.ops) && TableEnabled(cfg, s, t, step)
    ensures var s' := TableApply(cfg, s, t, step); SaversOk(s'.threads, s'.redirects.ops)
  {
    SaverMoves(s.threads, s.redirects.ops, t, TableNext(cfg, s, t, step));
  }

  lemma PostTakers(cfg: Config, s: State, t: nat, step: PostStep)
    requires RedirectTakersOk(s.threads, s.redirects.ops) && FlowTakersOk(s.threads, s.flows.ops)
    requires PostEnabled(cfg, s, t, step)
    ensures var s' := PostApply(cfg, s, t, step);
      RedirectTakersOk(s'.threads, s'.redirects.ops) && FlowTakersOk(s'.threads, s'.flows.ops)
  {
    var th' := PostNext(cfg, s, t, step);
    RedirectTakerMoves(s.threads, s.redirects.ops, t, th');
    FlowTakerMoves(s.threads, s.flows.ops, t, th');
  }

  // ----- how the shared tables grow -----

  /** Nothing remembered is forgotten or replaced. */
  ghost predicate Grows(m: Cache, m': Cache) {
    forall k <- m :: k in m' && m'[k] == m[k]
  }

  lemma TokenGrows(cfg: Config, s: State, t: nat, step: TokenStep)
    requires ThreadsOk(cfg, s) && TokenEnabled(cfg, s, t, step)
    ensures
      var s' := TokenApply(cfg, s, t, step);
      && s.token.ops <= s'.token.ops && Grows(s.token.cache, s'.token.cache)
      && (!HoldsToken(s.threads[t]) ==> s'.token.cache == s.token.cache)
  {
  }

  lemma MissFrame(cfg: Config, fops: seq<OneShot.Op<Flow>>, fops': seq<OneShot.Op<Flow>>, t: nat, raw: Str,
                  missAt: Option<nat>)
    requires FlowMissed(cfg, fops, t, raw, missAt) && fops <= fops'
    ensures FlowMissed(cfg, fops', t, raw, missAt)
  {
  }

  lemma EndingFrame(cfg: Config, t: nat, raw: Str, e: Ending, rops: seq<OneShot.Op<Str>>, fops: seq<OneShot.Op<Flow>>,
                    rops': seq<OneShot.Op<Str>>, fops': seq<OneShot.Op<Flow>>)
    requires EndingOk(cfg, t, raw, e, rops, fops) && rops <= rops' && fops <= fops'
    ensures EndingOk(cfg, t, raw, e, rops', fops')
  {
    match e
    case Relayed(missAt, _, _, _) => MissFrame(cfg, fops, fops', t, raw, missAt);
    case Rejected(missAt, _) => MissFrame(cfg, fops, fops', t, raw, missAt);
    case _ =>
  }

  lemma PostFrame(t: nat, th: Thread, cache: Cache, cache': Cache, fops: seq<OneShot.Op<Flow>>,
                  fops': seq<OneShot.Op<Flow>>)
    requires th.CPost? || th.CAwait?
    requires FlowTaken(fops, t, th.raw, th.flowAt, Some(th.flow)) && ResultsRemembered(cache, CodeOf(th), th.results)
    requires fops <= fops' && Grows(cache, cache')
    ensures FlowTaken(fops', t, th.raw, th.flowAt, Some(th.flow)) && ResultsRemembered(cache', CodeOf(th), th.results)
  {
  }

  /** A thread that does not move keeps its knowledge while the tables grow around it. */
  lemma ThreadFrame(cfg: Config, t: nat, th: Thread, token: TokenTable, rops: seq<OneShot.Op<Str>>,
                    fops: seq<OneShot.Op<Flow>>,
                    token': TokenTable, rops': seq<OneShot.Op<Str>>, fops': seq<OneShot.Op<Flow>>)
    requires ThreadOk(cfg, t, th, token, rops, fops)
    requires token.ops <= token'.ops && rops <= rops' && fops <= fops'
    requires Grows(token.cache, token'.cache)
    requires HoldsToken(th) ==> token'.cache == token.cache
    ensures ThreadOk(cfg, t, th, token', rops', fops')
  {
    if th.CPost? || th.CAwait? {
      PostFrame(t, th, token.cache, token'.cache, fops, fops');
    } else if th.CMiss? || th.CHeldStore? {
      MissFrame(cfg, fops, fops', t, th.raw, th.missAt);
    } else if th.CDone? {
      EndingFrame(cfg, t, th.raw, th.ending, rops, fops, rops', fops');
    }
  }

  // ----- what the acting thread knows afterwards -----

  lemma TokenActor(cfg: Config, s: State, t: nat, step: TokenStep)
    requires LocksOk(s) && ThreadsOk(cfg, s) && TokenEnabled(cfg, s, t, step)
    ensures var s' := TokenApply(cfg, s, t, step);
      ThreadOk(cfg, t, s'.threads[t], s'.token, s'.redirects.ops, s'.flows.ops)
  {
    var th := s.threads[t];
    if step.Forward? {
      InjectedForm(cfg, th.form, th.auth);
      EncodeRoundTrip(Inject(cfg, th.form, th.auth), step.keys);
    }
  }

  lemma TakeRedirectActor(cfg: Config, s: State, t: nat)
    requires TableEnabled(cfg, s, t, TakeRedirect)
    requires FlowMissed(cfg, s.flows.ops, t, s.threads[t].raw, s.threads[t].missAt)
    ensures var s' := TableApply(cfg, s, t, TakeRedirect);
      ThreadOk(cfg, t, s'.threads[t], s'.token, s'.redirects.ops, s'.flows.ops)
  {
  }

  lemma TakeFlowActor(cfg: Config, s: State, t: nat)
    requires TableEnabled(cfg, s, t, TakeFlow)
    requires cfg.diagEnabled
    ensures var s' := TableApply(cfg, s, t, TakeFlow);
      ThreadOk(cfg, t, s'.threads[t], s'.token, s'.redirects.ops, s'.flows.ops)
  {
  }

  lemma TableActor(cfg: Config, s: State, t: nat, step: TableStep)
    requires ThreadsOk(cfg, s) && TableEnabled(cfg, s, t, step)
    ensures var s' := TableApply(cfg, s, t, step);
      ThreadOk(cfg, t, s'.threads[t], s'.token, s'.redirects.ops, s'.flows.ops)
  {
    assert ThreadOk(cfg, t, s.threads[t], s.token, s.redirects.ops, s.flows.ops);
    match step
    case TakeRedirect => TakeRedirectActor(cfg, s, t);
    case TakeFlow => TakeFlowActor(cfg, s, t);
    case SendOn(keys) => SentOn(cfg, s.threads[t], keys);
    case _ =>
  }

  // ----- threads together -----

  lemma TokenThreads(cfg: Config, s: State, t: nat, step: TokenStep)
    requires LocksOk(s) && ThreadsOk(cfg, s) && TokenEnabled(cfg, s, t, step)
    ensures ThreadsOk(cfg, TokenApply(cfg, s, t, step))
  {
    var s' := TokenApply(cfg, s, t, step);
    TokenGrows(cfg, s, t, step);
    forall u | 0 <= u < |s'.threads|
      ensures ThreadOk(cfg, u, s'.threads[u], s'.token, s'.redirects.ops, s'.flows.ops)
    {
      if u == t {
        TokenActor(cfg, s, t, step);
      } else {
        ThreadFrame(cfg, u, s.threads[u], s.token, s.redirects.ops, s.flows.ops, s'.token, s'.redirects.ops,
                    s'.flows.ops);
      }
    }
  }

  lemma TableThreads(cfg: Config, s: State, t: nat, step: TableStep)
    requires ThreadsOk(cfg, s) && TableEnabled(cfg, s, t, step)
    ensures ThreadsOk(cfg, TableApply(cfg, s, t, step))
  {
    var s' := TableApply(cfg, s, t, step);
    forall u | 0 <= u < |s'.threads|
      ensures ThreadOk(cfg, u, s'.threads[u], s'.token, s'.redirects.ops, s'.flows.ops)
    {
      if u == t {
        TableActor(cfg, s, t, step);
      } else {
        ThreadFrame(cfg, u, s.threads[u], s.token, s.redirects.ops, s.flows.ops, s'.token, s'.redirects.ops,
                    s'.flows.ops);
      }
    }
  }

  /** A success that was replied is in the cache, and it is the cached response. */
  lemma RepliedIsRemembered(s: State, at: nat)
    requires MemoOk(s) && at < |s.token.ops|
    requires s.token.ops[at].code != "" && SawSuccess(s.token.ops[at])
    ensures s.token.ops[at].code in s.token.cache
    ensures s.token.ops[at].reply == Passed(s.token.cache[s.token.ops[at].code])
  {
    var code := s.token.ops[at].code;
    SeenIsFirst(s.token.ops, at);
    FirstSuccessPersists(s.token.ops, at + 1, code);
  }

  /** Recording an attempt's result, when that result is what the invariant expects of it. */
  lemma AttemptRecorded(cfg: Config, t: nat, th: Thread, result: Option<Reply>, token: TokenTable,
                        rops: seq<OneShot.Op<Str>>, fops: seq<OneShot.Op<Flow>>)
    requires (th.CPost? || th.CAwait?) && ThreadOk(cfg, t, th, token, rops, fops)
    requires Granted(result) ==>
      CodeOf(th) != "" && CodeOf(th) in token.cache && result == Some(Passed(token.cache[CodeOf(th)]))
    requires |th.results| == 1 ==> Replays(th.results + [result])
    ensures ThreadOk(cfg, t, NextAttempt(th, result), token, rops, fops)
  {
  }

  lemma CollectActor(cfg: Config, s: State, t: nat)
    requires MemoOk(s) && ThreadsOk(cfg, s) && AwaitsOk(s.threads) && PostEnabled(cfg, s, t, Collect)
    ensures ThreadOk(cfg, t, PostNext(cfg, s, t, Collect), s.token, s.redirects.ops, s.flows.ops)
  {
    var th := s.threads[t];
    var child := s.threads[th.child];
    assert ThreadOk(cfg, t, th, s.token, s.redirects.ops, s.flows.ops);
    assert ThreadOk(cfg, th.child, child, s.token, s.redirects.ops, s.flows.ops);
    assert ChildOk(th, child);
    if !child.TBad? && SawSuccess(s.token.ops[child.at]) {
      RepliedIsRemembered(s, child.at);
    }
    AttemptRecorded(cfg, t, th, Some(ReplyIn(child)), s.token, s.redirects.ops, s.flows.ops);
  }

  lemma PostActor(cfg: Config, s: State, t: nat, step: PostStep)
    requires MemoOk(s) && ThreadsOk(cfg, s) && AwaitsOk(s.threads) && PostEnabled(cfg, s, t, step)
    ensures ThreadOk(cfg, t, PostNext(cfg, s, t, step), s.token, s.redirects.ops, s.flows.ops)
  {
    assert ThreadOk(cfg, t, s.threads[t], s.token, s.redirects.ops, s.flows.ops);
    if step.Collect? {
      CollectActor(cfg, s, t);
    } else if step.Post? {
      PostedActor(cfg, s, t, step.keys, step.readable);
    } else {
      AttemptRecorded(cfg, t, s.threads[t], None, s.token, s.redirects.ops, s.flows.ops);
    }
  }

  lemma PostedActor(cfg: Config, s: State, t: nat, keys: seq<Str>, readable: bool)
    requires PostEnabled(cfg, s, t, Post(keys, readable))
    requires ThreadOk(cfg, t, s.threads[t], s.token, s.redirects.ops, s.flows.ops)
    ensures ThreadOk(cfg, t, PostNext(cfg, s, t, Post(keys, readable)), s.token, s.redirects.ops, s.flows.ops)
  {
    var th' := PostNext(cfg, s, t, Post(keys, readable));
    assert th'.CAwait? && CodeOf(th') == CodeOf(s.threads[t]);
  }

  lemma ParsedIsReady(cfg: Config, body: Str)
    ensures Ready(cfg, body, Prepare(cfg, ParseQuery(body)))
    ensures Get(Prepare(cfg, ParseQuery(body)), CODE) == Get(ParseQuery(body), CODE)
    ensures Get(Prepare(cfg, ParseQuery(body)), GRANT_TYPE) == Get(ParseQuery(body), GRANT_TYPE)
  {
    ParsedForm(ParsePairs(body));
    PreparedForm(cfg, ParseQuery(body));
  }

  /** A new request starts out knowing what its program point needs. */
  lemma NewThreadOk(cfg: Config, t: nat, request: Request, token: TokenTable, rops: seq<OneShot.Op<Str>>,
                    fops: seq<OneShot.Op<Flow>>)
    ensures ThreadOk(cfg, t, NewThread(cfg, request), token, rops, fops)
  {
    if request.Token? && request.body.Some? {
      ParsedIsReady(cfg, request.body.value);
    }
  }

  lemma PostThreads(cfg: Config, s: State, t: nat, step: PostStep)
    requires MemoOk(s) && ThreadsOk(cfg, s) && AwaitsOk(s.threads) && PostEnabled(cfg, s, t, step)
    ensures ThreadsOk(cfg, PostApply(cfg, s, t, step))
  {
    var s' := PostApply(cfg, s, t, step);
    forall u | 0 <= u < |s'.threads|
      ensures ThreadOk(cfg, u, s'.threads[u], s'.token, s'.redirects.ops, s'.flows.ops)
    {
      if u == t {
        PostActor(cfg, s, t, step);
      } else if u == |s.threads| {
        var body := Encode(ExchangeForm(cfg, CodeOf(s.threads[t]), s.threads[t].flow), step.keys);
        NewThreadOk(cfg, u, Token(if step.readable then Some(body) else None, ""), s.token, s.redirects.ops,
                    s.flows.ops);
      } else {
        assert s'.threads[u] == s.threads[u];
      }
    }
  }

  // ----- waiting callbacks -----

  /** A thread past a cache miss has a code that is still not cached. */
  predicate StillMissing(th: Thread, cache: Cache) {
    th.TMiss? || th.TSent? || th.TAnswered? ==> !Hit(cache, TokenCode(th))
  }

  /** An exchange goes upstream as an exchange. */
  lemma ForwardedExchange(cfg: Config, form: Values, auth: Str, keys: seq<Str>)
    requires Full(form) && RESOURCE !in form && Get(form, GRANT_TYPE) == AUTHORIZATION_CODE
    requires Enumerates(keys, Inject(cfg, form, auth).Keys)
    ensures IsExchange(Encode(Inject(cfg, form, auth), keys))
  {
    InjectedForm(cfg, form, auth);
    EncodeRoundTrip(Inject(cfg, form, auth), keys);
  }

  /** The server grants an exchange only for a code it has issued. */
  lemma GrantedCode(cfg: Config, s: State, t: nat, response: Response)
    requires WiresOk(cfg, s) && ThreadsOk(cfg, s) && TokenEnabled(cfg, s, t, Answer(response))
    requires Success(response) && IsExchange(s.threads[t].wire)
    ensures s.threads[t].code != ""
  {
    assert ThreadOk(cfg, t, s.threads[t], s.token, s.redirects.ops, s.flows.ops);
  }

  lemma ExchangeForwarded(cfg: Config, s: State, t: nat, keys: seq<Str>, code: Str)
    requires ThreadsOk(cfg, s) && TokenEnabled(cfg, s, t, Forward(keys)) && Exchanges(s.threads[t], code)
    ensures Exchanges(TokenApply(cfg, s, t, Forward(keys)).threads[t], code)
  {
    var th := s.threads[t];
    assert ThreadOk(cfg, t, th, s.token, s.redirects.ops, s.flows.ops);
    ForwardedExchange(cfg, th.form, th.auth, keys);
  }

  lemma ExchangeAnswered(cfg: Config, s: State, t: nat, response: Response, code: Str)
    requires WiresOk(cfg, s) && ThreadsOk(cfg, s) && TokenEnabled(cfg, s, t, Answer(response))
    requires Exchanges(s.threads[t], code)
    ensures Exchanges(TokenApply(cfg, s, t, Answer(response)).threads[t], code)
  {
    if Success(response) {
      GrantedCode(cfg, s, t, response);
    }
  }

  lemma ExchangeConsulted(cfg: Config, s: State, t: nat, code: Str)
    requires TokenEnabled(cfg, s, t, Consult) && Exchanges(s.threads[t], code)
    ensures Exchanges(TokenApply(cfg, s, t, Consult).threads[t], code)
  {
  }

  /** The steps at which neither the form nor the outcome changes. */
  lemma ExchangeKept(cfg: Config, s: State, t: nat, step: TokenStep, code: Str)
    requires TokenEnabled(cfg, s, t, step) && Exchanges(s.threads[t], code)
    requires !step.Consult? && !step.Forward? && !step.Answer?
    ensures Exchanges(TokenApply(cfg, s, t, step).threads[t], code)
  {
  }

  /** An exchange moves one step along its own path. */
  lemma ExchangeMoves(cfg: Config, s: State, t: nat, step: TokenStep, code: Str)
    requires WiresOk(cfg, s) && ThreadsOk(cfg, s) && TokenEnabled(cfg, s, t, step) && Exchanges(s.threads[t], code)
    ensures Exchanges(TokenApply(cfg, s, t, step).threads[t], code)
  {
    if step.Consult? {
      ExchangeConsulted(cfg, s, t, code);
    } else if step.Forward? {
      ExchangeForwarded(cfg, s, t, step.keys, code);
    } else if step.Answer? {
      ExchangeAnswered(cfg, s, t, step.response, code);
    } else {
      ExchangeKept(cfg, s, t, step, code);
    }
  }

  lemma ChildMoves(cfg: Config, s: State, parent: Thread, t: nat, step: TokenStep)
    requires parent.CAwait? && TokenEnabled(cfg, s, t, step) && ChildOk(parent, s.threads[t])
    requires Exchanges(TokenApply(cfg, s, t, step).threads[t], CodeOf(parent))
    requires StillMissing(s.threads[t], s.token.cache)
    requires ResultsRemembered(s.token.cache, CodeOf(parent), parent.results)
    ensures ChildOk(parent, TokenApply(cfg, s, t, step).threads[t])
  {
  }

  lemma AwaitMoves(threads: seq<Thread>, t: nat, th: Thread)
    requires AwaitsOk(threads) && t < |threads| && !th.CAwait?
    requires forall u :: 0 <= u < |threads| && u != t && threads[u].CAwait? && threads[u].child == t ==>
      ChildOk(threads[u], th)
    ensures AwaitsOk(threads[t := th])
  {
  }

  lemma TokenAwaits(cfg: Config, s: State, t: nat, step: TokenStep)
    requires WiresOk(cfg, s) && ThreadsOk(cfg, s) && AwaitsOk(s.threads) && TokenEnabled(cfg, s, t, step)
    ensures AwaitsOk(TokenApply(cfg, s, t, step).threads)
  {
    var th' := TokenApply(cfg, s, t, step).threads[t];
    forall u | 0 <= u < |s.threads| && u != t && s.threads[u].CAwait? && s.threads[u].child == t
      ensures ChildOk(s.threads[u], th')
    {
      AwaitedMoves(cfg, s, u, t, step);
    }
    AwaitMoves(s.threads, t, th');
  }

  lemma ThreadStillMissing(cfg: Config, s: State, t: nat)
    requires ThreadsOk(cfg, s) && t < |s.threads|
    ensures StillMissing(s.threads[t], s.token.cache)
  {
    assert ThreadOk(cfg, t, s.threads[t], s.token, s.redirects.ops, s.flows.ops);
  }

  lemma AwaiterRemembers(cfg: Config, u: nat, th: Thread, token: TokenTable, rops: seq<OneShot.Op<Str>>,
                         fops: seq<OneShot.Op<Flow>>)
    requires th.CAwait? && ThreadOk(cfg, u, th, token, rops, fops)
    ensures ResultsRemembered(token.cache, CodeOf(th), th.results)
  {
  }

  lemma AwaitedMoves(cfg: Config, s: State, u: nat, t: nat, step: TokenStep)
    requires WiresOk(cfg, s) && ThreadsOk(cfg, s) && AwaitsOk(s.threads) && TokenEnabled(cfg, s, t, step)
    requires u < |s.threads| && s.threads[u].CAwait? && s.threads[u].child == t
    ensures ChildOk(s.threads[u], TokenApply(cfg, s, t, step).threads[t])
  {
    ThreadStillMissing(cfg, s, t);
    AwaiterRemembers(cfg, u, s.threads[u], s.token, s.redirects.ops, s.flows.ops);
    ExchangeMoves(cfg, s, t, step, CodeOf(s.threads[u]));
    ChildMoves(cfg, s, s.threads[u], t, step);
  }

  /** Only threads off the token path move here, so no child does. */
  lemma TableAwaits(cfg: Config, s: State, t: nat, step: TableStep)
    requires AwaitsOk(s.threads) && TableEnabled(cfg, s, t, step)
    ensures AwaitsOk(TableApply(cfg, s, t, step).threads)
  {
    assert !OnTokenPath(s.threads[t]);
    AwaitMoves(s.threads, t, TableNext(cfg, s, t, step));
  }

  /** The loopback request, as /token reads it. */
  lemma PostedBody(cfg: Config, code: Str, flow: Flow, keys: seq<Str>)
    requires Enumerates(keys, ExchangeForm(cfg, code, flow).Keys)
    ensures var form := Prepare(cfg, ParseQuery(Encode(ExchangeForm(cfg, code, flow), keys)));
            Get(form, CODE) == code && Get(form, GRANT_TYPE) == AUTHORIZATION_CODE
  {
    var form := ExchangeForm(cfg, code, flow);
    ExchangedForm(cfg, code, flow);
    ExchangeParameters(cfg, code, flow);
    EncodeRoundTrip(form, keys);
    ParsedIsReady(cfg, Encode(form, keys));
  }

  lemma PostedChild(cfg: Config, s: State, t: nat, keys: seq<Str>, readable: bool)
    requires PostEnabled(cfg, s, t, Post(keys, readable))
    ensures ChildOk(PostNext(cfg, s, t, Post(keys, readable)), PostedRequest(cfg, s.threads[t], keys, readable))
  {
    PostedBody(cfg, CodeOf(s.threads[t]), s.threads[t].flow, keys);
  }

  /** A callback starts to wait for a request that is just being appended. */
  lemma AwaitBegins(threads: seq<Thread>, t: nat, th: Thread, child: Thread)
    requires AwaitsOk(threads) && t < |threads| && !OnTokenPath(threads[t])
    requires th.CAwait? && th.child == |threads| && !child.CAwait? && ChildOk(th, child)
    ensures AwaitsOk(threads[t := th] + [child])
  {
  }

  /** What posting does to the thread list, in terms AwaitBegins can use. */
  lemma PostShape(cfg: Config, s: State, t: nat, keys: seq<Str>, readable: bool)
    requires PostEnabled(cfg, s, t, Post(keys, readable))
    ensures !OnTokenPath(s.threads[t])
    ensures var th' := PostNext(cfg, s, t, Post(keys, readable));
            var child := PostedRequest(cfg, s.threads[t], keys, readable);
            && th'.CAwait? && th'.child == |s.threads| && !child.CAwait?
            && PostApply(cfg, s, t, Post(keys, readable)).threads == s.threads[t := th'] + [child]
  {
  }

  lemma PostBegins(cfg: Config, s: State, t: nat, th': Thread, child: Thread, keys: seq<Str>, readable: bool)
    requires AwaitsOk(s.threads) && PostEnabled(cfg, s, t, Post(keys, readable))
    requires th' == PostNext(cfg, s, t, Post(keys, readable))
    requires child == PostedRequest(cfg, s.threads[t], keys, readable)
    ensures AwaitsOk(PostApply(cfg, s, t, Post(keys, readable)).threads)
  {
    PostShape(cfg, s, t, keys, readable);
    PostedChild(cfg, s, t, keys, readable);
    AwaitBegins(s.threads, t, th', child);
  }

  lemma PostAwaits(cfg: Config, s: State, t: nat, step: PostStep)
    requires AwaitsOk(s.threads) && PostEnabled(cfg, s, t, step)
    ensures AwaitsOk(PostApply(cfg, s, t, step).threads)
  {
    if step.Post? {
      var th', child := PostNext(cfg, s, t, step), PostedRequest(cfg, s.threads[t], step.keys, step.readable);
      PostBegins(cfg, s, t, th', child, step.keys, step.readable);
    } else {
      AwaitMoves(s.threads, t, PostNext(cfg, s, t, step));
    }
  }

  // ----- the wire -----

  lemma TokenWires(cfg: Config, s: State, t: nat, step: TokenStep)
    requires WiresOk(cfg, s) && ThreadsOk(cfg, s) && TokenEnabled(cfg, s, t, step)
    ensures WiresOk(cfg, TokenApply(cfg, s, t, step))
  {
    if step.Forward? {
      var th := s.threads[t];
      var form := Inject(cfg, th.form, th.auth);
      InjectedForm(cfg, th.form, th.auth);
      EncodeRoundTrip(form, step.keys);
      assert PinnedCall(cfg, Call(t, th.body, Get(th.form, CODE), Encode(form, step.keys), th.auth));
    }
  }

  /** What a browser is sent away with parses back to the rewritten query. */
  lemma SentOn(cfg: Config, th: Thread, keys: seq<Str>)
    requires (th.ASaved? || th.LSaved?) && Enumerates(keys, Outgoing(cfg, th).Keys)
    ensures ParseQuery(Encode(Outgoing(cfg, th), keys)) == Outgoing(cfg, th)
    ensures PinnedRequest(cfg, Encode(Outgoing(cfg, th), keys))
  {
    if th.ASaved? {
      ParsedForm(ParsePairs(th.raw));
      AuthorizeForm(cfg, ParseQuery(th.raw));
    } else {
      LoginParameters(cfg, th.state, th.challenge);
    }
    EncodeRoundTrip(Outgoing(cfg, th), keys);
  }

  lemma TableWires(cfg: Config, s: State, t: nat, step: TableStep)
    requires WiresOk(cfg, s) && TableEnabled(cfg, s, t, step)
    ensures WiresOk(cfg, TableApply(cfg, s, t, step))
  {
    if step.SendOn? {
      SentOn(cfg, s.threads[t], step.keys);
    }
  }

  lemma ServerWires(cfg: Config, s: State, step: ServerStep)
    requires WiresOk(cfg, s) && ServerEnabled(s, step)
    ensures WiresOk(cfg, ServerApply(s, step))
  {
    if step.Issue? {
      assert PinnedRequest(cfg, s.server.requests[step.i].wire);
    }
  }

  // ----- redeemed codes -----

  /** What the proxy has received it keeps. */
  lemma TokenReceived(cfg: Config, s: State, t: nat, step: TokenStep, code: Str)
    requires LocksOk(s) && ThreadsOk(cfg, s) && TokenEnabled(cfg, s, t, step)
    requires Received(s, code)
    ensures Received(TokenApply(cfg, s, t, step), code)
  {
    var s' := TokenApply(cfg, s, t, step);
    TokenGrows(cfg, s, t, step);
    if code !in s.token.cache {
      var u :| 0 <= u < |s.threads| && InFlight(s.threads[u], code);
      assert u == t;
    }
  }

  lemma SpentFrame(s: State, s': State)
    requires SpentOk(s) && s'.server == s.server
    requires forall code :: Received(s, code) ==> Received(s', code)
    ensures SpentOk(s')
  {
  }

  lemma TokenSpent(cfg: Config, s: State, t: nat, step: TokenStep)
    requires LocksOk(s) && ThreadsOk(cfg, s) && WiresOk(cfg, s) && SpentOk(s) && TokenEnabled(cfg, s, t, step)
    ensures SpentOk(TokenApply(cfg, s, t, step))
  {
    var s' := TokenApply(cfg, s, t, step);
    forall code: Str | Received(s, code)
      ensures Received(s', code)
    {
      TokenReceived(cfg, s, t, step, code);
    }
    if step.Answer? && Success(step.response) && IsExchange(s.threads[t].wire) {
      assert InFlight(s'.threads[t], s.threads[t].code);
    }
  }

  lemma MoveReceived(s: State, s': State, t: nat)
    requires SpentOk(s) && s'.server.(requests := s.server.requests) == s.server && s'.token == s.token
    requires t < |s.threads| <= |s'.threads| && !s.threads[t].TAnswered?
    requires forall u :: 0 <= u < |s.threads| && u != t ==> s'.threads[u] == s.threads[u]
    ensures SpentOk(s')
  {
    forall code: Str | Received(s, code)
      ensures Received(s', code)
    {
      if code !in s.token.cache {
        var u :| 0 <= u < |s.threads| && InFlight(s.threads[u], code);
        assert InFlight(s'.threads[u], code);
      }
    }
  }

  lemma TableSpent(cfg: Config, s: State, t: nat, step: TableStep)
    requires SpentOk(s) && TableEnabled(cfg, s, t, step)
    ensures SpentOk(TableApply(cfg, s, t, step))
  {
    MoveReceived(s, TableApply(cfg, s, t, step), t);
  }

  lemma PostSpent(cfg: Config, s: State, t: nat, step: PostStep)
    requires SpentOk(s) && PostEnabled(cfg, s, t, step)
    ensures SpentOk(PostApply(cfg, s, t, step))
  {
    MoveReceived(s, PostApply(cfg, s, t, step), t);
  }

  lemma ServerSpent(s: State, step: ServerStep)
    requires SpentOk(s) && ServerEnabled(s, step)
    ensures SpentOk(ServerApply(s, step))
  {
    var s' := ServerApply(s, step);
    forall code: Str | Received(s, code)
      ensures Received(s', code)
    {
      if code !in s.token.cache {
        var u :| 0 <= u < |s.threads| && InFlight(s.threads[u], code);
        assert InFlight(s'.threads[u], code);
      }
    }
  }

  /** What a step on the token path leaves alone. */
  lemma TokenFrame(cfg: Config, s: State, t: nat, step: TokenStep)
    requires TokenEnabled(cfg, s, t, step)
    ensures
      var s' := TokenApply(cfg, s, t, step);
      && |s'.threads| == |s.threads| && s'.threads == s.threads[t := s'.threads[t]]
      && OnTokenPath(s.threads[t]) && OnTokenPath(s'.threads[t])
      && s'.redirects == s.redirects && s'.flows == s.flows
      && s'.server.requests == s.server.requests && s'.server.bound == s.server.bound
      && s'.server.answers == s.server.answers
  {
  }

  // ----- all parts, all actions -----

  lemma TokenInv(cfg: Config, s: State, t: nat, step: TokenStep)
    requires Inv(cfg, s) && TokenEnabled(cfg, s, t, step)
    ensures Inv(cfg, TokenApply(cfg, s, t, step))
  {
    TokenLocks(cfg, s, t, step);
    TokenMemo(cfg, s, t, step);
    TokenThreads(cfg, s, t, step);
    TokenAwaits(cfg, s, t, step);
    TokenOwners(cfg, s, t, step);
    TokenWires(cfg, s, t, step);
    TokenSpent(cfg, s, t, step);
    TokenThreadMoves(s.threads, s.redirects.ops, s.flows.ops, t, TokenApply(cfg, s, t, step).threads[t]);
  }

  /** A /token thread has no place in the logs of the two stores. */
  lemma TokenThreadMoves(threads: seq<Thread>, rops: seq<OneShot.Op<Str>>, fops: seq<OneShot.Op<Flow>>, t: nat,
                         th: Thread)
    requires t < |threads| && OnTokenPath(threads[t])
    requires RedirectTakersOk(threads, rops) && FlowTakersOk(threads, fops)
    requires SaversOk(threads, rops) && FlowSaversOk(threads, fops)
    ensures RedirectTakersOk(threads[t := th], rops) && FlowTakersOk(threads[t := th], fops)
    ensures SaversOk(threads[t := th], rops) && FlowSaversOk(threads[t := th], fops)
  {
    RedirectTakerMoves(threads, rops, t, th);
    FlowTakerMoves(threads, fops, t, th);
    SaverMoves(threads, rops, t, th);
    FlowSaverMoves(threads, fops, t, th);
  }

  lemma TableInv(cfg: Config, s: State, t: nat, step: TableStep)
    requires Inv(cfg, s) && TableEnabled(cfg, s, t, step)
    ensures Inv(cfg, TableApply(cfg, s, t, step))
  {
    TableLocks(cfg, s, t, step);
    TableTables(cfg, s, t, step);
    TableThreads(cfg, s, t, step);
    TableAwaits(cfg, s, t, step);
    TableRedirectTakers(cfg, s, t, step);
    TableFlowTakers(cfg, s, t, step);
    TableSavers(cfg, s, t, step);
    TableFlowSavers(cfg, s, t, step);
    TableWires(cfg, s, t, step);
    TableSpent(cfg, s, t, step);
    OwnerMoves(s, t, TableNext(cfg, s, t, step));
  }

  lemma OwnerMoves(s: State, t: nat, th: Thread)
    requires OwnersOk(s) && t < |s.threads| && !HasCommitted(s.threads[t])
    ensures OwnersOk(s.(threads := s.threads[t := th]))
  {
  }

  lemma PostInv(cfg: Config, s: State, t: nat, step: PostStep)
    requires Inv(cfg, s) && PostEnabled(cfg, s, t, step)
    ensures Inv(cfg, PostApply(cfg, s, t, step))
  {
    PostLocks(cfg, s, t, step);
    PostThreads(cfg, s, t, step);
    PostAwaits(cfg, s, t, step);
    PostTakers(cfg, s, t, step);
    SaverMoves(s.threads, s.redirects.ops, t, PostNext(cfg, s, t, step));
    FlowSaverMoves(s.threads, s.flows.ops, t, PostNext(cfg, s, t, step));
    PostSpent(cfg, s, t, step);
    OwnerMoves(s, t, PostNext(cfg, s, t, step));
  }

  lemma ServerInv(cfg: Config, s: State, step: ServerStep)
    requires Inv(cfg, s) && ServerEnabled(s, step)
    ensures Inv(cfg, ServerApply(s, step))
  {
    ServerWires(cfg, s, step);
    ServerSpent(s, step);
  }

  lemma ArriveSpent(s: State, th: Thread)
    requires SpentOk(s)
    ensures SpentOk(s.(threads := s.threads + [th]))
  {
    var s' := s.(threads := s.threads + [th]);
    forall code: Str | Received(s, code)
      ensures Received(s', code)
    {
      if code !in s.token.cache {
        var u :| 0 <= u < |s.threads| && InFlight(s.threads[u], code);
        assert InFlight(s'.threads[u], code);
      }
    }
    SpentFrame(s, s');
  }

  lemma ArriveThreads(cfg: Config, s: State, request: Request)
    requires ThreadsOk(cfg, s) && AwaitsOk(s.threads)
    ensures var s' := s.(threads := s.threads + [NewThread(cfg, request)]); ThreadsOk(cfg, s') && AwaitsOk(s'.threads)
  {
    NewThreadOk(cfg, |s.threads|, request, s.token, s.redirects.ops, s.flows.ops);
  }

  lemma ArriveInv(cfg: Config, s: State, request: Request)
    requires Inv(cfg, s) && Enabled(cfg, s, Arrive(request))
    ensures Inv(cfg, Apply(cfg, s, Arrive(request)))
  {
    var th := NewThread(cfg, request);
    OutsideArrives(s, th);
    ArriveThreads(cfg, s, request);
    ArriveSpent(s, th);
  }

  /** The invariant is inductive. */
  lemma StepInv(cfg: Config, s: State, a: Action)
    requires Inv(cfg, s) && Enabled(cfg, s, a)
    ensures Inv(cfg, Apply(cfg, s, a))
  {
    match a
    case Arrive(request) => ArriveInv(cfg, s, request);
    case OnToken(t, step) => TokenInv(cfg, s, t, step);
    case OnTable(t, step) => TableInv(cfg, s, t, step);
    case OnPost(t, step) => PostInv(cfg, s, t, step);
    case OnServer(step) => ServerInv(cfg, s, step);
  }

  /** Every state of every run satisfies the invariant. */
  lemma {:induction false} RunInv(cfg: Config, s: State, actions: seq<Action>)
    requires Inv(cfg, s) && Schedule(cfg, s, actions)
    ensures Inv(cfg, Run(cfg, s, actions))
    decreases |actions|
  {
    if actions != [] {
      StepInv(cfg, s, actions[0]);
      RunInv(cfg, Apply(cfg, s, actions[0]), actions[1..]);
    }
  }

  lemma InvThread(cfg: Config, s: State, t: nat)
    requires Inv(cfg, s) && t < |s.threads|
    ensures ThreadOk(cfg, t, s.threads[t], s.token, s.redirects.ops, s.flows.ops)
  {
  }
}
