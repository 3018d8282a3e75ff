/** No request is ever stuck: some other step is always possible, and there are only finitely many. */
module OAuthProgress {
  import opened Basics
  import opened Url
  import opened Params
  import opened TokenForm
  import opened Memo
  import opened Flows
  import opened OAuthMachine
  import opened OAuthInvariant
  import opened OAuthSteps
  import OAuthTheorems
  import OneShot
  import Relay

  /** An upper bound on the steps a thread, and the requests it will still post, can take. */
  function Rank(th: Thread): nat {
    match th
    case TWait(_, _, _) => 7
    case THeld(_, _, _) => 6
    case TMiss(_, _, _) => 5
    case TSent(_, _, _, _) => 4
    case TAnswered(_, _) => 3
    case TReply(_, _, _) => 2
    case TWritten(_, _, _) => 1
    case AWait(_) => 3
    case AHeld(_) => 2
    case ASaved(_) => 1
    case LWait(_, _, _, _) => 3
    case LHeld(_, _, _, _) => 2
    case LSaved(_, _, _, _) => 1
    case CWait(_) => 20
    case CHeldFlow(_) => 19
    case CMiss(_, _) => 2
    case CHeldStore(_, _) => 1
    case CPost(_, _, _, results) => if results == [] then 18 else 9
    case CAwait(_, _, _, results, _) => if results == [] then 10 else 1
    case _ => 0
  }

  predicate Finished(th: Thread) {
    th.TDone? || th.TBad? || th.ADone? || th.LDone? || th.CDone?
  }

  function Work(threads: seq<Thread>): nat {
    if threads == [] then 0 else Work(threads[..|threads| - 1]) + Rank(threads[|threads| - 1])
  }

  lemma WorkAppend(threads: seq<Thread>, th: Thread)
    ensures Work(threads + [th]) == Work(threads) + Rank(th)
  {
    assert (threads + [th])[..|threads|] == threads;
  }

  lemma {:induction false} WorkUpdate(threads: seq<Thread>, t: nat, th: Thread)
    requires t < |threads|
    ensures Work(threads[t := th]) == Work(threads) - Rank(threads[t]) + Rank(th)
    decreases |threads|
  {
    var n := |threads| - 1;
    if t == n {
      assert threads[t := th][..n] == threads[..n];
    } else {
      WorkUpdate(threads[..n], t, th);
      assert threads[t := th][..n] == threads[..n][t := th];
    }
  }

  /** A step of a request already there, as opposed to an arrival or the server's own doing. */
  predicate Internal(a: Action) {
    a.OnToken? || a.OnTable? || a.OnPost?
  }

  lemma TokenRank(cfg: Config, s: State, t: nat, step: TokenStep)
    requires TokenEnabled(cfg, s, t, step)
    ensures Rank(TokenApply(cfg, s, t, step).threads[t]) < Rank(s.threads[t])
  {
  }

  lemma TakenRank(raw: Str, at: nat, found: Option<Flow>)
    ensures Rank(AfterTake(raw, at, found)) < Rank(CHeldFlow(raw))
  {
  }

  lemma SentRank(th: Thread, sent: Thread)
    requires (th.ASaved? || th.LSaved?) && (sent.ADone? || sent.LDone?)
    ensures Rank(sent) < Rank(th)
  {
  }

  lemma TableRank(cfg: Config, s: State, t: nat, step: TableStep)
    requires TableEnabled(cfg, s, t, step)
    ensures Rank(TableNext(cfg, s, t, step)) < Rank(s.threads[t])
  {
    if step.SendOn? {
      SentRank(s.threads[t], TableNext(cfg, s, t, step));
    } else if step.TakeFlow? {
      var raw := s.threads[t].raw;
      TakenRank(raw, |s.flows.ops|, OneShot.Found(s.flows.m, Relay.StateOf(raw)));
    }
  }

  lemma AttemptRank(th: Thread, result: Option<Reply>)
    requires (th.CPost? || th.CAwait?) && |th.results| <= 1
    ensures Rank(NextAttempt(th, result)) < Rank(th)
  {
  }

  lemma RequestRank(cfg: Config, body: Option<Str>, auth: Str)
    ensures Rank(TokenThread(cfg, body, auth)) <= 7
  {
  }

  /** Posting reserves the work of the posted request. */
  lemma WaitingRank(th: Thread, child: nat)
    requires th.CPost? && |th.results| <= 1
    ensures Rank(CAwait(th.raw, th.flow, th.flowAt, th.results, child)) + 7 < Rank(th)
  {
  }

  lemma PostedWork(cfg: Config, s: State, t: nat, keys: seq<Str>, readable: bool)
    requires PostEnabled(cfg, s, t, Post(keys, readable)) && |s.threads[t].results| <= 1
    ensures Work(PostApply(cfg, s, t, Post(keys, readable)).threads) < Work(s.threads)
  {
    var th := s.threads[t];
    var body := if readable then Some(Encode(ExchangeForm(cfg, CodeOf(th), th.flow), keys)) else None;
    RequestRank(cfg, body, "");
    WaitingRank(th, |s.threads|);
    WorkSpawn(s.threads, t, PostNext(cfg, s, t, Post(keys, readable)), PostedRequest(cfg, th, keys, readable));
  }

  lemma WorkSpawn(threads: seq<Thread>, t: nat, th: Thread, child: Thread)
    requires t < |threads|
    ensures Work(threads[t := th] + [child]) == Work(threads) - Rank(threads[t]) + Rank(th) + Rank(child)
  {
    WorkUpdate(threads, t, th);
    WorkAppend(threads[t := th], child);
  }

  lemma PostWork(cfg: Config, s: State, t: nat, step: PostStep)
    requires PostEnabled(cfg, s, t, step) && |s.threads[t].results| <= 1
    ensures Work(PostApply(cfg, s, t, step).threads) < Work(s.threads)
  {
    if step.Post? {
      PostedWork(cfg, s, t, step.keys, step.readable);
    } else {
      var result := if step.Collect? then Some(ReplyIn(s.threads[s.threads[t].child])) else None;
      AttemptRank(s.threads[t], result);
      WorkUpdate(s.threads, t, NextAttempt(s.threads[t], result));
    }
  }

  /** Every internal step uses up work. */
  lemma InternalStepsEnd(cfg: Config, s: State, a: Action)
    requires Inv(cfg, s) && Enabled(cfg, s, a) && Internal(a)
    ensures Work(Apply(cfg, s, a).threads) < Work(s.threads)
  {
    match a
    case OnToken(t, step) =>
      TokenRank(cfg, s, t, step);
      WorkUpdate(s.threads, t, TokenApply(cfg, s, t, step).threads[t]);
    case OnTable(t, step) =>
      TableRank(cfg, s, t, step);
      WorkUpdate(s.threads, t, TableNext(cfg, s, t, step));
    case OnPost(t, step) =>
      InvThread(cfg, s, t);
      PostWork(cfg, s, t, step);
    case _ =>
  }

  function InternalSteps(actions: seq<Action>): nat {
    if actions == [] then 0 else (if Internal(actions[0]) then 1 else 0) + InternalSteps(actions[1..])
  }

  function Arrivals(actions: seq<Action>): nat {
    if actions == [] then 0 else (if actions[0].Arrive? then 1 else 0) + Arrivals(actions[1..])
  }

  /** The steps that one request can take, those of the requests it posts included. */
  const MOST_STEPS: nat := 20

  lemma ArrivalRank(cfg: Config, request: Request)
    ensures Rank(NewThread(cfg, request)) <= MOST_STEPS
  {
  }

  /** What one action does to the work that is left. */
  lemma StepWork(cfg: Config, s: State, a: Action)
    requires Inv(cfg, s) && Enabled(cfg, s, a)
    ensures Work(Apply(cfg, s, a).threads) + (if Internal(a) then 1 else 0) <=
            Work(s.threads) + (if a.Arrive? then MOST_STEPS else 0)
  {
    if Internal(a) {
      InternalStepsEnd(cfg, s, a);
    } else if a.Arrive? {
      ArrivalRank(cfg, a.request);
      WorkAppend(s.threads, NewThread(cfg, a.request));
    }
  }

  /**
   Whatever the schedule, with requests arriving and the server acting throughout, the requests there at the
   start and those that arrive take at most Work(s) steps and 20 for each arrival.
   */
  lemma {:induction false} RunsEnd(cfg: Config, s: State, actions: seq<Action>)
    requires Inv(cfg, s) && Schedule(cfg, s, actions)
    ensures InternalSteps(actions) <= Work(s.threads) + MOST_STEPS * Arrivals(actions)
    decreases |actions|
  {
    if actions != [] {
      StepInv(cfg, s, actions[0]);
      StepWork(cfg, s, actions[0]);
      RunsEnd(cfg, Apply(cfg, s, actions[0]), actions[1..]);
    }
  }

  /** Steps in which nothing goes wrong: no broken connection, no request that cannot be built. */
  predicate Regular(a: Action) {
    && Internal(a)
    && !(a.OnToken? && (a.token.FailBuild? || a.token.Lose?))
    && !(a.OnPost? && (a.post.PostFails? || a.post.GiveUp?))
  }

  /** Where in the wait-for order a thread stands: callbacks wait for /token, /token for the server. */
  function WaitLevel(th: Thread): nat {
    if th.CAwait? then 2 else if th.TWait? then 1 else 0
  }

  lemma TokenHolderMoves(cfg: Config, s: State, t: nat) returns (a: Action)
    requires Inv(cfg, s) && t < |s.threads| && HoldsToken(s.threads[t])
    ensures Regular(a) && Enabled(cfg, s, a)
  {
    var th := s.threads[t];
    match th
    case THeld(_, _, _) => a := OnToken(t, Consult);
    case TMiss(_, form, auth) =>
      var keys := EnumerationExists(Inject(cfg, form, auth).Keys);
      a := OnToken(t, Forward(keys));
    case TSent(_, _, _, _) => a := OnToken(t, Answer(Response(400, "", "")));
    case TAnswered(_, _) => a := OnToken(t, Store);
    case TReply(_, _, _) => a := OnToken(t, Write);
    case TWritten(_, _, _) => a := OnToken(t, Unlock);
  }

  lemma TableHolderMoves(cfg: Config, s: State, t: nat) returns (a: Action)
    requires t < |s.threads| && (HoldsRedirects(s.threads[t]) || HoldsFlows(s.threads[t]))
    ensures Regular(a) && Enabled(cfg, s, a)
  {
    var th := s.threads[t];
    a := OnTable(t, if th.AHeld? then SaveRedirect else if th.CHeldStore? then TakeRedirect
                    else if th.LHeld? then SaveFlow else TakeFlow);
  }

  lemma LockWaiterMoves(cfg: Config, s: State, t: nat) returns (a: Action)
    requires Inv(cfg, s) && t < |s.threads|
    requires var th := s.threads[t]; th.TWait? || th.AWait? || th.CMiss? || th.LWait? || th.CWait?
    ensures Regular(a) && Enabled(cfg, s, a)
  {
    var th := s.threads[t];
    if th.TWait? {
      if s.token.lock.None? {
        a := OnToken(t, Lock);
      } else {
        a := TokenHolderMoves(cfg, s, s.token.lock.value);
      }
    } else if th.AWait? || th.CMiss? {
      if s.redirects.lock.None? {
        a := OnTable(t, LockRedirects);
      } else {
        a := TableHolderMoves(cfg, s, s.redirects.lock.value);
      }
    } else if s.flows.lock.None? {
      a := OnTable(t, LockFlows);
    } else {
      a := TableHolderMoves(cfg, s, s.flows.lock.value);
    }
  }

  /**
   Deadlock freedom: while any request is unfinished, some request can take a regular step, even though a
   /testlogin callback waits for the server's own /token.
   */
  lemma {:induction false} NoDeadlock(cfg: Config, s: State, t: nat) returns (a: Action)
    requires Inv(cfg, s) && t < |s.threads| && !Finished(s.threads[t])
    ensures Regular(a) && Enabled(cfg, s, a)
    decreases WaitLevel(s.threads[t])
  {
    var th := s.threads[t];
    if HoldsToken(th) {
      a := TokenHolderMoves(cfg, s, t);
    } else if HoldsRedirects(th) || HoldsFlows(th) {
      a := TableHolderMoves(cfg, s, t);
    } else if th.ASaved? || th.LSaved? {
      var keys := EnumerationExists(Outgoing(cfg, th).Keys);
      a := OnTable(t, SendOn(keys));
    } else if th.CPost? {
      var keys := EnumerationExists(ExchangeForm(cfg, CodeOf(th), th.flow).Keys);
      a := OnPost(t, Post(keys, true));
    } else if th.CAwait? {
      assert ChildOk(th, s.threads[th.child]);
      if HasReply(s.threads[th.child]) {
        a := OnPost(t, Collect);
      } else {
        a := NoDeadlock(cfg, s, th.child);
      }
    } else {
      a := LockWaiterMoves(cfg, s, t);
    }
  }

  /** A state in which nobody can take a regular step is one in which every request is finished. */
  lemma StuckOnlyWhenFinished(cfg: Config, s: State)
    requires OAuthTheorems.Reachable(cfg, s)
    requires forall a :: Enabled(cfg, s, a) ==> !Regular(a)
    ensures forall t :: 0 <= t < |s.threads| ==> Finished(s.threads[t])
  {
    OAuthTheorems.ReachableInv(cfg, s);
    forall t | 0 <= t < |s.threads|
      ensures Finished(s.threads[t])
    {
      if !Finished(s.threads[t]) {
        var a := NoDeadlock(cfg, s, t);
        assert false;
      }
    }
  }

  /** No thread holds two of the mutexes, and none holds any while it waits for its own /token request. */
  lemma OneMutexAtATime(cfg: Config, s: State, t: nat)
    requires OAuthTheorems.Reachable(cfg, s) && t < |s.threads|
    ensures s.token.lock == Some(t) ==> s.redirects.lock != Some(t) && s.flows.lock != Some(t)
    ensures s.redirects.lock == Some(t) ==> s.flows.lock != Some(t)
    ensures s.threads[t].CAwait? ==> s.token.lock != Some(t) && s.redirects.lock != Some(t) && s.flows.lock != Some(t)
  {
    OAuthTheorems.ReachableInv(cfg, s);
  }
}
