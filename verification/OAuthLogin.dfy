/** What a test login sends and where its results come from: the exchange of its own code with its own flow. */
module OAuthLogin {
  import opened Basics
  import opened Url
  import opened Params
  import opened TokenForm
  import opened Memo
  import opened Flows
  import opened OAuthMachine
  import opened OAuthInvariant
  import opened OAuthSteps
  import opened OAuthTheorems
  import opened OAuthCalls
  import OneShot
  import Relay

  // ----- callbacks that redeem, and the requests they post -----

  predicate Redeeming(th: Thread) {
    th.CPost? || th.CAwait? || (th.CDone? && th.ending.Handled?)
  }

  function FlowIn(th: Thread): Flow
    requires Redeeming(th)
  {
    if th.CDone? then th.ending.flow else th.flow
  }

  function ResultsIn(th: Thread): Results
    requires Redeeming(th)
  {
    if th.CDone? then th.ending.results else th.results
  }

  /** The exchange that a callback posts: its code, with the verifier and the toggle of its flow. */
  function FormFor(cfg: Config, th: Thread): Values
    requires Redeeming(th)
  {
    ExchangeForm(cfg, Get(ParseQuery(th.raw), CODE), FlowIn(th))
  }

  /** A /token request for this form, sent without an Authorization header. */
  predicate Carries(th: Thread, form: Values) {
    && OnTokenPath(th)
    && (th.TWait? || th.THeld? || th.TMiss? || th.TSent? ==> ParseQuery(th.body) == form && th.auth == "")
  }

  predicate CallCarries(call: Call, form: Values) {
    ParseQuery(call.body) == form && call.auth == ""
  }

  /** Every posted request carries the exchange of the callback that posted it, and so does its call. */
  ghost predicate PostsCarry(cfg: Config, threads: seq<Thread>, calls: seq<Call>, posts: seq<Posted>) {
    forall i :: 0 <= i < |posts| ==>
      && posts[i].parent < |threads| && posts[i].child < |threads| && Redeeming(threads[posts[i].parent])
      && Carries(threads[posts[i].child], FormFor(cfg, threads[posts[i].parent]))
      && (forall j :: 0 <= j < |calls| && calls[j].who == posts[i].child ==>
            CallCarries(calls[j], FormFor(cfg, threads[posts[i].parent])))
  }

  ghost predicate AwaitsPosted(threads: seq<Thread>, posts: seq<Posted>) {
    forall t :: 0 <= t < |threads| && threads[t].CAwait? ==> Posted(t, threads[t].child) in posts
  }

  /** Some request that `t` posted has been answered with `reply`. */
  ghost predicate RepliedTo(threads: seq<Thread>, posts: seq<Posted>, t: nat, reply: Reply) {
    exists i :: 0 <= i < |posts| && posts[i].parent == t && posts[i].child < |threads| &&
                HasReply(threads[posts[i].child]) && ReplyIn(threads[posts[i].child]) == reply
  }

  ghost predicate ResultsPosted(threads: seq<Thread>, posts: seq<Posted>) {
    forall t, k :: 0 <= t < |threads| && Redeeming(threads[t]) &&
                   0 <= k < |ResultsIn(threads[t])| && ResultsIn(threads[t])[k].Some? ==>
      RepliedTo(threads, posts, t, ResultsIn(threads[t])[k].value)
  }

  ghost predicate LoginOk(cfg: Config, s: State) {
    && PostsCarry(cfg, s.threads, s.token.calls, s.posts)
    && AwaitsPosted(s.threads, s.posts) && ResultsPosted(s.threads, s.posts)
  }

  // ----- requests on the token path -----

  predicate KeepsReply(th: Thread, th': Thread) {
    HasReply(th) ==> HasReply(th') && ReplyIn(th') == ReplyIn(th)
  }

  lemma RepliesKept(threads: seq<Thread>, posts: seq<Posted>, t: nat, th: Thread, u: nat, reply: Reply)
    requires t < |threads| && KeepsReply(threads[t], th) && RepliedTo(threads, posts, u, reply)
    ensures RepliedTo(threads[t := th], posts, u, reply)
  {
    var i :| 0 <= i < |posts| && posts[i].parent == u && posts[i].child < |threads| &&
             HasReply(threads[posts[i].child]) && ReplyIn(threads[posts[i].child]) == reply;
    assert HasReply(threads[t := th][posts[i].child]);
  }

  /** A request off the callback path moves. */
  lemma ResultsMove(threads: seq<Thread>, posts: seq<Posted>, t: nat, th: Thread)
    requires ResultsPosted(threads, posts) && t < |threads| && KeepsReply(threads[t], th)
    requires Redeeming(th) ==> ResultsIn(th) == [] || (Redeeming(threads[t]) && ResultsIn(th) == ResultsIn(threads[t]))
    ensures ResultsPosted(threads[t := th], posts)
  {
    var threads' := threads[t := th];
    forall u, k | 0 <= u < |threads'| && Redeeming(threads'[u]) &&
                  0 <= k < |ResultsIn(threads'[u])| && ResultsIn(threads'[u])[k].Some?
      ensures RepliedTo(threads', posts, u, ResultsIn(threads'[u])[k].value)
    {
      RepliesKept(threads, posts, t, th, u, ResultsIn(threads[u])[k].value);
    }
  }

  lemma CarryMoves(cfg: Config, threads: seq<Thread>, calls: seq<Call>, posts: seq<Posted>, t: nat, th: Thread)
    requires PostsCarry(cfg, threads, calls, posts) && t < |threads|
    requires Redeeming(threads[t]) ==> Redeeming(th) && FormFor(cfg, th) == FormFor(cfg, threads[t])
    requires OnTokenPath(threads[t]) ==> forall form: Values :: Carries(threads[t], form) ==> Carries(th, form)
    ensures PostsCarry(cfg, threads[t := th], calls, posts)
  {
  }

  lemma CarryCalls(cfg: Config, threads: seq<Thread>, calls: seq<Call>, posts: seq<Posted>, call: Call)
    requires PostsCarry(cfg, threads, calls, posts) && call.who < |threads|
    requires forall form: Values :: Carries(threads[call.who], form) ==> CallCarries(call, form)
    ensures PostsCarry(cfg, threads, calls + [call], posts)
  {
  }

  lemma TokenCarries(cfg: Config, s: State, t: nat, step: TokenStep, form: Values)
    requires TokenEnabled(cfg, s, t, step) && Carries(s.threads[t], form)
    ensures Carries(TokenApply(cfg, s, t, step).threads[t], form)
  {
  }

  lemma TokenReplies(cfg: Config, s: State, t: nat, step: TokenStep)
    requires TokenEnabled(cfg, s, t, step)
    ensures KeepsReply(s.threads[t], TokenApply(cfg, s, t, step).threads[t])
  {
  }

  lemma CallsOfStep(cfg: Config, s: State, t: nat, step: TokenStep)
    requires TokenEnabled(cfg, s, t, step)
    ensures step.Forward? ==>
      var th := s.threads[t];
      th.TMiss? && TokenApply(cfg, s, t, step).token.calls ==
        s.token.calls +
        [Call(t, th.body, Get(th.form, CODE), Encode(Inject(cfg, th.form, th.auth), step.keys), th.auth)]
    ensures !step.Forward? ==> TokenApply(cfg, s, t, step).token.calls == s.token.calls
    ensures TokenApply(cfg, s, t, step).posts == s.posts
  {
  }

  lemma TokenPostsCarry(cfg: Config, s: State, s': State, t: nat, step: TokenStep)
    requires PostsCarry(cfg, s.threads, s.token.calls, s.posts) && TokenEnabled(cfg, s, t, step)
    requires s' == TokenApply(cfg, s, t, step)
    ensures PostsCarry(cfg, s'.threads, s'.token.calls, s'.posts)
  {
    var th := s.threads[t];
    TokenFrame(cfg, s, t, step);
    CallsOfStep(cfg, s, t, step);
    forall form: Values | Carries(th, form)
      ensures Carries(s'.threads[t], form)
    {
      TokenCarries(cfg, s, t, step, form);
    }
    if step.Forward? {
      CarryCalls(cfg, s.threads, s.token.calls, s.posts, s'.token.calls[|s.token.calls|]);
    }
    CarryMoves(cfg, s.threads, s'.token.calls, s.posts, t, s'.threads[t]);
  }

  lemma TokenLogin(cfg: Config, s: State, s': State, t: nat, step: TokenStep)
    requires LoginOk(cfg, s) && TokenEnabled(cfg, s, t, step) && s' == TokenApply(cfg, s, t, step)
    ensures LoginOk(cfg, s')
  {
    TokenPostsCarry(cfg, s, s', t, step);
    TokenFrame(cfg, s, t, step);
    CallsOfStep(cfg, s, t, step);
    TokenReplies(cfg, s, t, step);
    ResultsMove(s.threads, s.posts, t, s'.threads[t]);
  }

  // ----- callbacks and the other requests -----

  lemma OffNoReply(th: Thread)
    requires OffTokenPath(th)
    ensures !HasReply(th)
  {
  }

  lemma TakenRedeems(raw: Str, at: nat, found: Option<Flow>)
    ensures Redeeming(AfterTake(raw, at, found)) ==>
      AfterTake(raw, at, found).CPost? && ResultsIn(AfterTake(raw, at, found)) == []
  {
  }

  lemma TableRedeems(cfg: Config, s: State, t: nat, step: TableStep)
    requires TableEnabled(cfg, s, t, step)
    ensures !Redeeming(s.threads[t]) && !TableNext(cfg, s, t, step).CAwait?
    ensures Redeeming(TableNext(cfg, s, t, step)) ==> ResultsIn(TableNext(cfg, s, t, step)) == []
  {
    if step.TakeFlow? {
      var raw := s.threads[t].raw;
      TakenRedeems(raw, |s.flows.ops|, OneShot.Found(s.flows.m, Relay.StateOf(raw)));
    }
  }

  lemma TableLogin(cfg: Config, s: State, t: nat, step: TableStep, th': Thread)
    requires LoginOk(cfg, s) && TableEnabled(cfg, s, t, step) && th' == TableNext(cfg, s, t, step)
    ensures LoginOk(cfg, TableApply(cfg, s, t, step))
  {
    TableOff(cfg, s, t, step);
    OffNoReply(s.threads[t]);
    TableRedeems(cfg, s, t, step);
    CarryMoves(cfg, s.threads, s.token.calls, s.posts, t, th');
    ResultsMove(s.threads, s.posts, t, th');
  }

  lemma ArriveLogin(cfg: Config, s: State, th: Thread)
    requires LoginOk(cfg, s) && !Redeeming(th)
    ensures LoginOk(cfg, s.(threads := s.threads + [th]))
  {
    forall t, k | 0 <= t < |s.threads| && Redeeming(s.threads[t]) &&
                  0 <= k < |ResultsIn(s.threads[t])| && ResultsIn(s.threads[t])[k].Some?
      ensures RepliedTo(s.threads + [th], s.posts, t, ResultsIn(s.threads[t])[k].value)
    {
      RepliesGrow(s.threads, s.posts, th, t, ResultsIn(s.threads[t])[k].value);
    }
  }

  lemma RepliesGrow(threads: seq<Thread>, posts: seq<Posted>, th: Thread, t: nat, reply: Reply)
    requires RepliedTo(threads, posts, t, reply)
    ensures RepliedTo(threads + [th], posts, t, reply)
  {
    var i :| 0 <= i < |posts| && posts[i].parent == t && posts[i].child < |threads| &&
             HasReply(threads[posts[i].child]) && ReplyIn(threads[posts[i].child]) == reply;
    assert (threads + [th])[posts[i].child] == threads[posts[i].child];
  }

  // ----- the loopback requests themselves -----

  lemma PostedCarries(cfg: Config, th: Thread, keys: seq<Str>, readable: bool)
    requires th.CPost? && Enumerates(keys, FormFor(cfg, th).Keys)
    ensures Carries(PostedRequest(cfg, th, keys, readable), FormFor(cfg, th))
  {
    ExchangedForm(cfg, CodeOf(th), th.flow);
    EncodeRoundTrip(FormFor(cfg, th), keys);
  }

  lemma CarryArrives(cfg: Config, threads: seq<Thread>, calls: seq<Call>, posts: seq<Posted>, child: Thread)
    requires PostsCarry(cfg, threads, calls, posts)
    ensures PostsCarry(cfg, threads + [child], calls, posts)
  {
  }

  lemma CarryAdds(cfg: Config, threads: seq<Thread>, calls: seq<Call>, posts: seq<Posted>, p: Posted)
    requires PostsCarry(cfg, threads, calls, posts)
    requires p.parent < |threads| && p.child < |threads| && Redeeming(threads[p.parent])
    requires Carries(threads[p.child], FormFor(cfg, threads[p.parent]))
    requires forall j :: 0 <= j < |calls| ==> calls[j].who != p.child
    ensures PostsCarry(cfg, threads, calls, posts + [p])
  {
  }

  /** A callback posts: it goes on redeeming with the same form, and the new request carries it. */
  lemma PostCarries(cfg: Config, s: State, t: nat, th': Thread, child: Thread)
    requires PostsCarry(cfg, s.threads, s.token.calls, s.posts) && CallsOk(s.threads, s.token)
    requires t < |s.threads| && s.threads[t].CPost? && Redeeming(th') && FormFor(cfg, th') == FormFor(cfg, s.threads[t])
    requires Carries(child, FormFor(cfg, th'))
    ensures PostsCarry(cfg, s.threads[t := th'] + [child], s.token.calls, s.posts + [Posted(t, |s.threads|)])
  {
    CallbackOff(s.threads[t]);
    CarryMoves(cfg, s.threads, s.token.calls, s.posts, t, th');
    CarryArrives(cfg, s.threads[t := th'], s.token.calls, s.posts, child);
    CarryAdds(cfg, s.threads[t := th'] + [child], s.token.calls, s.posts, Posted(t, |s.threads|));
  }

  lemma PostAwaited(threads: seq<Thread>, posts: seq<Posted>, t: nat, th': Thread, child: Thread)
    requires AwaitsPosted(threads, posts) && t < |threads| && th'.CAwait? && th'.child == |threads| && !child.CAwait?
    ensures AwaitsPosted(threads[t := th'] + [child], posts + [Posted(t, |threads|)])
  {
    var all := posts + [Posted(t, |threads|)];
    assert all[|posts|] == Posted(t, |threads|);
    assert forall p :: p in posts ==> p in all;
  }

  lemma RepliesPosted(threads: seq<Thread>, posts: seq<Posted>, p: Posted, t: nat, reply: Reply)
    requires RepliedTo(threads, posts, t, reply)
    ensures RepliedTo(threads, posts + [p], t, reply)
  {
    var i :| 0 <= i < |posts| && posts[i].parent == t && posts[i].child < |threads| &&
             HasReply(threads[posts[i].child]) && ReplyIn(threads[posts[i].child]) == reply;
    assert (posts + [p])[i] == posts[i];
  }

  lemma ResultsPost(threads: seq<Thread>, posts: seq<Posted>, p: Posted)
    requires ResultsPosted(threads, posts)
    ensures ResultsPosted(threads, posts + [p])
  {
    forall t, k | 0 <= t < |threads| && Redeeming(threads[t]) &&
                  0 <= k < |ResultsIn(threads[t])| && ResultsIn(threads[t])[k].Some?
      ensures RepliedTo(threads, posts + [p], t, ResultsIn(threads[t])[k].value)
    {
      RepliesPosted(threads, posts, p, t, ResultsIn(threads[t])[k].value);
    }
  }

  lemma ResultsArrive(threads: seq<Thread>, posts: seq<Posted>, th: Thread)
    requires ResultsPosted(threads, posts) && !Redeeming(th)
    ensures ResultsPosted(threads + [th], posts)
  {
    forall t, k | 0 <= t < |threads| && Redeeming(threads[t]) &&
                  0 <= k < |ResultsIn(threads[t])| && ResultsIn(threads[t])[k].Some?
      ensures RepliedTo(threads + [th], posts, t, ResultsIn(threads[t])[k].value)
    {
      RepliesGrow(threads, posts, th, t, ResultsIn(threads[t])[k].value);
    }
  }

  lemma PostLogin(cfg: Config, s: State, t: nat, keys: seq<Str>, readable: bool, th': Thread, child: Thread)
    requires LoginOk(cfg, s) && CallsOk(s.threads, s.token) && PostEnabled(cfg, s, t, Post(keys, readable))
    requires th' == PostNext(cfg, s, t, Post(keys, readable))
    requires child == PostedRequest(cfg, s.threads[t], keys, readable)
    ensures LoginOk(cfg, PostApply(cfg, s, t, Post(keys, readable)))
  {
    var p := Posted(t, |s.threads|);
    PostedCarries(cfg, s.threads[t], keys, readable);
    PostedUncalled(cfg, s.threads[t], keys, readable);
    PostCarries(cfg, s, t, th', child);
    PostAwaited(s.threads, s.posts, t, th', child);
    ResultsMove(s.threads, s.posts, t, th');
    ResultsArrive(s.threads[t := th'], s.posts, child);
    ResultsPost(s.threads[t := th'] + [child], s.posts, p);
  }

  /** The next attempt: the same form, and one more result. */
  lemma NextRedeems(cfg: Config, th: Thread, result: Option<Reply>)
    requires th.CPost? || th.CAwait?
    ensures Redeeming(NextAttempt(th, result)) && FormFor(cfg, NextAttempt(th, result)) == FormFor(cfg, th)
    ensures ResultsIn(NextAttempt(th, result)) == ResultsIn(th) + [result] && !NextAttempt(th, result).CAwait?
  {
  }

  lemma ResultAdded(threads: seq<Thread>, posts: seq<Posted>, t: nat, th: Thread, result: Option<Reply>)
    requires ResultsPosted(threads, posts) && t < |threads| && Redeeming(threads[t]) && !HasReply(threads[t])
    requires Redeeming(th) && ResultsIn(th) == ResultsIn(threads[t]) + [result]
    requires result.Some? ==> RepliedTo(threads, posts, t, result.value)
    ensures ResultsPosted(threads[t := th], posts)
  {
    var threads' := threads[t := th];
    forall u, k | 0 <= u < |threads'| && Redeeming(threads'[u]) &&
                  0 <= k < |ResultsIn(threads'[u])| && ResultsIn(threads'[u])[k].Some?
      ensures RepliedTo(threads', posts, u, ResultsIn(threads'[u])[k].value)
    {
      RepliesKept(threads, posts, t, th, u, ResultsIn(threads'[u])[k].value);
    }
  }

  lemma AttemptLogin(cfg: Config, s: State, t: nat, th: Thread, result: Option<Reply>)
    requires LoginOk(cfg, s) && t < |s.threads| && th == s.threads[t] && (th.CPost? || th.CAwait?)
    requires result.Some? ==> RepliedTo(s.threads, s.posts, t, result.value)
    ensures LoginOk(cfg, s.(threads := s.threads[t := NextAttempt(th, result)]))
  {
    var th' := NextAttempt(th, result);
    CallbackOff(th);
    OffNoReply(th);
    NextRedeems(cfg, th, result);
    CarryMoves(cfg, s.threads, s.token.calls, s.posts, t, th');
    ResultAdded(s.threads, s.posts, t, th', result);
  }

  lemma CollectReplied(s: State, t: nat)
    requires AwaitsPosted(s.threads, s.posts) && t < |s.threads| && s.threads[t].CAwait?
    requires s.threads[t].child < |s.threads| && HasReply(s.threads[s.threads[t].child])
    ensures RepliedTo(s.threads, s.posts, t, ReplyIn(s.threads[s.threads[t].child]))
  {
    var i :| 0 <= i < |s.posts| && s.posts[i] == Posted(t, s.threads[t].child);
  }

  lemma PostsLogin(cfg: Config, s: State, t: nat, step: PostStep)
    requires LoginOk(cfg, s) && CallsOk(s.threads, s.token) && PostEnabled(cfg, s, t, step)
    ensures LoginOk(cfg, PostApply(cfg, s, t, step))
  {
    var th := s.threads[t];
    match step
    case Post(keys, readable) =>
      PostLogin(cfg, s, t, keys, readable, PostNext(cfg, s, t, step), PostedRequest(cfg, th, keys, readable));
    case Collect =>
      CollectReplied(s, t);
      AttemptLogin(cfg, s, t, th, Some(ReplyIn(s.threads[th.child])));
    case _ => AttemptLogin(cfg, s, t, th, None);
  }

  // ----- all actions -----

  lemma NewRedeems(cfg: Config, request: Request)
    ensures !Redeeming(NewThread(cfg, request))
  {
    if request.Token? {
      NewUncalled(cfg, request.body, request.auth);
    }
  }

  lemma StepLogin(cfg: Config, s: State, a: Action)
    requires LoginOk(cfg, s) && CallsOk(s.threads, s.token) && Enabled(cfg, s, a)
    ensures LoginOk(cfg, Apply(cfg, s, a))
  {
    match a
    case Arrive(request) =>
      NewRedeems(cfg, request);
      ArriveLogin(cfg, s, NewThread(cfg, request));
    case OnToken(t, step) => TokenLogin(cfg, s, TokenApply(cfg, s, t, step), t, step);
    case OnTable(t, step) => TableLogin(cfg, s, t, step, TableNext(cfg, s, t, step));
    case OnPost(t, step) => PostsLogin(cfg, s, t, step);
    case OnServer(step) =>
  }

  lemma {:induction false} RunLogin(cfg: Config, s: State, actions: seq<Action>)
    requires Inv(cfg, s) && HistoryOk(s) && LoginOk(cfg, s) && Schedule(cfg, s, actions)
    ensures LoginOk(cfg, Run(cfg, s, actions))
    decreases |actions|
  {
    if actions != [] {
      StepInv(cfg, s, actions[0]);
      StepHistory(cfg, s, actions[0]);
      StepLogin(cfg, s, actions[0]);
      RunLogin(cfg, Apply(cfg, s, actions[0]), actions[1..]);
    }
  }

  lemma ReachableLogin(cfg: Config, s: State)
    requires Reachable(cfg, s)
    ensures LoginOk(cfg, s)
  {
    var actions :| Schedule(cfg, START, actions) && Run(cfg, START, actions) == s;
    StartInv(cfg);
    RunLogin(cfg, START, actions);
  }

  // ----- results -----

  /**
   What goes upstream for a test login is the rewritten exchange of its code, with the verifier and the toggle
   of the flow it took.
   */
  lemma LoginSendsItsFlow(cfg: Config, s: State, i: nat, j: nat)
    requires Reachable(cfg, s) && i < |s.posts| && j < |s.token.calls| && s.token.calls[j].who == s.posts[i].child
    ensures s.posts[i].parent < |s.threads| && Redeeming(s.threads[s.posts[i].parent])
    ensures ParseQuery(s.token.calls[j].wire) == Rewrite(cfg, FormFor(cfg, s.threads[s.posts[i].parent]), "")
  {
    ReachableInv(cfg, s);
    ReachableLogin(cfg, s);
    assert PinnedCall(cfg, s.token.calls[j]);
    assert CallCarries(s.token.calls[j], FormFor(cfg, s.threads[s.posts[i].parent]));
  }

  /** Every result a test login shows is the reply to a /token request that it posted itself. */
  lemma LoginShowsItsReplies(cfg: Config, s: State, t: nat, k: nat) returns (i: nat)
    requires Reachable(cfg, s)
    requires t < |s.threads| && s.threads[t].CDone? && s.threads[t].ending.Handled?
    requires k < |s.threads[t].ending.results| && s.threads[t].ending.results[k].Some?
    ensures i < |s.posts| && s.posts[i].parent == t && s.posts[i].child < |s.threads|
    ensures HasReply(s.threads[s.posts[i].child])
    ensures s.threads[t].ending.results[k] == Some(ReplyIn(s.threads[s.posts[i].child]))
  {
    ReachableLogin(cfg, s);
    var reply := ResultsIn(s.threads[t])[k].value;
    assert RepliedTo(s.threads, s.posts, t, reply);
    i :| 0 <= i < |s.posts| && s.posts[i].parent == t && s.posts[i].child < |s.threads| &&
         HasReply(s.threads[s.posts[i].child]) && ReplyIn(s.threads[s.posts[i].child]) == reply;
  }
}
