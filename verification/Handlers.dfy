/**
 The mutable objects behind the OAuth endpoints, and the endpoints run one at a time. Every method is
 tied to the step functions of OneShot, Memo and TokenForm; OAuthMachine interleaves those same steps.
 */
module Handlers {
  import opened Basics
  import opened Url
  import opened Params
  import opened TokenForm
  import opened Memo
  import opened Flows
  import OneShot
  import Relay

  class RedirectStore {
    var m: map<Str, Str>
    ghost var ops: seq<OneShot.Op<Str>>

    ghost predicate Valid()
      reads this
    {
      OneShot.Agrees(m, ops) && OneShot.Consistent(ops)
    }

    constructor ()
      ensures Valid() && m == map[] && ops == []
    {
      m, ops := map[], [];
    }

    method Save(ghost who: nat, state: Str, redirect: Str)
      requires Valid()
      modifies this
      ensures Valid()
      ensures m == old(m)[state := redirect]
      ensures ops == old(ops) + [OneShot.Saved(who, state, redirect)]
    {
      OneShot.SaveKeeps(m, ops, who, state, redirect);
      m := m[state := redirect];
      ops := ops + [OneShot.Saved(who, state, redirect)];
    }

    /** Returns the most recent save that nobody has taken, and consumes it. */
    method Take(ghost who: nat, state: Str) returns (r: Option<Str>)
      requires Valid()
      modifies this
      ensures Valid()
      ensures r == OneShot.Live(old(ops), state)
      ensures r == if state in old(m) then Some(old(m)[state]) else None
      ensures m == old(m) - {state}
      ensures ops == old(ops) + [OneShot.Took(who, state, r)]
      ensures OneShot.Live(ops, state).None?
    {
      OneShot.TakeKeeps(m, ops, who, state);
      r := OneShot.Found(m, state);
      OneShot.LiveAppend(ops, OneShot.Took(who, state, r), state);
      if r.Some? {
        m := m - {state};
      }
      ops := ops + [OneShot.Took(who, state, r)];
    }
  }

  class DiagFlows {
    var flows: map<Str, Flow>
    ghost var ops: seq<OneShot.Op<Flow>>

    ghost predicate Valid()
      reads this
    {
      OneShot.Agrees(flows, ops) && OneShot.Consistent(ops)
    }

    constructor ()
      ensures Valid() && flows == map[] && ops == []
    {
      flows, ops := map[], [];
    }

    method Save(ghost who: nat, state: Str, flow: Flow)
      requires Valid()
      modifies this
      ensures Valid()
      ensures flows == old(flows)[state := flow]
      ensures ops == old(ops) + [OneShot.Saved(who, state, flow)]
    {
      OneShot.SaveKeeps(flows, ops, who, state, flow);
      flows := flows[state := flow];
      ops := ops + [OneShot.Saved(who, state, flow)];
    }

    method Take(ghost who: nat, state: Str) returns (f: Option<Flow>)
      requires Valid()
      modifies this
      ensures Valid()
      ensures f == OneShot.Live(old(ops), state)
      ensures f == if state in old(flows) then Some(old(flows)[state]) else None
      ensures flows == old(flows) - {state}
      ensures ops == old(ops) + [OneShot.Took(who, state, f)]
      ensures OneShot.Live(ops, state).None?
    {
      OneShot.TakeKeeps(flows, ops, who, state);
      f := OneShot.Found(flows, state);
      OneShot.LiveAppend(ops, OneShot.Took(who, state, f), state);
      if f.Some? {
        flows := flows - {state};
      }
      ops := ops + [OneShot.Took(who, state, f)];
    }
  }

  /**
   How a redemption ends: a cached answer is replayed; otherwise the request is sent, if it can be built, and the
   answer passed on and, when it is a 200 to a request with a code, remembered.
   */
  ghost predicate Ends(was: Cache, code: Str, outcome: Outcome, reply: Reply, sent: bool, now: Cache) {
    if code != "" && code in was then reply == Passed(was[code]) && !sent && now == was
    else
      match outcome
      case BuildFailed => reply == HttpError(500) && !sent && now == was
      case TransportFailed => reply == HttpError(502) && sent && now == was
      case Answered(r) =>
        reply == Passed(r) && sent && now == if code != "" && r.status == 200 then was[code := r] else was
  }

  class TokenProxy {
    const cfg: Config
    var cache: Cache
    ghost var ops: seq<Op>

    /** The history is one the atomic memoised upstream could have produced, and the cache is its memory. */
    ghost predicate Valid()
      reads this
    {
      Legal(ops) && Remembers(cache, ops)
    }

    constructor (cfg: Config)
      ensures Valid() && this.cfg == cfg && cache == map[] && ops == []
    {
      this.cfg := cfg;
      cache, ops := map[], [];
    }

    /** The part of a redemption that runs under the lock, for a prepared form. */
    method Exchange(ghost who: nat, form: Values, auth: Str, outcome: Outcome)
      returns (reply: Reply, sent: Option<Values>)
      requires Valid()
      modifies this
      ensures Valid()
      ensures var (m, op) := Redeem(old(cache), who, Get(form, CODE), outcome);
        cache == m && ops == old(ops) + [op] && reply == op.reply
      ensures Ends(old(cache), Get(form, CODE), outcome, reply, sent.Some?, cache)
      ensures sent.Some? ==> sent.value == Inject(cfg, form, auth)
    {
      var code := Get(form, CODE);
      RedeemIsLegal(cache, ops, who, code, outcome);
      ops := ops + [Redeem(cache, who, code, outcome).1];
      if code != "" && code in cache {
        return Passed(cache[code]), None;
      }
      var out := InjectSecret(cfg, form, auth);
      sent := if outcome.BuildFailed? then None else Some(out);
      match outcome
      case BuildFailed =>
        reply := HttpError(500);
      case TransportFailed =>
        reply := HttpError(502);
      case Answered(resp) =>
        if code != "" && resp.status == 200 {
          cache := cache[code := resp];
        }
        reply := Passed(resp);
    }

    /**
     One POST /token. `body` is None when it cannot be read; `outcome` is what consulting the upstream
     would give. `sent` is the form that went upstream.
     */
    method Handle(ghost who: nat, body: Option<Str>, auth: Str, outcome: Outcome)
      returns (reply: Reply, sent: Option<Values>)
      requires Valid()
      modifies this
      ensures Valid()
      ensures body.None? ==> reply == HttpError(400) && sent == None && cache == old(cache) && ops == old(ops)
      ensures body.Some? ==>
        var (m, op) := Redeem(old(cache), who, Get(ParseQuery(body.value), CODE), outcome);
        cache == m && ops == old(ops) + [op] && reply == op.reply
      ensures body.Some? ==>
        Ends(old(cache), Get(ParseQuery(body.value), CODE), outcome, reply, sent.Some?, cache)
      ensures sent.Some? ==> sent.value == Rewrite(cfg, ParseQuery(body.value), auth)
      ensures forall code <- cache :: code != "" && cache[code].status == 200
    {
      RememberedStatus(cache, ops);
      if body.None? {
        return HttpError(400), None;
      }
      var form := ParseQuery(body.value);
      ParsedForm(ParsePairs(body.value));
      PreparedForm(cfg, form);
      form := PrepareForm(cfg, form);
      reply, sent := Exchange(who, form, auth, outcome);
    }
  }

  method PrepareForm(cfg: Config, parsed: Values) returns (form: Values)
    ensures form == Prepare(cfg, parsed)
  {
    form := Del(parsed, RESOURCE);
    if Get(form, GRANT_TYPE) == AUTHORIZATION_CODE {
      form := Set(form, REDIRECT_URI, cfg.Callback());
    }
  }

  method InjectSecret(cfg: Config, prepared: Values, auth: Str) returns (form: Values)
    ensures form == Inject(cfg, prepared, auth)
  {
    form := prepared;
    if cfg.clientSecret != "" && Get(form, CLIENT_SECRET) == "" && auth == "" {
      if Get(form, CLIENT_ID) == "" {
        form := Set(form, CLIENT_ID, cfg.clientID);
      }
      form := Set(form, CLIENT_SECRET, cfg.clientSecret);
    }
  }

  /** GET /authorize: remember the client's redirect, send a pinned query on. */
  method Authorize(cfg: Config, store: RedirectStore, ghost who: nat, raw: Str, keys: seq<Str>) returns (query: Str)
    requires store.Valid()
    requires Enumerates(keys, RewriteAuthorize(cfg, ParseQuery(raw)).Keys)
    modifies store
    ensures store.Valid()
    ensures store.ops == old(store.ops) + [OneShot.Saved(who, Relay.StateOf(raw), Get(ParseQuery(raw), REDIRECT_URI))]
    ensures Lookup(ParseQuery(query), REDIRECT_URI) == [cfg.resource + "/callback"]
    ensures RESOURCE !in ParseQuery(query)
    ensures forall k :: k !in {RESOURCE, REDIRECT_URI} ==> Lookup(ParseQuery(query), k) == Lookup(ParseQuery(raw), k)
  {
    var q := ParseQuery(raw);
    ParsedForm(ParsePairs(raw));
    AuthorizeForm(cfg, q);
    var clientRedirect := Get(q, REDIRECT_URI);
    var state := Get(q, STATE);
    store.Save(who, state, clientRedirect);
    q := Set(q, REDIRECT_URI, cfg.Callback());
    q := Del(q, RESOURCE);
    EncodeRoundTrip(q, keys);
    query := Encode(q, keys);
  }

  /** How a request to /callback ends. A redemption posts `body` twice;
      `results` has None for a request that failed. */
  datatype CallbackEnd =
    | AuthError(error: Str)
    | Redeemed(body: Str, results: seq<Option<Reply>>)
    | RelayedTo(url: Str)
    | Rejected

  /** What reaches /token on one attempt: nothing, or a body and what the upstream would answer. */
  datatype Attempt = Lost | Arrives(readable: bool, outcome: Outcome)

  /** What an attempt without a code brings back: it always goes upstream. */
  function Unreplayed(attempt: Attempt): Option<Reply> {
    match attempt
    case Lost => None
    case Arrives(readable, outcome) => Some(if readable then ReplyOf(outcome) else HttpError(400))
  }

  /** There is a result unless the attempt is lost, and without a code it is the attempt's own. */
  predicate Fits(code: Str, attempt: Attempt, result: Option<Reply>) {
    (attempt.Lost? <==> result.None?) && (code == "" ==> result == Unreplayed(attempt))
  }

  /** One loopback POST of an exchange for `code`. */
  method Post(proxy: TokenProxy, ghost who: nat, code: Str, body: Str, attempt: Attempt) returns (result: Option<Reply>)
    requires proxy.Valid() && Get(ParseQuery(body), CODE) == code
    modifies proxy
    ensures proxy.Valid()
    ensures Fits(code, attempt, result)
    ensures forall k <- old(proxy.cache) :: k in proxy.cache && proxy.cache[k] == old(proxy.cache)[k]
    ensures code != "" && Granted(result) ==> code in proxy.cache && proxy.cache[code] == result.value.response
    ensures code in old(proxy.cache) && attempt.Arrives? && attempt.readable ==>
      result == Some(Passed(old(proxy.cache)[code]))
  {
    match attempt
    case Lost =>
      result := None;
    case Arrives(readable, outcome) =>
      var reply, sent := proxy.Handle(who, if readable then Some(body) else None, "", outcome);
      result := Some(reply);
  }

  /** TryCallback: None when the state is not a /testlogin flow. */
  method TryCallback(diag: DiagFlows, proxy: TokenProxy, ghost who: nat, raw: Str, keys: seq<Str>,
                     attempts: seq<Attempt>)
    returns (end: Option<CallbackEnd>)
    requires diag.Valid() && proxy.Valid() && |attempts| == 2
    requires
      var live := OneShot.Live(diag.ops, Relay.StateOf(raw));
      live.Some? ==> Enumerates(keys, ExchangeForm(proxy.cfg, Get(ParseQuery(raw), CODE), live.value).Keys)
    modifies diag, proxy
    ensures diag.Valid() && proxy.Valid()
    ensures
      var live := OneShot.Live(old(diag.ops), Relay.StateOf(raw));
      && diag.ops == old(diag.ops) + [OneShot.Took(who, Relay.StateOf(raw), live)]
      && (end.None? <==> live.None?)
    ensures end.Some? && end.value.Redeemed? ==>
      var r := end.value.results;
      && ParseQuery(end.value.body) ==
           ExchangeForm(proxy.cfg, Get(ParseQuery(raw), CODE), OneShot.Live(old(diag.ops), Relay.StateOf(raw)).value)
      && |r| == 2
      && (forall i :: 0 <= i < 2 ==> Fits(Get(ParseQuery(raw), CODE), attempts[i], r[i]))
      && (Get(ParseQuery(raw), CODE) != "" && Granted(r[0]) && attempts[1].Arrives? && attempts[1].readable
          ==> r[1] == r[0])
    ensures end.None? || end.value.AuthError? ==> proxy.cache == old(proxy.cache)
    ensures end.Some? ==>
      var error := Get(ParseQuery(raw), ERROR);
      if error != "" then end.value == AuthError(error) else end.value.Redeemed?
  {
    var q := ParseQuery(raw);
    var flow := diag.Take(who, Get(q, STATE));
    if flow.None? {
      return None;
    }
    if Get(q, ERROR) != "" {
      return Some(AuthError(Get(q, ERROR)));
    }
    var code := Get(q, CODE);
    var form := ExchangeForm(proxy.cfg, code, flow.value);
    ExchangedForm(proxy.cfg, code, flow.value);
    EncodeRoundTrip(form, keys);
    var body := Encode(form, keys);
    var results := RedeemTwice(proxy, who, code, body, attempts);
    end := Some(Redeemed(body, results));
  }

  /** The two attempts: the second one replays a success of the first. */
  method RedeemTwice(proxy: TokenProxy, ghost who: nat, code: Str, body: Str, attempts: seq<Attempt>)
    returns (results: seq<Option<Reply>>)
    requires proxy.Valid() && |attempts| == 2 && Get(ParseQuery(body), CODE) == code
    modifies proxy
    ensures proxy.Valid() && |results| == 2
    ensures forall i :: 0 <= i < 2 ==> Fits(code, attempts[i], results[i])
    ensures code != "" && Granted(results[0]) && attempts[1].Arrives? && attempts[1].readable ==>
      results[1] == results[0]
  {
    results := [];
    var attempt := 1;
    while attempt <= 2
      invariant 1 <= attempt <= 3 && |results| == attempt - 1
      invariant proxy.Valid()
      invariant forall i :: 0 <= i < |results| ==> Fits(code, attempts[i], results[i])
      invariant attempt == 2 && code != "" && Granted(results[0]) ==>
        code in proxy.cache && proxy.cache[code] == results[0].value.response
      invariant attempt == 3 && code != "" && Granted(results[0]) && attempts[1].Arrives? && attempts[1].readable ==>
        results[1] == results[0]
    {
      var result := Post(proxy, who, code, body, attempts[attempt - 1]);
      results := results + [result];
      attempt := attempt + 1;
    }
  }

  /** The client's redirect with the callback's query attached. */
  ghost predicate Attached(url: Str, redirect: Str, raw: Str) {
    var sep: Byte := if '?' in redirect then '&' else '?';
    url == redirect + [sep] + raw
  }

  /** A callback that no flow claims: relayed to the stored redirect, if there is one. */
  method RelayBack(store: RedirectStore, ghost who: nat, raw: Str) returns (end: CallbackEnd)
    requires store.Valid()
    modifies store
    ensures store.Valid()
    ensures
      var live := OneShot.Live(old(store.ops), Relay.StateOf(raw));
      && store.ops == old(store.ops) + [OneShot.Took(who, Relay.StateOf(raw), live)]
      && (if live.Some? then end.RelayedTo? && Attached(end.url, live.value, raw) else end == Rejected)
  {
    var state := Get(ParseQuery(raw), STATE);
    var clientRedirect := store.Take(who, state);
    if clientRedirect.None? {
      return Rejected;
    }
    var sep := "?";
    if '?' in clientRedirect.value {
      sep := "&";
    }
    end := RelayedTo(clientRedirect.value + sep + raw);
  }

  /** GET /callback. `diag` is null in production. */
  method Callback(store: RedirectStore, diag: DiagFlows?, proxy: TokenProxy, ghost who: nat, raw: Str,
                  keys: seq<Str>, attempts: seq<Attempt>)
    returns (end: CallbackEnd)
    requires store.Valid() && proxy.Valid() && |attempts| == 2
    requires diag != null ==> diag.Valid()
    requires diag != null ==>
      var live := OneShot.Live(diag.ops, Relay.StateOf(raw));
      live.Some? ==> Enumerates(keys, ExchangeForm(proxy.cfg, Get(ParseQuery(raw), CODE), live.value).Keys)
    modifies store, diag, proxy
    ensures store.Valid() && proxy.Valid() && (diag != null ==> diag.Valid())
    ensures end.AuthError? || end.Redeemed? <==> diag != null && OneShot.Live(old(diag.ops), Relay.StateOf(raw)).Some?
    ensures end.AuthError? || end.Redeemed? ==> store.ops == old(store.ops)
    ensures diag != null ==>
      diag.ops == old(diag.ops) +
        [OneShot.Took(who, Relay.StateOf(raw), OneShot.Live(old(diag.ops), Relay.StateOf(raw)))]
    ensures end.RelayedTo? || end.Rejected? ==>
      var live := OneShot.Live(old(store.ops), Relay.StateOf(raw));
      && proxy.cache == old(proxy.cache)
      && store.ops == old(store.ops) + [OneShot.Took(who, Relay.StateOf(raw), live)]
      && (if live.Some? then end.RelayedTo? && Attached(end.url, live.value, raw) else end == Rejected)
  {
    if diag != null {
      var claimed := TryCallback(diag, proxy, who, raw, keys, attempts);
      if claimed.Some? {
        return claimed.value;
      }
    }
    end := RelayBack(store, who, raw);
  }

  /** GET /testlogin: start a flow. `viaProxy` says whether the browser goes through /authorize. */
  method Login(cfg: Config, diag: DiagFlows, ghost who: nat, raw: Str, state: Str, verifier: Str, challenge: Str,
               keys: seq<Str>)
    returns (viaProxy: bool, query: Str)
    requires diag.Valid()
    requires Enumerates(keys, LoginQuery(cfg, state, challenge).Keys)
    modifies diag
    ensures diag.Valid()
    ensures diag.ops == old(diag.ops) + [OneShot.Saved(who, state, Flow(verifier, Get(ParseQuery(raw), SECRET) != "0"))]
    ensures viaProxy <==> Get(ParseQuery(raw), VIAPROXY) != "0"
    ensures AsksForCode(ParseQuery(query), cfg, state, challenge)
    ensures RESOURCE !in ParseQuery(query)
    ensures Relay.StateOf(query) == state
  {
    var q := ParseQuery(raw);
    var useSecret := Get(q, SECRET) != "0";
    viaProxy := Get(q, VIAPROXY) != "0";
    diag.Save(who, state, Flow(verifier, useSecret));
    LoginParameters(cfg, state, challenge);
    EncodeRoundTrip(LoginQuery(cfg, state, challenge), keys);
    query := Encode(LoginQuery(cfg, state, challenge), keys);
  }
}
