/** The URL to which /callback relays, and the hops a browser makes when that URL is /callback again. */
module Relay {
  import opened Basics
  import opened Url
  import opened Params
  import OneShot

  function RelayUrl(redirect: Str, raw: Str): Str {
    redirect + (if '?' in redirect then "&" else "?") + raw
  }

  /** It is the redirect and then the query, both untouched, with one byte between them. */
  lemma RelayedBytes(redirect: Str, raw: Str)
    ensures redirect <= RelayUrl(redirect, raw) && RelayUrl(redirect, raw)[|redirect|..][1..] == raw
    ensures RelayUrl(redirect, raw)[|redirect|..][..1] == if '?' in redirect then "&" else "?"
  {
    var tail := RelayUrl(redirect, raw)[|redirect|..];
    assert tail == (if '?' in redirect then "&" else "?") + raw;
  }

  /** The redirect already has a query. */
  lemma RelayContinues(redirect: Str, raw: Str)
    requires '#' !in redirect && '?' in redirect
    ensures UrlPath(RelayUrl(redirect, raw)) == UrlPath(redirect)
    ensures UrlQuery(RelayUrl(redirect, raw)) == UrlQuery(redirect) + "&" + Before(raw, '#')
  {
    CutWithout(redirect, '#');
    CutTail(redirect + "&", '#', raw);
    CutAppended(redirect, '?', "&" + Before(raw, '#'));
    Regroup(redirect, "&", Before(raw, '#'));
    Regroup(After(redirect, '?'), "&", Before(raw, '#'));
  }

  /** The callback's query becomes the redirect's. */
  lemma RelayStarts(redirect: Str, raw: Str)
    requires '#' !in redirect && '?' !in redirect
    ensures UrlPath(RelayUrl(redirect, raw)) == UrlPath(redirect)
    ensures UrlQuery(RelayUrl(redirect, raw)) == Before(raw, '#')
    ensures UrlQuery(redirect) == []
  {
    CutWithout(redirect, '#');
    CutWithout(redirect, '?');
    CutTail(redirect + "?", '#', raw);
    CutFirst(redirect, '?', Before(raw, '#'));
  }

  lemma RelayWithFragment(redirect: Str, raw: Str)
    requires '#' in redirect
    ensures UrlPath(RelayUrl(redirect, raw)) == UrlPath(redirect)
    ensures UrlQuery(RelayUrl(redirect, raw)) == UrlQuery(redirect)
  {
    var sep := if '?' in redirect then "&" else "?";
    CutAppended(redirect, '#', sep + raw);
    Regroup(redirect, sep, raw);
  }

  lemma NoParameters()
    ensures ParsePairs([]) == []
  {
    assert Split([], '&') == [[]];
  }

  /**
   What the relayed URL says, for every redirect and every callback query: it goes where the client asked,
   and its parameters are the client's own, followed by the callback's up to a '#', unless a '#' in the
   redirect cuts those off.
   */
  lemma RelayedParameters(redirect: Str, raw: Str)
    ensures UrlPath(RelayUrl(redirect, raw)) == UrlPath(redirect)
    ensures ParsePairs(UrlQuery(RelayUrl(redirect, raw))) ==
            ParsePairs(UrlQuery(redirect)) + if '#' in redirect then [] else ParsePairs(Before(raw, '#'))
  {
    if '#' in redirect {
      RelayWithFragment(redirect, raw);
    } else if '?' in redirect {
      RelayContinues(redirect, raw);
      ParseJoined(UrlQuery(redirect), Before(raw, '#'));
    } else {
      RelayStarts(redirect, raw);
      NoParameters();
    }
  }

  /**
   Both queries arrive, the client's own parameters followed by all of the callback's, exactly when no '#'
   cuts any of the callback's off: not one in the redirect, and not one in the callback's query.
   */
  lemma RelayKeepsBothQueries(redirect: Str, raw: Str)
    ensures
      var arrived := ParsePairs(UrlQuery(RelayUrl(redirect, raw)));
      arrived == ParsePairs(UrlQuery(redirect)) + ParsePairs(raw) <==>
      (if '#' in redirect then ParsePairs(raw) == [] else ParsePairs(Before(raw, '#')) == ParsePairs(raw))
  {
    RelayedParameters(redirect, raw);
    SameTail(ParsePairs(UrlQuery(redirect)), if '#' in redirect then [] else ParsePairs(Before(raw, '#')),
             ParsePairs(raw));
  }

  lemma SameTail<T>(head: seq<T>, a: seq<T>, b: seq<T>)
    ensures head + a == head + b <==> a == b
  {
    if head + a == head + b {
      assert a == (head + a)[|head|..] && b == (head + b)[|head|..];
    }
  }

  // ----- chains of hops -----

  function StateOf(raw: Str): Str {
    Get(ParseQuery(raw), STATE)
  }

  /** How a chain of redirects starting at /callback ends. */
  datatype Chain =
    | Claimed(hops: nat)
    | Left(hops: nat, url: Str)
    | Refused(hops: nat)

  /**
   Follow a browser from /callback with query `raw`, while nobody else uses the tables. Each hop takes
   one entry: a /testlogin flow ends the chain, a redirect leads on when it is /callback itself.
   */
  function Follow<F>(callback: Str, redirects: map<Str, Str>, flows: map<Str, F>, raw: Str): (c: Chain)
    ensures c.hops <= |redirects| + |flows|
    ensures c.Claimed? ==> 1 <= c.hops
    ensures c.Left? ==> 1 <= c.hops && UrlPath(c.url) != callback
    decreases |redirects|
  {
    var state := StateOf(raw);
    if state in flows then
      assert |flows| > 0 by { assert flows.Keys != {}; }
      Claimed(1)
    else if state !in redirects then Refused(0)
    else
      var url := RelayUrl(redirects[state], raw);
      var rest := OneShot.Take(redirects, state);
      assert |rest| == |redirects| - 1 by { assert rest.Keys == redirects.Keys - {state}; }
      if UrlPath(url) != callback then Left(1, url)
      else
        var c := Follow(callback, rest, flows, UrlQuery(url));
        c.(hops := c.hops + 1)
  }

  /** A chain ends at once when there is a flow for its state, or nothing at all. */
  lemma EndsHere<F>(callback: Str, redirects: map<Str, Str>, flows: map<Str, F>, raw: Str)
    ensures StateOf(raw) in flows ==> Follow(callback, redirects, flows, raw) == Claimed(1)
    ensures StateOf(raw) !in flows && StateOf(raw) !in redirects ==>
      Follow(callback, redirects, flows, raw) == Refused(0)
  {
  }

  /** Otherwise it takes the redirect: away from here, or on with one hop more and one entry less. */
  lemma GoesOn<F>(callback: Str, redirects: map<Str, Str>, flows: map<Str, F>, raw: Str, redirect: Str, onward: Chain)
    requires StateOf(raw) !in flows && StateOf(raw) in redirects && redirects[StateOf(raw)] == redirect
    requires onward ==
             Follow(callback, redirects - {StateOf(raw)}, flows, UrlQuery(RelayUrl(redirect, raw)))
    ensures Follow(callback, redirects, flows, raw) ==
            if UrlPath(redirect) != callback then Left(1, RelayUrl(redirect, raw))
            else onward.(hops := onward.hops + 1)
  {
    RelayedParameters(redirect, raw);
  }

  /** The redirects a chain follows, in order. */
  function Trail<F>(callback: Str, redirects: map<Str, Str>, flows: map<Str, F>, raw: Str): seq<Str>
    decreases |redirects|
  {
    var state := StateOf(raw);
    if state in flows || state !in redirects then []
    else
      var url := RelayUrl(redirects[state], raw);
      var rest := OneShot.Take(redirects, state);
      assert |rest| == |redirects| - 1 by { assert rest.Keys == redirects.Keys - {state}; }
      [redirects[state]] + if UrlPath(url) != callback then [] else Trail(callback, rest, flows, UrlQuery(url))
  }

  /** Each redirect puts its own parameters in front of those it is given, or loses them behind its '#'. */
  function Gathered(trail: seq<Str>, pairs: seq<Pair>): seq<Pair> {
    if trail == [] then pairs
    else Gathered(trail[1..], ParsePairs(UrlQuery(trail[0])) + if '#' in trail[0] then [] else pairs)
  }

  lemma {:induction false} QueryWithoutFragment(u: Str, d: Byte)
    ensures '#' !in Before(u, '#')
    ensures '#' !in u ==> '#' !in After(u, d)
  {
    if u != [] {
      QueryWithoutFragment(u[1..], d);
    }
  }

  lemma NoFragmentInQuery(u: Str)
    ensures Before(UrlQuery(u), '#') == UrlQuery(u)
  {
    QueryWithoutFragment(u, '?');
    QueryWithoutFragment(Before(u, '#'), '?');
    CutWithout(UrlQuery(u), '#');
  }

  /** What a chain of any length delivers, for all redirects and all callback queries. */
  lemma {:induction false} ChainParameters<F>(
    callback: Str, redirects: map<Str, Str>, flows: map<Str, F>, raw: Str, end: Chain)
    requires end == Follow(callback, redirects, flows, raw) && end.Left?
    ensures ParsePairs(UrlQuery(end.url)) ==
            Gathered(Trail(callback, redirects, flows, raw), ParsePairs(Before(raw, '#')))
    decreases |redirects|
  {
    var redirect := redirects[StateOf(raw)];
    var url := RelayUrl(redirect, raw);
    var rest := OneShot.Take(redirects, StateOf(raw));
    assert |rest| == |redirects| - 1 by { assert rest.Keys == redirects.Keys - {StateOf(raw)}; }
    RelayedParameters(redirect, raw);
    if UrlPath(url) == callback {
      var onward := Follow(callback, rest, flows, UrlQuery(url));
      var trail := Trail(callback, rest, flows, UrlQuery(url));
      ChainParameters(callback, rest, flows, UrlQuery(url), onward);
      NoFragmentInQuery(url);
      assert ([redirect] + trail)[1..] == trail;
    }
  }

  /** Without a '#' on the way all that went in comes out last. */
  lemma {:induction false} GatheredKeeps(trail: seq<Str>, pairs: seq<Pair>) returns (own: seq<Pair>)
    requires forall r :: r in trail ==> '#' !in r
    ensures Gathered(trail, pairs) == own + pairs
  {
    if trail == [] {
      own := [];
    } else {
      var first := ParsePairs(UrlQuery(trail[0]));
      var more := GatheredKeeps(trail[1..], first + pairs);
      own := more + first;
      Regroup(more, first, pairs);
    }
  }

  /** With one, what comes out does not depend on what went in. */
  lemma {:induction false} GatheredLoses(trail: seq<Str>, pairs: seq<Pair>, others: seq<Pair>, r: Str)
    requires r in trail && '#' in r
    ensures Gathered(trail, pairs) == Gathered(trail, others)
  {
    if '#' !in trail[0] {
      var first := ParsePairs(UrlQuery(trail[0]));
      GatheredLoses(trail[1..], first + pairs, first + others, r);
    }
  }

  /**
   However many hops a chain takes, the client it reaches gets every parameter of the callback, if no
   redirect has a '#'.
   */
  lemma ChainKeepsParameters<F>(
    callback: Str, redirects: map<Str, Str>, flows: map<Str, F>, raw: Str, end: Chain)
    returns (own: seq<Pair>)
    requires end == Follow(callback, redirects, flows, raw) && end.Left?
    requires forall r :: r in Trail(callback, redirects, flows, raw) ==> '#' !in r
    ensures ParsePairs(UrlQuery(end.url)) == own + ParsePairs(Before(raw, '#'))
  {
    ChainParameters(callback, redirects, flows, raw, end);
    own := GatheredKeeps(Trail(callback, redirects, flows, raw), ParsePairs(Before(raw, '#')));
  }

  /**
   A /testlogin flow sent through /authorize leaves a redirect to /callback itself. The flow claims the first
   callback. A second callback takes the left-over redirect and comes round once more, with its query up to a
   '#'; if that leaves its state as it was, it is refused then.
   */
  lemma TestLoginChain<F>(callback: Str, redirects: map<Str, Str>, flows: map<Str, F>, raw: Str)
    requires '#' !in callback && '?' !in callback
    requires StateOf(raw) in flows
    requires StateOf(raw) in redirects && redirects[StateOf(raw)] == callback
    ensures Follow(callback, redirects, flows, raw) == Claimed(1)
    ensures
      var second := Follow(callback, redirects, OneShot.Take(flows, StateOf(raw)), raw);
      var redirects' := OneShot.Take(redirects, StateOf(raw));
      var round := Follow(callback, redirects', OneShot.Take(flows, StateOf(raw)), Before(raw, '#'));
      && second == round.(hops := round.hops + 1)
      && (StateOf(Before(raw, '#')) == StateOf(raw) ==> second == Refused(1))
  {
    RelayStarts(callback, raw);
    CutWithout(callback, '#');
    CutWithout(callback, '?');
  }
}
