/**
 The token proxy as its clients may think of it: an upstream that is consulted atomically and
 remembers, for each authorization code, the first success it gave.
 */
module Memo {
  import opened Basics

  /** The part of an upstream response the proxy passes on, with the body bytes it managed to read. */
  datatype Response = Response(status: int, contentType: Str, body: Str)

  /** How an attempt to consult the upstream can end. */
  datatype Outcome = BuildFailed | TransportFailed | Answered(response: Response)

  datatype Reply = Passed(response: Response) | HttpError(status: int)

  function ReplyOf(o: Outcome): Reply {
    match o
    case BuildFailed => HttpError(500)
    case TransportFailed => HttpError(502)
    case Answered(r) => Passed(r)
  }

  predicate Success(r: Response) {
    r.status == 200
  }

  /** One redemption. `outcome` is None when the upstream was not consulted. */
  datatype Op = Op(who: nat, code: Str, outcome: Option<Outcome>, reply: Reply)

  type Cache = map<Str, Response>

  predicate Hit(m: Cache, code: Str) {
    code != "" && code in m
  }

  predicate Succeeds(code: Str, o: Outcome) {
    code != "" && o.Answered? && Success(o.response)
  }

  function Remember(m: Cache, code: Str, o: Outcome): Cache {
    if Succeeds(code, o) then m[code := o.response] else m
  }

  /** One atomic redemption: replay what is remembered, or consult the upstream and remember success. */
  function Redeem(m: Cache, who: nat, code: Str, o: Outcome): (Cache, Op) {
    if Hit(m, code) then (m, Op(who, code, None, Passed(m[code])))
    else (Remember(m, code, o), Op(who, code, Some(o), ReplyOf(o)))
  }

  predicate Fresh(op: Op) {
    op.outcome.Some? && Succeeds(op.code, op.outcome.value)
  }

  /** A client that got this result, if any, got a success. */
  predicate Granted(result: Option<Reply>) {
    result.Some? && result.value.Passed? && Success(result.value.response)
  }

  predicate SawSuccess(op: Op) {
    Granted(Some(op.reply))
  }

  /** The first fresh success for `code` among `ops`, told by the history alone. */
  function FirstSuccess(ops: seq<Op>, code: Str): Option<Response> {
    if ops == [] then None
    else
      var earlier := FirstSuccess(ops[..|ops| - 1], code);
      var op := ops[|ops| - 1];
      if earlier.Some? then earlier
      else if op.code == code && Fresh(op) then Some(op.outcome.value.response)
      else None
  }

  /** What the atomic memoised upstream may do next after `before`. */
  ghost predicate LegalNext(before: seq<Op>, op: Op) {
    var known := FirstSuccess(before, op.code);
    if op.code != "" && known.Some?
    then op.outcome == None && op.reply == Passed(known.value)
    else op.outcome.Some? && op.reply == ReplyOf(op.outcome.value)
  }

  /** A history the atomic memoised upstream can produce. */
  ghost predicate Legal(ops: seq<Op>) {
    forall i :: 0 <= i < |ops| ==> LegalNext(ops[..i], ops[i])
  }

  /** The remembered responses are the first successes of the history, and no others. */
  ghost predicate Remembers(m: Cache, ops: seq<Op>) {
    && "" !in m
    && (forall code :: code != "" ==> (if code in m then Some(m[code]) else None) == FirstSuccess(ops, code))
  }

  lemma FirstSuccessAppend(ops: seq<Op>, op: Op, code: Str)
    ensures FirstSuccess(ops + [op], code) ==
            if FirstSuccess(ops, code).Some? then FirstSuccess(ops, code)
            else if op.code == code && Fresh(op) then Some(op.outcome.value.response)
            else None
  {
    assert (ops + [op])[..|ops|] == ops;
  }

  /** A redemption of `code` that the upstream answered with a 200. */
  predicate Gave200(op: Op, code: Str) {
    && op.code == code && op.outcome.Some? && op.outcome.value.Answered?
    && op.outcome.value.response.status == 200
  }

  /** The first success is the response of the earliest redemption of the code that got a 200, if there is one. */
  lemma {:induction false} FirstSuccessIs(ops: seq<Op>, code: Str) returns (i: nat)
    ensures FirstSuccess(ops, code).None? ==> code == "" || forall j :: 0 <= j < |ops| ==> !Gave200(ops[j], code)
    ensures FirstSuccess(ops, code).Some? ==>
      && code != "" && i < |ops| && Gave200(ops[i], code)
      && FirstSuccess(ops, code).value == ops[i].outcome.value.response
      && forall j :: 0 <= j < i ==> !Gave200(ops[j], code)
  {
    i := 0;
    if ops != [] {
      var n := |ops| - 1;
      i := FirstSuccessIs(ops[..n], code);
      if FirstSuccess(ops[..n], code).None? {
        assert forall j :: 0 <= j < n ==> ops[..n][j] == ops[j];
        i := n;
      }
    }
  }

  /** Nothing but answers with a 200 is remembered, and none without a code. */
  lemma RememberedStatus(m: Cache, ops: seq<Op>)
    requires Remembers(m, ops)
    ensures forall code <- m :: code != "" && m[code].status == 200
  {
    forall code | code in m
      ensures code != "" && m[code].status == 200
    {
      assert FirstSuccess(ops, code) == Some(m[code]);
      var i := FirstSuccessIs(ops, code);
    }
  }

  lemma LegalAppend(ops: seq<Op>, op: Op)
    requires Legal(ops) && LegalNext(ops, op)
    ensures Legal(ops + [op])
  {
    forall i | 0 <= i < |ops + [op]|
      ensures LegalNext((ops + [op])[..i], (ops + [op])[i])
    {
      assert (ops + [op])[..i] == if i < |ops| then ops[..i] else ops;
    }
  }

  /** The cache-based step is a step of the history-based upstream. */
  lemma RedeemIsLegal(m: Cache, ops: seq<Op>, who: nat, code: Str, o: Outcome)
    requires Legal(ops) && Remembers(m, ops)
    ensures Legal(ops + [Redeem(m, who, code, o).1])
    ensures Remembers(Redeem(m, who, code, o).0, ops + [Redeem(m, who, code, o).1])
  {
    var op := Redeem(m, who, code, o).1;
    LegalAppend(ops, op);
    forall k: Str {
      FirstSuccessAppend(ops, op, k);
    }
  }

  /** A redemption as requested: who, which code, and what consulting the upstream would give. */
  datatype Asked = Asked(who: nat, code: Str, outcome: Outcome)

  /** The cache and the history after redemptions one after the other, starting with nothing. */
  function Produced(asked: seq<Asked>): (Cache, seq<Op>) {
    if asked == [] then (map[], [])
    else
      var (m, ops) := Produced(asked[..|asked| - 1]);
      var a := asked[|asked| - 1];
      var (m', op) := Redeem(m, a.who, a.code, a.outcome);
      (m', ops + [op])
  }

  lemma {:induction false} ProducedIsLegal(asked: seq<Asked>)
    ensures Legal(Produced(asked).1) && Remembers(Produced(asked).0, Produced(asked).1)
  {
    if asked != [] {
      var init, a := asked[..|asked| - 1], asked[|asked| - 1];
      ProducedIsLegal(init);
      RedeemIsLegal(Produced(init).0, Produced(init).1, a.who, a.code, a.outcome);
    }
  }

  lemma LegalPrefix(ops: seq<Op>, n: nat)
    requires Legal(ops) && n <= |ops|
    ensures Legal(ops[..n])
  {
    forall i | 0 <= i < n
      ensures LegalNext(ops[..n][..i], ops[..n][i])
    {
      assert ops[..n][..i] == ops[..i];
    }
  }

  /** What to ask for so that a legal operation comes about. */
  function AskFor(op: Op): Asked {
    Asked(op.who, op.code, if op.outcome.Some? then op.outcome.value else BuildFailed)
  }

  lemma NextIsProduced(m: Cache, before: seq<Op>, op: Op)
    requires Remembers(m, before) && LegalNext(before, op)
    ensures Redeem(m, op.who, op.code, AskFor(op).outcome).1 == op
  {
  }

  lemma ProducedAppend(asked: seq<Asked>, a: Asked)
    ensures Produced(asked + [a]).1 == Produced(asked).1 + [Redeem(Produced(asked).0, a.who, a.code, a.outcome).1]
  {
    assert (asked + [a])[..|asked|] == asked;
  }

  /** The specification allows nothing that the cache does not do: every legal history is produced. */
  lemma {:induction false} LegalIsProduced(ops: seq<Op>) returns (asked: seq<Asked>)
    requires Legal(ops)
    ensures Produced(asked).1 == ops
    decreases |ops|
  {
    if ops == [] {
      asked := [];
    } else {
      var n := |ops| - 1;
      assert LegalNext(ops[..n], ops[n]);
      LegalPrefix(ops, n);
      var before := LegalIsProduced(ops[..n]);
      ProducedIsLegal(before);
      NextIsProduced(Produced(before).0, ops[..n], ops[n]);
      asked := before + [AskFor(ops[n])];
      ProducedAppend(before, AskFor(ops[n]));
      assert ops == ops[..n] + [ops[n]];
    }
  }

  lemma FirstSuccessPersists(ops: seq<Op>, i: nat, code: Str)
    requires i <= |ops| && FirstSuccess(ops[..i], code).Some?
    ensures FirstSuccess(ops, code) == FirstSuccess(ops[..i], code)
    decreases |ops| - i
  {
    if i < |ops| {
      assert ops[..i + 1] == ops[..i] + [ops[i]];
      FirstSuccessAppend(ops[..i], ops[i], code);
      FirstSuccessPersists(ops, i + 1, code);
    } else {
      assert ops[..i] == ops;
    }
  }

  /** Seeing a success for a code means the history now has that very response as its first success. */
  lemma SeenIsFirst(ops: seq<Op>, i: nat)
    requires Legal(ops)
    requires i < |ops| && ops[i].code != "" && SawSuccess(ops[i])
    ensures FirstSuccess(ops[..i + 1], ops[i].code) == Some(ops[i].reply.response)
  {
    assert ops[..i + 1] == ops[..i] + [ops[i]];
    FirstSuccessAppend(ops[..i], ops[i], ops[i].code);
    assert LegalNext(ops[..i], ops[i]);
  }

  /** After a client saw a success, every later redemption of the code is a replay of it. */
  lemma ReplayedAfterSuccess(ops: seq<Op>, i: nat, j: nat)
    requires Legal(ops)
    requires i < j < |ops| && ops[i].code == ops[j].code != "" && SawSuccess(ops[i])
    ensures ops[j].outcome == None && ops[j].reply == ops[i].reply
  {
    SeenIsFirst(ops, i);
    assert ops[..j][..i + 1] == ops[..i + 1];
    FirstSuccessPersists(ops[..j], i + 1, ops[i].code);
    assert LegalNext(ops[..j], ops[j]);
  }

  /** All successes ever seen for one code are the same response. */
  lemma SuccessesIdentical(ops: seq<Op>, i: nat, j: nat)
    requires Legal(ops)
    requires i < |ops| && j < |ops| && ops[i].code == ops[j].code != ""
    requires SawSuccess(ops[i]) && SawSuccess(ops[j])
    ensures ops[i].reply == ops[j].reply
  {
    if i < j {
      ReplayedAfterSuccess(ops, i, j);
    } else if j < i {
      ReplayedAfterSuccess(ops, j, i);
    }
  }

  /** The upstream grants each code at most once through the proxy. */
  lemma OneFreshSuccess(ops: seq<Op>, i: nat, j: nat)
    requires Legal(ops)
    requires i < |ops| && j < |ops| && ops[i].code == ops[j].code
    requires Fresh(ops[i]) && Fresh(ops[j])
    ensures i == j
  {
    if i != j {
      assert LegalNext(ops[..i], ops[i]) && LegalNext(ops[..j], ops[j]);
      ReplayedAfterSuccess(ops, if i < j then i else j, if i < j then j else i);
    }
  }

  // ----- the code for which the promise fails -----

  /** Whoever redeems `code` after a success gets that success again, in every legal history. */
  ghost predicate ReplayGuaranteed(code: Str) {
    forall ops: seq<Op>, i, j :: Legal(ops) &&
                        0 <= i < j < |ops| && ops[i].code == ops[j].code == code && SawSuccess(ops[i])
                        ==> ops[j].reply == ops[i].reply
  }

  /** The replay promise holds for a code exactly when the request carries one. */
  lemma ReplayGuaranteedIffCode(code: Str)
    ensures ReplayGuaranteed(code) <==> code != ""
  {
    if code != "" {
      forall ops: seq<Op>, i, j | Legal(ops) &&
                          0 <= i < j < |ops| && ops[i].code == ops[j].code == code && SawSuccess(ops[i])
        ensures ops[j].reply == ops[i].reply
      {
        ReplayedAfterSuccess(ops, i, j);
      }
    } else {
      EmptyCodeNotReplayed();
    }
  }

  /** Without a code, a success followed by a refusal is a legal history. */
  lemma EmptyCodeNotReplayed()
    ensures !ReplayGuaranteed("")
  {
    var granted := Answered(Response(200, "application/json", "{}"));
    var refused := Answered(Response(400, "application/json", "{}"));
    var first := Op(0, "", Some(granted), ReplyOf(granted));
    var second := Op(1, "", Some(refused), ReplyOf(refused));
    var ops := [first, second];
    assert LegalNext(ops[..0], ops[0]) && LegalNext(ops[..1], ops[1]);
    assert Legal(ops) && SawSuccess(ops[0]) && ops[1].reply != ops[0].reply;
  }
}
