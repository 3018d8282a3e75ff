/**
 The parts of Go's net/url on which the OAuth handlers and the room route rely: a form as a map
 from keys to value sequences, percent-encoding, query parsing and printing, and cutting a URL at
 its query and fragment.
 */
module Url {
  import opened Basics

  // ----- forms -----

  type Values = map<Str, seq<Str>>

  function Lookup(v: Values, k: Str): seq<Str> {
    if k in v then v[k] else []
  }

  /** The first value, or "" when there is none. */
  function Get(v: Values, k: Str): Str {
    if Lookup(v, k) != [] then Lookup(v, k)[0] else ""
  }

  function Set(v: Values, k: Str, x: Str): Values {
    v[k := [x]]
  }

  function Del(v: Values, k: Str): Values {
    v - {k}
  }

  /** A parsed form never maps a key to the empty sequence. */
  predicate Full(v: Values) {
    forall k <- v :: v[k] != []
  }

  lemma SameLookups(a: Values, b: Values)
    requires Full(a) && Full(b)
    requires forall k :: Lookup(a, k) == Lookup(b, k)
    ensures a == b
  {
    forall k: Str
      ensures k in a <==> k in b
    {
      assert Lookup(a, k) == Lookup(b, k);
    }
    forall k | k in a
      ensures a[k] == b[k]
    {
      assert Lookup(a, k) == Lookup(b, k);
    }
  }

  // ----- percent-encoding -----

  /** Query components and path segments leave different bytes unescaped. */
  datatype Mode = Query | Segment

  predicate Unreserved(c: Byte) {
    'a' <= c <= 'z' || 'A' <= c <= 'Z' || '0' <= c <= '9' || c in "-_.~"
  }

  predicate Verbatim(mode: Mode, c: Byte) {
    Unreserved(c) || (mode.Segment? && c in "$&+:=@")
  }

  function HexDigit(n: nat): Byte
    requires n < 16
  {
    if n < 10 then ('0' as int + n) as char else ('A' as int + n - 10) as char
  }

  function HexValue(c: Byte): Option<nat> {
    if '0' <= c <= '9' then Some(c as int - '0' as int)
    else if 'A' <= c <= 'F' then Some(c as int - 'A' as int + 10)
    else if 'a' <= c <= 'f' then Some(c as int - 'a' as int + 10)
    else None
  }

  function EscapeByte(mode: Mode, c: Byte): Str {
    if Verbatim(mode, c) then [c]
    else if mode.Query? && c == ' ' then "+"
    else ['%', HexDigit(c as int / 16), HexDigit(c as int % 16)]
  }

  function Escape(mode: Mode, s: Str): Str {
    if s == [] then [] else EscapeByte(mode, s[0]) + Escape(mode, s[1..])
  }

  /** None where Go reports an escape error. */
  function Unescape(mode: Mode, s: Str): Option<Str> {
    if s == [] then Some([])
    else if s[0] == '%' then
      if |s| < 3 || HexValue(s[1]).None? || HexValue(s[2]).None? then None
      else
        var rest := Unescape(mode, s[3..]);
        var c: Byte := (16 * HexValue(s[1]).value + HexValue(s[2]).value) as char;
        if rest.None? then None else Some([c] + rest.value)
    else
      var rest := Unescape(mode, s[1..]);
      var c: Byte := if mode.Query? && s[0] == '+' then ' ' else s[0];
      if rest.None? then None else Some([c] + rest.value)
  }

  /** How one byte is written. */
  lemma EscapedByte(mode: Mode, c: Byte)
    ensures Escape(mode, [c]) ==
            if 'A' <= c <= 'Z' || 'a' <= c <= 'z' || '0' <= c <= '9' || c == '-' || c == '_' || c == '.' || c == '~'
            then [c]
            else if mode == Segment && (c == '$' || c == '&' || c == '+' || c == ':' || c == '=' || c == '@') then [c]
            else if mode == Query && c == ' ' then ['+']
            else ['%', "0123456789ABCDEF"[c as int / 16], "0123456789ABCDEF"[c as int % 16]]
  {
    assert [c][1..] == [];
  }

  /** Hexadecimal digits are read in either case, and no other byte is one. */
  lemma HexDigits(n: nat, c: Byte)
    requires n < 16
    ensures HexValue("0123456789abcdef"[n]) == HexValue("0123456789ABCDEF"[n]) == Some(n)
    ensures HexValue(c).Some? <==> '0' <= c <= '9' || 'a' <= c <= 'f' || 'A' <= c <= 'F'
  {
  }

  lemma UnescapeEscapedByte(mode: Mode, c: Byte, t: Str)
    requires Unescape(mode, t).Some?
    ensures Unescape(mode, EscapeByte(mode, c) + t) == Some([c] + Unescape(mode, t).value)
  {
    var e := EscapeByte(mode, c);
    if |e| == 1 {
      assert (e + t)[0] == e[0] && (e + t)[1..] == t;
    } else {
      assert (e + t)[0] == '%' && (e + t)[1] == e[1] && (e + t)[2] == e[2] && (e + t)[3..] == t;
    }
  }

  /** Unescaping undoes escaping, for every string and in both modes. */
  lemma {:induction false} EscapeRoundTrip(mode: Mode, s: Str)
    ensures Unescape(mode, Escape(mode, s)) == Some(s)
  {
    if s != [] {
      EscapeRoundTrip(mode, s[1..]);
      UnescapeEscapedByte(mode, s[0], Escape(mode, s[1..]));
      assert [s[0]] + s[1..] == s;
    }
  }

  /** Escaped text holds no byte that its mode escapes, other than '%' and the query mode's '+'. */
  lemma {:induction false} EscapedBytes(mode: Mode, s: Str, d: Byte)
    requires !Verbatim(mode, d) && d != '%' && d != '+'
    ensures d !in Escape(mode, s)
  {
    if s != [] {
      EscapedBytes(mode, s[1..], d);
    }
  }

  /** Text without bytes to escape is left as it is. */
  lemma {:induction false} VerbatimStays(mode: Mode, s: Str)
    requires forall c :: c in s ==> Verbatim(mode, c)
    ensures Escape(mode, s) == s
  {
    if s != [] {
      VerbatimStays(mode, s[1..]);
      assert s == [s[0]] + s[1..];
    }
  }

  // ----- splitting and joining -----

  function Split(s: Str, d: Byte): (parts: seq<Str>)
    ensures parts != []
  {
    if s == [] then [[]]
    else
      var rest := Split(s[1..], d);
      if s[0] == d then [[]] + rest else [[s[0]] + rest[0]] + rest[1..]
  }

  function Join(parts: seq<Str>, d: Byte): Str {
    if parts == [] then []
    else if |parts| == 1 then parts[0]
    else parts[0] + [d] + Join(parts[1..], d)
  }

  lemma {:induction false} SplitWithout(s: Str, d: Byte)
    requires d !in s
    ensures Split(s, d) == [s]
  {
    if s != [] {
      SplitWithout(s[1..], d);
      assert [s[0]] + s[1..] == s;
    }
  }

  /** A separator between two texts separates their parts, whatever the texts contain. */
  lemma {:induction false} SplitAtSeparator(a: Str, d: Byte, b: Str)
    ensures Split(a + [d] + b, d) == Split(a, d) + Split(b, d)
  {
    var s := a + [d] + b;
    if a == [] {
      assert s[0] == d && s[1..] == b;
    } else {
      assert s[0] == a[0] && s[1..] == a[1..] + [d] + b;
      SplitAtSeparator(a[1..], d, b);
    }
  }

  lemma {:induction false} SplitJoined(parts: seq<Str>, d: Byte)
    requires parts != []
    requires forall p :: p in parts ==> d !in p
    ensures Split(Join(parts, d), d) == parts
  {
    SplitWithout(parts[0], d);
    if |parts| > 1 {
      SplitJoined(parts[1..], d);
      SplitAtSeparator(parts[0], d, Join(parts[1..], d));
      assert parts == [parts[0]] + parts[1..];
    }
  }

  /** strings.Cut: the text before the first separator and, when there is one, the text after it. */
  function Before(s: Str, d: Byte): Str {
    if s == [] || s[0] == d then [] else [s[0]] + Before(s[1..], d)
  }

  function After(s: Str, d: Byte): Str {
    if s == [] then [] else if s[0] == d then s[1..] else After(s[1..], d)
  }

  lemma {:induction false} CutFirst(a: Str, d: Byte, b: Str)
    requires d !in a
    ensures Before(a + [d] + b, d) == a
    ensures After(a + [d] + b, d) == b
  {
    var s := a + [d] + b;
    if a == [] {
      assert s[0] == d && s[1..] == b;
    } else {
      assert s[0] == a[0] && s[1..] == a[1..] + [d] + b;
      CutFirst(a[1..], d, b);
    }
  }

  lemma {:induction false} CutWithout(s: Str, d: Byte)
    requires d !in s
    ensures Before(s, d) == s && After(s, d) == []
  {
    if s != [] {
      CutWithout(s[1..], d);
    }
  }

  /** Appending to a text that has the separator leaves the first cut alone. */
  lemma {:induction false} CutAppended(a: Str, d: Byte, b: Str)
    requires d in a
    ensures Before(a + b, d) == Before(a, d)
    ensures After(a + b, d) == After(a, d) + b
  {
    assert (a + b)[0] == a[0] && (a + b)[1..] == a[1..] + b;
    if a[0] != d {
      CutAppended(a[1..], d, b);
    }
  }

  lemma {:induction false} CutTail(a: Str, d: Byte, b: Str)
    requires d !in a
    ensures Before(a + b, d) == a + Before(b, d)
  {
    if a == [] {
      assert a + b == b;
    } else {
      assert (a + b)[0] == a[0] && (a + b)[1..] == a[1..] + b;
      CutTail(a[1..], d, b);
      Regroup([a[0]], a[1..], Before(b, d));
    }
  }

  // ----- queries -----

  type Pair = (Str, Str)

  /** One '&'-separated piece; None for the pieces Go skips (empty, with ';', badly escaped). */
  function DecodePiece(p: Str): Option<Pair> {
    if p == [] || ';' in p then None
    else
      var k := Unescape(Query, Before(p, '='));
      var x := Unescape(Query, After(p, '='));
      if k.None? || x.None? then None else Some((k.value, x.value))
  }

  function DecodePieces(pieces: seq<Str>): seq<Pair> {
    if pieces == [] then []
    else
      var p := DecodePiece(pieces[0]);
      (if p.None? then [] else [p.value]) + DecodePieces(pieces[1..])
  }

  /** A query's parameters in order of appearance. */
  function ParsePairs(query: Str): seq<Pair> {
    DecodePieces(Split(query, '&'))
  }

  function ValuesOf(pairs: seq<Pair>, k: Str): seq<Str> {
    if pairs == [] then []
    else (if pairs[0].0 == k then [pairs[0].1] else []) + ValuesOf(pairs[1..], k)
  }

  function Collect(pairs: seq<Pair>): Values {
    map k | k in (set i | 0 <= i < |pairs| :: pairs[i].0) :: ValuesOf(pairs, k)
  }

  function ParseQuery(query: Str): Values {
    Collect(ParsePairs(query))
  }

  function EncodePair(p: Pair): Str {
    Escape(Query, p.0) + "=" + Escape(Query, p.1)
  }

  function EncodePairs(pairs: seq<Pair>): seq<Str> {
    seq(|pairs|, i requires 0 <= i < |pairs| => EncodePair(pairs[i]))
  }

  function KeyPairs(k: Str, xs: seq<Str>): seq<Pair> {
    seq(|xs|, i requires 0 <= i < |xs| => (k, xs[i]))
  }

  /** The form's parameters, key by key in the order `keys`. */
  function PairsOf(v: Values, keys: seq<Str>): seq<Pair> {
    if keys == [] then []
    else (if keys[0] in v then KeyPairs(keys[0], v[keys[0]]) else []) + PairsOf(v, keys[1..])
  }

  /** Values.Encode, with its key order as an argument; Go's order is the sorted one. */
  function Encode(v: Values, keys: seq<Str>): Str {
    Join(EncodePairs(PairsOf(v, keys)), '&')
  }

  lemma {:induction false} ValuesOfConcat(a: seq<Pair>, b: seq<Pair>, k: Str)
    ensures ValuesOf(a + b, k) == ValuesOf(a, k) + ValuesOf(b, k)
  {
    if a == [] {
      assert a + b == b;
    } else {
      assert (a + b)[0] == a[0] && (a + b)[1..] == a[1..] + b;
      ValuesOfConcat(a[1..], b, k);
      Regroup(if a[0].0 == k then [a[0].1] else [], ValuesOf(a[1..], k), ValuesOf(b, k));
    }
  }

  lemma {:induction false} ValuesOfPresent(pairs: seq<Pair>, k: Str)
    ensures ValuesOf(pairs, k) != [] <==> exists i :: 0 <= i < |pairs| && pairs[i].0 == k
  {
    if pairs != [] {
      ValuesOfPresent(pairs[1..], k);
      if exists i :: 0 <= i < |pairs[1..]| && pairs[1..][i].0 == k {
        var i :| 0 <= i < |pairs[1..]| && pairs[1..][i].0 == k;
        assert pairs[i + 1].0 == k;
      }
      if exists i :: 0 <= i < |pairs| && pairs[i].0 == k {
        var i :| 0 <= i < |pairs| && pairs[i].0 == k;
        assert i > 0 ==> pairs[1..][i - 1].0 == k;
      }
    }
  }

  /** A parsed query is Full, and a key's values are its parameters' values in order. */
  lemma ParsedForm(pairs: seq<Pair>)
    ensures Full(Collect(pairs))
    ensures forall k :: Lookup(Collect(pairs), k) == ValuesOf(pairs, k)
  {
    forall k: Str
      ensures k in Collect(pairs) <==> ValuesOf(pairs, k) != []
    {
      ValuesOfPresent(pairs, k);
    }
  }

  lemma {:induction false} ValuesOfKeyPairs(k: Str, xs: seq<Str>, key: Str)
    ensures ValuesOf(KeyPairs(k, xs), key) == if k == key then xs else []
  {
    if xs != [] {
      assert KeyPairs(k, xs)[1..] == KeyPairs(k, xs[1..]);
      ValuesOfKeyPairs(k, xs[1..], key);
    }
  }

  lemma {:induction false} ValuesOfPairsOf(v: Values, keys: seq<Str>, k: Str)
    requires forall i, j :: 0 <= i < j < |keys| ==> keys[i] != keys[j]
    ensures ValuesOf(PairsOf(v, keys), k) == if k in keys then Lookup(v, k) else []
  {
    if keys != [] {
      var head := if keys[0] in v then KeyPairs(keys[0], v[keys[0]]) else [];
      ValuesOfPairsOf(v, keys[1..], k);
      ValuesOfConcat(head, PairsOf(v, keys[1..]), k);
      if keys[0] in v {
        ValuesOfKeyPairs(keys[0], v[keys[0]], k);
      }
      assert k in keys <==> k == keys[0] || k in keys[1..];
    }
  }

  lemma DecodeEncodedPair(p: Pair)
    ensures '&' !in EncodePair(p)
    ensures DecodePiece(EncodePair(p)) == Some(p)
  {
    EscapeRoundTrip(Query, p.0);
    EscapeRoundTrip(Query, p.1);
    EscapedBytes(Query, p.0, '=');
    EscapedBytes(Query, p.0, '&');
    EscapedBytes(Query, p.1, '&');
    EscapedBytes(Query, p.0, ';');
    EscapedBytes(Query, p.1, ';');
    CutFirst(Escape(Query, p.0), '=', Escape(Query, p.1));
  }

  lemma {:induction false} DecodeEncodedPairs(pairs: seq<Pair>)
    ensures DecodePieces(EncodePairs(pairs)) == pairs
  {
    if pairs != [] {
      assert EncodePairs(pairs)[1..] == EncodePairs(pairs[1..]);
      DecodeEncodedPair(pairs[0]);
      DecodeEncodedPairs(pairs[1..]);
    }
  }

  /** Printing parameters and parsing them back gives the same parameters in the same order. */
  lemma ParsePrinted(pairs: seq<Pair>)
    ensures ParsePairs(Join(EncodePairs(pairs), '&')) == pairs
  {
    var pieces := EncodePairs(pairs);
    if pairs == [] {
      assert Split([], '&') == [[]];
    } else {
      forall p | p in pieces
        ensures '&' !in p
      {
        var i :| 0 <= i < |pairs| && p == EncodePair(pairs[i]);
        DecodeEncodedPair(pairs[i]);
      }
      SplitJoined(pieces, '&');
      DecodeEncodedPairs(pairs);
    }
  }

  /**
   What one piece of a query says: nothing when it is empty, has a `;` or is badly escaped, and otherwise a
   parameter, without a value when there is no `=`.
   */
  lemma PieceSays(k: Str, x: Str)
    requires '&' !in k && '&' !in x && '=' !in k
    ensures
      var dk, dx := Unescape(Query, k), Unescape(Query, x);
      && ParsePairs([]) == []
      && (ParsePairs(k) == if k == [] || ';' in k || dk.None? then [] else [(dk.value, [])])
      && (ParsePairs(k + ['='] + x) ==
          if ';' in k || ';' in x || dk.None? || dx.None? then [] else [(dk.value, dx.value)])
  {
    SplitWithout([], '&');
    SplitWithout(k, '&');
    SplitWithout(k + ['='] + x, '&');
    CutWithout(k, '=');
    CutFirst(k, '=', x);
  }

  lemma {:induction false} ValuesFirst(pairs: seq<Pair>, k: Str) returns (i: nat)
    ensures i <= |pairs| && (forall j :: 0 <= j < i ==> pairs[j].0 != k) && (i < |pairs| ==> pairs[i].0 == k)
    ensures if i < |pairs| then ValuesOf(pairs, k) != [] && ValuesOf(pairs, k)[0] == pairs[i].1
            else ValuesOf(pairs, k) == []
  {
    if pairs == [] || pairs[0].0 == k {
      i := 0;
    } else {
      var rest := ValuesFirst(pairs[1..], k);
      i := rest + 1;
    }
  }

  /** Get finds the value of the first parameter of its name. */
  lemma GetFirst(pairs: seq<Pair>, k: Str) returns (i: nat)
    ensures i <= |pairs| && (forall j :: 0 <= j < i ==> pairs[j].0 != k) && (i < |pairs| ==> pairs[i].0 == k)
    ensures Get(Collect(pairs), k) == if i < |pairs| then pairs[i].1 else []
  {
    i := ValuesFirst(pairs, k);
    ParsedForm(pairs);
  }

  /** A form survives Encode and ParseQuery, whatever order the keys are printed in. */
  lemma EncodeRoundTrip(v: Values, keys: seq<Str>)
    requires Full(v)
    requires Enumerates(keys, v.Keys)
    ensures ParseQuery(Encode(v, keys)) == v
  {
    var pairs := PairsOf(v, keys);
    ParsePrinted(pairs);
    ParsedForm(pairs);
    forall k: Str
      ensures Lookup(Collect(pairs), k) == Lookup(v, k)
    {
      ValuesOfPairsOf(v, keys, k);
    }
    SameLookups(Collect(pairs), v);
  }

  lemma {:induction false} JoinedBytes(parts: seq<Str>, d: Byte, x: Byte)
    requires x != d && forall p :: p in parts ==> x !in p
    ensures x !in Join(parts, d)
  {
    if |parts| > 1 {
      JoinedBytes(parts[1..], d, x);
    }
  }

  /** A printed form has no fragment sign. */
  lemma NoFragmentInEncoded(v: Values, keys: seq<Str>)
    ensures '#' !in Encode(v, keys)
  {
    var pairs := PairsOf(v, keys);
    forall p | p in EncodePairs(pairs)
      ensures '#' !in p
    {
      var i :| 0 <= i < |pairs| && p == EncodePair(pairs[i]);
      EscapedBytes(Query, pairs[i].0, '#');
      EscapedBytes(Query, pairs[i].1, '#');
    }
    JoinedBytes(EncodePairs(pairs), '&', '#');
  }

  // ----- locations -----

  /** The part of a URL before its query and fragment. */
  function UrlPath(u: Str): Str {
    Before(Before(u, '#'), '?')
  }

  function UrlQuery(u: Str): Str {
    After(Before(u, '#'), '?')
  }

  lemma {:induction false} DecodeConcat(a: seq<Str>, b: seq<Str>)
    ensures DecodePieces(a + b) == DecodePieces(a) + DecodePieces(b)
  {
    if a == [] {
      assert a + b == b;
    } else {
      assert (a + b)[0] == a[0] && (a + b)[1..] == a[1..] + b;
      DecodeConcat(a[1..], b);
      var p := DecodePiece(a[0]);
      Regroup(if p.None? then [] else [p.value], DecodePieces(a[1..]), DecodePieces(b));
    }
  }

  /** Queries joined with '&' have both parameter lists, even when one of them is empty. */
  lemma ParseJoined(a: Str, b: Str)
    ensures ParsePairs(a + "&" + b) == ParsePairs(a) + ParsePairs(b)
  {
    SplitAtSeparator(a, '&', b);
    DecodeConcat(Split(a, '&'), Split(b, '&'));
  }

  /** A URL is cut at its first `#`, and what comes before that at its first `?`. */
  lemma UrlParts(path: Str, query: Str, fragment: Str)
    requires '?' !in path && '#' !in path && '#' !in query
    ensures UrlPath(path + ['?'] + query + ['#'] + fragment) == path
    ensures UrlQuery(path + ['?'] + query + ['#'] + fragment) == query
    ensures UrlPath(path + ['#'] + fragment) == path && UrlQuery(path + ['#'] + fragment) == []
  {
    CutFirst(path + ['?'] + query, '#', fragment);
    CutFirst(path, '?', query);
    CutFirst(path, '#', fragment);
    CutWithout(path, '?');
  }

  /** A request target is taken apart where it was put together. */
  lemma TargetParts(path: Str, query: Str)
    requires '?' !in path && '#' !in path && '#' !in query
    ensures UrlPath(path + ['?'] + query) == path && UrlQuery(path + ['?'] + query) == query
  {
    CutWithout(path + ['?'] + query, '#');
    CutFirst(path, '?', query);
  }
}
