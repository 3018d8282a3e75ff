/** strings.TrimSpace on Go's byte strings: white space is looked for in UTF-8, and other bytes stay as they are. */
module Text {
  import opened Basics

  /** `e` is the UTF-8 form of one white-space character, as unicode.IsSpace defines them. */
  predicate Space(e: Str) {
    || (|e| == 1 && (0x09 <= e[0] as int <= 0x0D || e[0] == ' '))
    || (|e| == 2 && e[0] as int == 0xC2 && e[1] as int in {0x85, 0xA0})
    || (|e| == 3 && WideSpace(e[0] as int, e[1] as int, e[2] as int))
  }

  /** U+1680, U+2000 to U+200A, U+2028, U+2029, U+202F, U+205F and U+3000. */
  predicate WideSpace(a: int, b: int, c: int) {
    || (a == 0xE1 && b == 0x9A && c == 0x80)
    || (a == 0xE2 && b == 0x80 && (0x80 <= c <= 0x8A || c in {0xA8, 0xA9, 0xAF}))
    || (a == 0xE2 && b == 0x81 && c == 0x9F)
    || (a == 0xE3 && b == 0x80 && c == 0x80)
  }

  /** The UTF-8 form of a code point below 0x10000. */
  function Utf8(cp: nat): Str
    requires cp < 0x10000
  {
    if cp < 0x80 then [cp as char]
    else if cp < 0x800 then [(0xC0 + cp / 64) as char, (0x80 + cp % 64) as char]
    else [(0xE0 + cp / 4096) as char, (0x80 + cp / 64 % 64) as char, (0x80 + cp % 64) as char]
  }

  /** The code points with Unicode's White_Space property. */
  predicate WhiteSpace(cp: nat) {
    || 0x9 <= cp <= 0xD || 0x2000 <= cp <= 0x200A
    || cp in {0x20, 0x85, 0xA0, 0x1680, 0x2028, 0x2029, 0x202F, 0x205F, 0x3000}
  }

  function CodePoint(e: Str): (cp: nat)
    requires 1 <= |e| <= 3
  {
    if |e| == 1 then e[0] as int
    else if |e| == 2 then e[0] as int % 32 * 64 + e[1] as int % 64
    else e[0] as int % 16 * 4096 + e[1] as int % 64 * 64 + e[2] as int % 64
  }

  lemma SpaceDecoded(e: Str)
    requires Space(e)
    ensures 1 <= |e| <= 3 && CodePoint(e) < 0x10000 && WhiteSpace(CodePoint(e)) && e == Utf8(CodePoint(e))
  {
    if |e| == 3 {
      WideDecoded(e[0] as int, e[1] as int, e[2] as int);
    }
  }

  lemma WideDecoded(a: int, b: int, c: int)
    requires WideSpace(a, b, c)
    ensures
      var cp := a % 16 * 4096 + b % 64 * 64 + c % 64;
      && 0x800 <= cp < 0x10000 && WhiteSpace(cp)
      && a == 0xE0 + cp / 4096 && b == 0x80 + cp / 64 % 64 && c == 0x80 + cp % 64
  {
  }

  lemma SpaceEncoded(cp: nat)
    requires cp < 0x10000 && WhiteSpace(cp)
    ensures Space(Utf8(cp))
  {
    if 0x800 <= cp {
      WideEncoded(cp);
    }
  }

  lemma WideEncoded(cp: nat)
    requires 0x800 <= cp < 0x10000 && WhiteSpace(cp)
    ensures WideSpace(0xE0 + cp / 4096, 0x80 + cp / 64 % 64, 0x80 + cp % 64)
  {
  }

  /** What counts as white space are the UTF-8 forms of those code points, and nothing else. */
  lemma SpaceIff(e: Str)
    ensures Space(e) <==> exists cp: nat :: cp < 0x10000 && WhiteSpace(cp) && e == Utf8(cp)
  {
    if Space(e) {
      SpaceDecoded(e);
    }
    forall cp: nat | cp < 0x10000 && WhiteSpace(cp) && e == Utf8(cp)
      ensures Space(e)
    {
      SpaceEncoded(cp);
    }
  }

  predicate StartsWithSpace(s: Str, n: nat) {
    n <= |s| && Space(s[..n])
  }

  predicate EndsWithSpace(s: Str, n: nat) {
    n <= |s| && Space(s[|s| - n..])
  }

  /** The number of bytes of the white-space character at the start; 0 when there is none. */
  function Leading(s: Str): (n: nat)
    ensures n <= |s| && (n == 0 || StartsWithSpace(s, n))
  {
    if StartsWithSpace(s, 1) then 1
    else if StartsWithSpace(s, 2) then 2
    else if StartsWithSpace(s, 3) then 3
    else 0
  }

  function Trailing(s: Str): (n: nat)
    ensures n <= |s| && (n == 0 || EndsWithSpace(s, n))
  {
    if EndsWithSpace(s, 1) then 1
    else if EndsWithSpace(s, 2) then 2
    else if EndsWithSpace(s, 3) then 3
    else 0
  }

  function TrimLeft(s: Str): Str
    decreases |s|
  {
    if Leading(s) == 0 then s else TrimLeft(s[Leading(s)..])
  }

  function TrimRight(s: Str): Str
    decreases |s|
  {
    if Trailing(s) == 0 then s else TrimRight(s[..|s| - Trailing(s)])
  }

  function TrimSpace(s: Str): Str {
    TrimRight(TrimLeft(s))
  }

  lemma {:induction false} TrimLeftDone(s: Str)
    ensures Leading(TrimLeft(s)) == 0
    decreases |s|
  {
    if Leading(s) != 0 {
      TrimLeftDone(s[Leading(s)..]);
    }
  }

  lemma {:induction false} TrimRightDone(s: Str)
    ensures Trailing(TrimRight(s)) == 0 && TrimRight(s) <= s
    decreases |s|
  {
    if Trailing(s) != 0 {
      TrimRightDone(s[..|s| - Trailing(s)]);
    }
  }

  /** Trimmed text starts and ends without white space, so trimming it again changes nothing. */
  lemma TrimSpaceIdempotent(s: Str)
    ensures Leading(TrimSpace(s)) == 0 && Trailing(TrimSpace(s)) == 0
    ensures TrimSpace(TrimSpace(s)) == TrimSpace(s)
  {
    var left, r := TrimLeft(s), TrimSpace(s);
    TrimLeftDone(s);
    TrimRightDone(left);
    assert forall k :: 0 <= k <= |r| ==> r[..k] == left[..k];
  }

  /** Nothing but white-space characters. */
  predicate Blank(s: Str)
    decreases |s|
  {
    s == [] || (Leading(s) != 0 && Blank(s[Leading(s)..]))
  }

  lemma BlankPrepend(e: Str, s: Str)
    requires Blank(s) && Space(e)
    ensures Blank(e + s)
  {
    assert (e + s)[..|e|] == e && (e + s)[|e|..] == s;
    assert forall k :: 0 < k < |e| ==> (e + s)[..k] == e[..k];
  }

  lemma {:induction false} BlankAppend(s: Str, e: Str)
    requires Blank(s) && Space(e)
    ensures Blank(s + e)
    decreases |s|
  {
    if s == [] {
      BlankPrepend(e, []);
      assert s + e == e + [];
    } else {
      var first, tail := s[..Leading(s)], s[Leading(s)..];
      assert s == first + tail;
      BlankAppend(tail, e);
      BlankPrepend(first, tail + e);
      Regroup(first, tail, e);
    }
  }

  lemma LeftStep(e: Str, rest: Str, t: Str, s: Str)
    requires Space(e) && Blank(rest) && s == e + (rest + t)
    ensures s == e + rest + t && Blank(e + rest)
  {
    BlankPrepend(e, rest);
    Regroup(e, rest, t);
  }

  lemma {:induction false} LeftPart(s: Str) returns (a: Str)
    ensures s == a + TrimLeft(s) && Blank(a)
    decreases |s|
  {
    if Leading(s) == 0 {
      a := [];
    } else {
      var e, tail := s[..Leading(s)], s[Leading(s)..];
      assert s == e + tail;
      var rest := LeftPart(tail);
      LeftStep(e, rest, TrimLeft(tail), s);
      a := e + rest;
    }
  }

  lemma RightStep(t: Str, rest: Str, e: Str, s: Str)
    requires Space(e) && Blank(rest) && s == t + rest + e
    ensures s == t + (rest + e) && Blank(rest + e)
  {
    BlankAppend(rest, e);
    Regroup(t, rest, e);
  }

  lemma {:induction false} RightPart(s: Str) returns (b: Str)
    ensures s == TrimRight(s) + b && Blank(b)
    decreases |s|
  {
    if Trailing(s) == 0 {
      b := [];
    } else {
      var cut := |s| - Trailing(s);
      var e, head := s[cut..], s[..cut];
      assert s == head + e;
      var rest := RightPart(head);
      RightStep(TrimRight(head), rest, e, s);
      b := rest + e;
    }
  }

  /** Trimming takes away white space at both ends, and nothing else. */
  lemma TrimSpaceParts(s: Str) returns (a: Str, b: Str)
    ensures s == a + TrimSpace(s) + b && Blank(a) && Blank(b)
  {
    a := LeftPart(s);
    b := RightPart(TrimLeft(s));
    Regroup(a, TrimSpace(s), b);
  }

  function Mapped(f: Str -> Str, items: seq<Str>): (r: seq<Str>)
    ensures |r| == |items|
  {
    seq(|items|, i requires 0 <= i < |items| => f(items[i]))
  }

  function Trimmed(items: seq<Str>): (r: seq<Str>)
    ensures |r| == |items|
  {
    Mapped(TrimSpace, items)
  }

  /** What is taken from an image of an idempotent function is left alone by it. */
  lemma MappedStays(f: Str -> Str, items: seq<Str>, some: seq<Str>)
    requires forall s :: f(f(s)) == f(s)
    requires forall x :: x in some ==> x in Mapped(f, items)
    ensures Mapped(f, some) == some
  {
    forall k | 0 <= k < |some|
      ensures f(some[k]) == some[k]
    {
      assert some[k] in some;
      var l :| 0 <= l < |items| && Mapped(f, items)[l] == some[k];
    }
  }

  lemma TrimmedStays(items: seq<Str>, some: seq<Str>)
    requires forall x :: x in some ==> x in Trimmed(items)
    ensures Trimmed(some) == some
  {
    forall s: Str
      ensures TrimSpace(TrimSpace(s)) == TrimSpace(s)
    {
      TrimSpaceIdempotent(s);
    }
    MappedStays(TrimSpace, items, some);
  }
}
