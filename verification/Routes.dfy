/** The routes of the underwriting writes, and the reader that takes them apart again. */
module Routes {
  import opened Basics
  import opened Url

  // ----- the routes -----

  const CONNECT: Str := "connect"
  const V1: Str := "v1"
  const UNDERWRITING: Str := "underwriting"
  const REPAIR_RENOVATION: Str := "repairRenovation"
  const ROOMS: Str := "rooms"
  const ESCAPED_COLON: Str := "%3A"

  const BASE: Str := "/connect/v1/underwriting/"

  function Base(propertyId: Str): Str {
    BASE + Escape(Segment, propertyId)
  }

  /** strings.ReplaceAll(s, ":", "%3A") */
  function ReplaceColons(s: Str): Str {
    if s == [] then [] else (if s[0] == ':' then ESCAPED_COLON else [s[0]]) + ReplaceColons(s[1..])
  }

  function TagSegment(tag: Str): Str {
    ReplaceColons(Escape(Segment, tag))
  }

  function SectionPath(propertyId: Str, section: Str): Str {
    Base(propertyId) + "/" + Escape(Segment, section)
  }

  function FieldPath(propertyId: Str, section: Str, path: Str): Str {
    Base(propertyId) + "/" + Escape(Segment, section) + "/" + Escape(Segment, path)
  }

  function RoomPath(propertyId: Str, area: Str, tag: Str): Str {
    Base(propertyId) + "/repairRenovation/" + Escape(Segment, area) + "/rooms/" + TagSegment(tag)
  }

  // ----- the extra replacement -----

  lemma ColonDecoded(t: Str)
    ensures Unescape(Segment, ESCAPED_COLON + t) ==
            if Unescape(Segment, t).None? then None else Some([':'] + Unescape(Segment, t).value)
  {
    assert (ESCAPED_COLON + t)[0] == '%' && (ESCAPED_COLON + t)[1] == '3' && (ESCAPED_COLON + t)[2] == 'A';
    assert (ESCAPED_COLON + t)[3..] == t;
  }

  lemma KeepFirst(s: Str)
    requires s != [] && s[0] != ':'
    ensures ReplaceColons(s) == [s[0]] + ReplaceColons(s[1..])
  {
  }

  lemma Prepend<T>(a: T, b: T, c: T, rest: seq<T>)
    ensures [a] + ([b] + ([c] + rest)) == [a, b, c] + rest
  {
  }

  lemma KeepThree(s: Str, s1: Str, s2: Str)
    requires |s| >= 3 && s[0] != ':' && s[1] != ':' && s[2] != ':'
    requires s1 == s[1..] && s2 == s1[1..]
    ensures ReplaceColons(s) == [s[0], s[1], s[2]] + ReplaceColons(s2[1..])
  {
    KeepFirst(s);
    KeepFirst(s1);
    KeepFirst(s2);
    Prepend(s[0], s[1], s[2], ReplaceColons(s2[1..]));
  }

  /** An escape is left as it is. */
  lemma ReplaceAfterEscape(s: Str)
    requires |s| >= 3 && s[0] == '%' && HexValue(s[1]).Some? && HexValue(s[2]).Some?
    ensures ReplaceColons(s) == [s[0], s[1], s[2]] + ReplaceColons(s[3..])
  {
    KeepThree(s, s[1..], s[1..][1..]);
    assert s[1..][1..][1..] == s[3..];
  }

  /** The first byte of what follows, a colon having become a '%' sign. */
  lemma FirstReplaced(s: Str)
    requires s != []
    ensures ReplaceColons(s) != [] && ReplaceColons(s)[0] == if s[0] == ':' then '%' else s[0]
  {
    assert ESCAPED_COLON[0] == '%';
  }

  lemma StrayStaysStray(r: Str)
    requires r == [] || HexValue(r[0]).None? || |r| == 1 || HexValue(r[1]).None?
    ensures Unescape(Segment, ['%'] + r).None?
  {
    assert r != [] ==> (['%'] + r)[1] == r[0];
    assert |r| >= 2 ==> (['%'] + r)[2] == r[1];
  }

  /** A '%' sign that starts no escape still starts none. */
  lemma ReplaceAfterStray(s: Str)
    requires s != [] && s[0] == '%' && (|s| < 3 || HexValue(s[1]).None? || HexValue(s[2]).None?)
    ensures Unescape(Segment, ReplaceColons(s)).None?
  {
    var r := ReplaceColons(s[1..]);
    KeepFirst(s);
    if |s| >= 2 {
      FirstReplaced(s[1..]);
      if HexValue(s[1]).Some? {
        KeepFirst(s[1..]);
        assert s[1..][1..] == s[2..];
        if |s| >= 3 {
          FirstReplaced(s[2..]);
          assert r[1] == ReplaceColons(s[2..])[0];
        }
      }
    }
    StrayStaysStray(r);
  }

  /** Replacing colons never changes what a segment decodes to, nor whether it decodes at all. */
  lemma {:induction false} ReplaceColonsTransparent(s: Str)
    ensures Unescape(Segment, ReplaceColons(s)) == Unescape(Segment, s)
    decreases |s|
  {
    if s != [] {
      if s[0] == '%' {
        if |s| < 3 || HexValue(s[1]).None? || HexValue(s[2]).None? {
          ReplaceAfterStray(s);
        } else {
          ReplaceAfterEscape(s);
          ReplaceColonsTransparent(s[3..]);
          assert ReplaceColons(s)[3..] == ReplaceColons(s[3..]);
        }
      } else {
        ReplaceColonsTransparent(s[1..]);
        if s[0] == ':' {
          ColonDecoded(ReplaceColons(s[1..]));
        } else {
          assert ReplaceColons(s)[0] == s[0] && ReplaceColons(s)[1..] == ReplaceColons(s[1..]);
        }
      }
    }
  }

  lemma {:induction false} ReplacedBytes(s: Str, d: Byte)
    requires d !in s && d !in ESCAPED_COLON
    ensures d !in ReplaceColons(s)
  {
    if s != [] {
      ReplacedBytes(s[1..], d);
    }
  }

  lemma {:induction false} NoColonLeft(s: Str)
    ensures ':' !in ReplaceColons(s)
  {
    if s != [] {
      NoColonLeft(s[1..]);
    }
  }

  /** The tag's segment has neither a colon nor a slash, and decodes to the tag. */
  lemma TagSegmentDecodes(tag: Str)
    ensures ':' !in TagSegment(tag) && '/' !in TagSegment(tag)
    ensures Unescape(Segment, TagSegment(tag)) == Some(tag)
  {
    NoColonLeft(Escape(Segment, tag));
    EscapedBytes(Segment, tag, '/');
    ReplacedBytes(Escape(Segment, tag), '/');
    ReplaceColonsTransparent(Escape(Segment, tag));
    EscapeRoundTrip(Segment, tag);
  }

  // ----- reading a route back -----

  datatype Route =
    | Section(propertyId: Str, section: Str)
    | Field(propertyId: Str, section: Str, path: Str)
    | Room(propertyId: Str, area: Str, tag: Str)

  function ReadSection(id: Str, section: Option<Str>): Option<Route> {
    if section.None? then None else Some(Section(id, section.value))
  }

  function ReadField(id: Str, section: Option<Str>, path: Option<Str>): Option<Route> {
    if section.None? || path.None? then None else Some(Field(id, section.value, path.value))
  }

  function ReadRoom(id: Str, area: Option<Str>, tag: Option<Str>): Option<Route> {
    if area.None? || tag.None? then None else Some(Room(id, area.value, tag.value))
  }

  /** Check the fixed segments and decode the others. */
  function ReadParts(parts: seq<Str>): Option<Route> {
    if |parts| < 6 || parts[..4] != [[], CONNECT, V1, UNDERWRITING] then None
    else
      var id := Unescape(Segment, parts[4]);
      if id.None? then None
      else if |parts| == 6 then ReadSection(id.value, Unescape(Segment, parts[5]))
      else if |parts| == 7 then ReadField(id.value, Unescape(Segment, parts[5]), Unescape(Segment, parts[6]))
      else if |parts| == 9 && parts[5] == REPAIR_RENOVATION && parts[7] == ROOMS
      then ReadRoom(id.value, Unescape(Segment, parts[6]), Unescape(Segment, parts[8]))
      else None
  }

  function ParseRoute(path: Str): Option<Route> {
    ReadParts(Split(path, '/'))
  }

  /** The path of a route. */
  function PathOf(r: Route): Str {
    match r
    case Section(propertyId, section) => SectionPath(propertyId, section)
    case Field(propertyId, section, path) => FieldPath(propertyId, section, path)
    case Room(propertyId, area, tag) => RoomPath(propertyId, area, tag)
  }

  function Segments(propertyId: Str, area: Str, tag: Str): seq<Str> {
    [[], CONNECT, V1, UNDERWRITING, Escape(Segment, propertyId), REPAIR_RENOVATION, Escape(Segment, area), ROOMS,
     TagSegment(tag)]
  }

  lemma FirstSegment(a: Str, rest: Str)
    requires '/' !in a
    ensures Split(a + ['/'] + rest, '/') == [a] + Split(rest, '/')
  {
    SplitWithout(a, '/');
    SplitAtSeparator(a, '/', rest);
  }

  function Slashed(a: Str, b: Str, c: Str, d: Str, rest: Str): Str {
    a + ['/'] + (b + ['/'] + (c + ['/'] + (d + ['/'] + rest)))
  }

  lemma SlashedSegments(a: Str, b: Str, c: Str, d: Str, rest: Str)
    requires '/' !in a && '/' !in b && '/' !in c && '/' !in d
    ensures Split(Slashed(a, b, c, d, rest), '/') == [a, b, c, d] + Split(rest, '/')
  {
    var r3 := d + ['/'] + rest;
    var r2 := c + ['/'] + r3;
    var r1 := b + ['/'] + r2;
    FirstSegment(a, r1);
    FirstSegment(b, r2);
    FirstSegment(c, r3);
    FirstSegment(d, rest);
    Prepend(a, b, c, [d] + Split(rest, '/'));
    assert [a, b, c] + ([d] + Split(rest, '/')) == [a, b, c, d] + Split(rest, '/');
  }

  /** The path with its separators written out. */
  function Spelled(p: Str, a: Str, t: Str): Str {
    Slashed([], CONNECT, V1, UNDERWRITING, Slashed(p, REPAIR_RENOVATION, a, ROOMS, t))
  }

  lemma SpelledTail(rest: Str, a: Str, t: Str)
    ensures rest + "/repairRenovation/" + a + "/rooms/" + t ==
            rest + ['/'] + (REPAIR_RENOVATION + ['/'] + (a + ['/'] + (ROOMS + ['/'] + t)))
  {
    assert "/repairRenovation/" == ['/'] + REPAIR_RENOVATION + ['/'];
    assert "/rooms/" == ['/'] + ROOMS + ['/'];
  }

  lemma Leading(c: Str, v: Str, u: Str, rest: Str)
    ensures ['/'] + c + ['/'] + v + ['/'] + u + ['/'] + rest ==
            [] + ['/'] + (c + ['/'] + (v + ['/'] + (u + ['/'] + rest)))
  {
  }

  lemma BaseSpelled()
    ensures BASE == ['/'] + CONNECT + ['/'] + V1 + ['/'] + UNDERWRITING + ['/']
  {
  }

  lemma SpelledHead(p: Str, rest: Str)
    ensures BASE + p + ['/'] + rest ==
            [] + ['/'] + (CONNECT + ['/'] + (V1 + ['/'] + (UNDERWRITING + ['/'] + (p + ['/'] + rest))))
  {
    BaseSpelled();
    Leading(CONNECT, V1, UNDERWRITING, p + ['/'] + rest);
    assert BASE + p + ['/'] + rest == BASE + (p + ['/'] + rest);
  }

  lemma PathSpelled(propertyId: Str, area: Str, tag: Str)
    ensures RoomPath(propertyId, area, tag) ==
            Spelled(Escape(Segment, propertyId), Escape(Segment, area), TagSegment(tag))
  {
    var p, a, t := Escape(Segment, propertyId), Escape(Segment, area), TagSegment(tag);
    SpelledTail(Base(propertyId), a, t);
    SpelledHead(p, REPAIR_RENOVATION + ['/'] + (a + ['/'] + (ROOMS + ['/'] + t)));
  }

  lemma SpelledSegments(p: Str, a: Str, t: Str)
    requires '/' !in p && '/' !in a && '/' !in t
    ensures Split(Spelled(p, a, t), '/') == [[], CONNECT, V1, UNDERWRITING, p, REPAIR_RENOVATION, a, ROOMS, t]
  {
    SlashedSegments([], CONNECT, V1, UNDERWRITING, Slashed(p, REPAIR_RENOVATION, a, ROOMS, t));
    SlashedSegments(p, REPAIR_RENOVATION, a, ROOMS, t);
    SplitWithout(t, '/');
  }

  /** Whatever its three arguments are, the path has nine segments. */
  lemma RoomPathSegments(propertyId: Str, area: Str, tag: Str)
    ensures Split(RoomPath(propertyId, area, tag), '/') == Segments(propertyId, area, tag)
  {
    EscapedBytes(Segment, propertyId, '/');
    EscapedBytes(Segment, area, '/');
    TagSegmentDecodes(tag);
    PathSpelled(propertyId, area, tag);
    SpelledSegments(Escape(Segment, propertyId), Escape(Segment, area), TagSegment(tag));
  }

  lemma Append<T>(a: T, b: T, c: T, d: T, e: T, rest: seq<T>)
    ensures [a, b, c, d] + ([e] + rest) == [a, b, c, d, e] + rest
  {
  }

  /** Whatever follows the property's own segment, it comes after the five leading ones. */
  lemma BaseSegments(propertyId: Str, rest: Str)
    ensures Split(Base(propertyId) + ['/'] + rest, '/') ==
            [[], CONNECT, V1, UNDERWRITING, Escape(Segment, propertyId)] + Split(rest, '/')
  {
    var p := Escape(Segment, propertyId);
    EscapedBytes(Segment, propertyId, '/');
    SpelledHead(p, rest);
    SlashedSegments([], CONNECT, V1, UNDERWRITING, p + ['/'] + rest);
    FirstSegment(p, rest);
    Append([], CONNECT, V1, UNDERWRITING, p, Split(rest, '/'));
  }

  lemma SectionPathSegments(propertyId: Str, section: Str)
    ensures Split(SectionPath(propertyId, section), '/') ==
            [[], CONNECT, V1, UNDERWRITING, Escape(Segment, propertyId), Escape(Segment, section)]
  {
    EscapedBytes(Segment, section, '/');
    SplitWithout(Escape(Segment, section), '/');
    BaseSegments(propertyId, Escape(Segment, section));
  }

  lemma FieldPathSegments(propertyId: Str, section: Str, path: Str)
    ensures Split(FieldPath(propertyId, section, path), '/') ==
            [[], CONNECT, V1, UNDERWRITING, Escape(Segment, propertyId),
             Escape(Segment, section), Escape(Segment, path)]
  {
    var s, f := Escape(Segment, section), Escape(Segment, path);
    EscapedBytes(Segment, section, '/');
    EscapedBytes(Segment, path, '/');
    SplitWithout(f, '/');
    FirstSegment(s, f);
    BaseSegments(propertyId, s + ['/'] + f);
    Regroup(Base(propertyId) + ['/'], s, ['/'] + f);
    Regroup(Base(propertyId) + ['/'] + s, ['/'], f);
    Regroup(s, ['/'], f);
  }

  lemma SectionReadBack(propertyId: Str, section: Str)
    ensures ParseRoute(SectionPath(propertyId, section)) == Some(Section(propertyId, section))
  {
    SectionPathSegments(propertyId, section);
    EscapeRoundTrip(Segment, propertyId);
    EscapeRoundTrip(Segment, section);
  }

  lemma FieldReadBack(propertyId: Str, section: Str, path: Str)
    ensures ParseRoute(FieldPath(propertyId, section, path)) == Some(Field(propertyId, section, path))
  {
    FieldPathSegments(propertyId, section, path);
    EscapeRoundTrip(Segment, propertyId);
    EscapeRoundTrip(Segment, section);
    EscapeRoundTrip(Segment, path);
  }

  /** The room route is a decodable printer: property, area and tag come out as they went in, for all strings. */
  lemma RoomReadBack(propertyId: Str, area: Str, tag: Str)
    ensures ParseRoute(RoomPath(propertyId, area, tag)) == Some(Room(propertyId, area, tag))
  {
    RoomPathSegments(propertyId, area, tag);
    EscapeRoundTrip(Segment, propertyId);
    EscapeRoundTrip(Segment, area);
    TagSegmentDecodes(tag);
  }

  /** Every route can be read back. */
  lemma RouteRoundTrip(r: Route)
    ensures ParseRoute(PathOf(r)) == Some(r)
  {
    match r
    case Section(propertyId, section) => SectionReadBack(propertyId, section);
    case Field(propertyId, section, path) => FieldReadBack(propertyId, section, path);
    case Room(propertyId, area, tag) => RoomReadBack(propertyId, area, tag);
  }

  /** Different routes have different paths: no two rooms share one, and no room's is a section's or a field's. */
  lemma RouteInjective(a: Route, b: Route)
    ensures PathOf(a) == PathOf(b) <==> a == b
  {
    RouteRoundTrip(a);
    RouteRoundTrip(b);
  }

  lemma FixedSegments(x: Byte)
    requires x == '?' || x == '#'
    ensures x !in CONNECT && x !in V1 && x !in UNDERWRITING && x !in REPAIR_RENOVATION && x !in ROOMS
    ensures x !in ESCAPED_COLON
  {
  }

  lemma SlashedBytes(a: Str, b: Str, c: Str, d: Str, rest: Str, x: Byte)
    requires x != '/' && x !in a && x !in b && x !in c && x !in d && x !in rest
    ensures x !in Slashed(a, b, c, d, rest)
  {
  }

  /** The path has no query and no fragment of its own. */
  lemma NoDelimiters(propertyId: Str, area: Str, tag: Str, x: Byte)
    requires x == '?' || x == '#'
    ensures x !in RoomPath(propertyId, area, tag)
  {
    var p, a, t := Escape(Segment, propertyId), Escape(Segment, area), TagSegment(tag);
    EscapedBytes(Segment, propertyId, x);
    EscapedBytes(Segment, area, x);
    EscapedBytes(Segment, tag, x);
    FixedSegments(x);
    ReplacedBytes(Escape(Segment, tag), x);
    PathSpelled(propertyId, area, tag);
    SlashedBytes(p, REPAIR_RENOVATION, a, ROOMS, t, x);
    SlashedBytes([], CONNECT, V1, UNDERWRITING, Slashed(p, REPAIR_RENOVATION, a, ROOMS, t), x);
  }
}
