/**
 Partial property updates: the patch structs with their JSON names, encoding under the `omitempty` rules,
 and the body that is left once empty objects are pruned away.
 */
module PropertyPatch {
  import opened Basics
  import opened JsonTree
  import JsonHeap

  // ----- numbers -----

  const TWO_TO_THE_52 := 0x10_0000_0000_0000

  const TWO_TO_THE_53 := 0x20_0000_0000_0000

  /** A Go int64. */
  type Int64 = n: int | -0x8000_0000_0000_0000 <= n < 0x8000_0000_0000_0000

  /** A Go float64; NaN and the infinities have no JSON form. */
  datatype Float = Finite(r: real) | NonFinite

  /** The distance between neighbouring float64 values around the integer `n`. */
  function Ulp(n: nat): (u: nat)
    ensures 1 <= u
  {
    if n < TWO_TO_THE_53 then 1 else 2 * Ulp(n / 2)
  }

  /** The multiple of `u` nearest to `n`; halfway between two, the even one. */
  function RoundTo(n: nat, u: nat): nat
    requires 1 <= u
  {
    var low, rest := n / u, n % u;
    if 2 * rest < u || (2 * rest == u && low % 2 == 0) then low * u else (low + 1) * u
  }

  /** The float64 that JSON decoding makes of an integer. */
  function FloatOfInt(n: int): real {
    if n < 0 then -(RoundTo(-n, Ulp(-n)) as real) else RoundTo(n, Ulp(n)) as real
  }

  function Magnitude(n: int): nat {
    if n < 0 then -n else n
  }

  /** Ulp gives every large integer a significand of exactly 53 bits. */
  lemma {:induction false} SignificandHas53Bits(n: nat)
    requires TWO_TO_THE_53 <= n
    ensures TWO_TO_THE_52 * Ulp(n) <= n < TWO_TO_THE_53 * Ulp(n)
  {
    if 2 * TWO_TO_THE_53 <= n {
      SignificandHas53Bits(n / 2);
    }
  }

  lemma RoundToIsNear(n: nat, u: nat)
    requires 1 <= u
    ensures n - u <= 2 * RoundTo(n, u) - n <= n + u
    ensures RoundTo(n, u) == n <==> n % u == 0
    ensures RoundTo(n, u) == n / u * u || RoundTo(n, u) == n / u * u + u
    ensures 2 * (n % u) == u ==> RoundTo(n, u) == if n / u % 2 == 0 then n / u * u else n / u * u + u
  {
    assert (n / u + 1) * u == n / u * u + u;
  }

  /** An integer survives JSON decoding exactly when it is a multiple of the spacing around it. */
  lemma IntSurvivesIff(n: int)
    ensures FloatOfInt(n) == n as real <==> Magnitude(n) % Ulp(Magnitude(n)) == 0
    ensures Magnitude(n) <= TWO_TO_THE_53 ==> FloatOfInt(n) == n as real
    ensures FloatOfInt(-n) == -FloatOfInt(n)
    ensures 0 <= n ==> FloatOfInt(n) == RoundTo(n, Ulp(n)) as real
  {
    RoundToIsNear(Magnitude(n), Ulp(Magnitude(n)));
  }

  /** 2^53 + 1 becomes 2^53. */
  lemma IntLost()
    ensures FloatOfInt(TWO_TO_THE_53 + 1) == TWO_TO_THE_53 as real
  {
    assert Ulp(TWO_TO_THE_53 + 1) == 2;
  }

  // ----- the patch -----

  datatype Patch = Patch(
    propertyType: string, bedrooms: string, bathrooms: string, yearBuilt: string,
    propertySize: Int64, lotSize: Int64, listingPrice: Float,
    dealType: string, creativeStructure: string,
    propertyDetails: Option<PropertyDetails>, additionalInfo: Option<AdditionalInfo>, occupancy: Option<Occupancy>,
    customRoomTypes: seq<CustomRoomType>)

  datatype PropertyDetails = PropertyDetails(
    apn: string, hoaDues: Option<Float>, hoaDuesFrequency: string, legalDescription: string,
    subdivisionName: string, waterType: string, wasteType: string, electricSupply: string)

  datatype AdditionalInfo = AdditionalInfo(
    interior: Option<Interior>, others: Option<Others>, utilityDetails: Option<UtilityDetails>)

  datatype Interior = Interior(appliances: seq<string>, flooring: seq<string>)

  datatype Others = Others(exteriorMaterial: seq<string>, indoorFeatures: seq<string>, roofAge: string,
                           foundation: string)

  datatype UtilityDetails = UtilityDetails(cooling: seq<string>, heating: seq<string>, heatingFuel: seq<string>)

  datatype Occupancy = Occupancy(occupancyAtClosing: string, currentOccupancy: string)

  datatype CustomRoomType = CustomRoomType(id: string, title: string)  // "id", "label"

  /** A field's value as the encoder meets it. */
  datatype Go =
    | Chars(s: string)
    | Integer(n: Int64)
    | Float64(f: Float)
    | FloatPtr(p: Option<Float>)
    | Strings(strings: seq<string>)
    | Rooms(rooms: seq<CustomRoomType>)
    | StructPtr(struct: Option<Struct>)

  /** A struct by the JSON names of its fields, all of which are `omitempty`. */
  datatype Struct = Struct(fields: map<string, Go>)

  function Ptr<T>(p: Option<T>, fields: T -> Struct): Go {
    if p.None? then StructPtr(None) else StructPtr(Some(fields(p.value)))
  }

  function PatchFields(p: Patch): Struct {
    Struct(map["propertyType" := Chars(p.propertyType), "bedrooms" := Chars(p.bedrooms),
               "bathrooms" := Chars(p.bathrooms),
               "yearBuilt" := Chars(p.yearBuilt), "propertySize" := Integer(p.propertySize),
               "lotSize" := Integer(p.lotSize),
               "listingPrice" := Float64(p.listingPrice), "dealType" := Chars(p.dealType),
               "creativeStructure" := Chars(p.creativeStructure),
               "propertyDetails" := Ptr(p.propertyDetails, DetailsFields),
               "additionalInfo" := Ptr(p.additionalInfo, InfoFields), "occupancy" := Ptr(p.occupancy, OccupancyFields),
               "customRoomTypes" := Rooms(p.customRoomTypes)])
  }

  function DetailsFields(d: PropertyDetails): Struct {
    Struct(map["apn" := Chars(d.apn), "hoaDues" := FloatPtr(d.hoaDues), "hoaDuesFrequency" := Chars(d.hoaDuesFrequency),
               "legalDescription" := Chars(d.legalDescription), "subdivisionName" := Chars(d.subdivisionName),
               "waterType" := Chars(d.waterType), "wasteType" := Chars(d.wasteType),
               "electricSupply" := Chars(d.electricSupply)])
  }

  function InfoFields(a: AdditionalInfo): Struct {
    Struct(map["interior" := Ptr(a.interior, InteriorFields), "others" := Ptr(a.others, OthersFields),
               "utilityDetails" := Ptr(a.utilityDetails, UtilityFields)])
  }

  function InteriorFields(i: Interior): Struct {
    Struct(map["appliances" := Strings(i.appliances), "flooring" := Strings(i.flooring)])
  }

  function OthersFields(o: Others): Struct {
    Struct(map["exteriorMaterial" := Strings(o.exteriorMaterial), "indoorFeatures" := Strings(o.indoorFeatures),
               "roofAge" := Chars(o.roofAge), "foundation" := Chars(o.foundation)])
  }

  function UtilityFields(u: UtilityDetails): Struct {
    Struct(map["cooling" := Strings(u.cooling), "heating" := Strings(u.heating),
               "heatingFuel" := Strings(u.heatingFuel)])
  }

  function OccupancyFields(o: Occupancy): Struct {
    Struct(map["occupancyAtClosing" := Chars(o.occupancyAtClosing), "currentOccupancy" := Chars(o.currentOccupancy)])
  }

  // ----- encoding -----

  /** What `omitempty` omits: zero values, nil pointers and empty lists, but no pointer to a zero or an empty struct. */
  predicate Omitted(g: Go) {
    match g
    case Chars(s) => s == ""
    case Integer(n) => n == 0
    case Float64(f) => f == Finite(0.0)
    case FloatPtr(p) => p.None?
    case Strings(strings) => strings == []
    case Rooms(rooms) => rooms == []
    case StructPtr(struct) => struct.None?
  }

  /** Encoding fails on a non-finite number, wherever one is set. */
  predicate Encodable(g: Go) {
    match g
    case Float64(f) => f.Finite?
    case FloatPtr(p) => p.Some? ==> p.value.Finite?
    case StructPtr(struct) => struct.Some? ==> forall k <- struct.value.fields :: Encodable(struct.value.fields[k])
    case _ => true
  }

  function StringsJson(strings: seq<string>): Json {
    Arr(seq(|strings|, i requires 0 <= i < |strings| => Text(strings[i])))
  }

  /** Both fields of a custom room type are always written. */
  function RoomsJson(rooms: seq<CustomRoomType>): Json {
    Arr(seq(|rooms|, i requires 0 <= i < |rooms| =>
      Obj(map["id" := Text(rooms[i].id), "label" := Text(rooms[i].title)])))
  }

  /** A value encoded to JSON and decoded again, every number as a float64. */
  function Decoded(g: Go): Json
    requires Encodable(g) && !Omitted(g)
  {
    match g
    case Chars(s) => Text(s)
    case Integer(n) => Num(FloatOfInt(n))
    case Float64(f) => Num(f.r)
    case FloatPtr(p) => Num(p.value.r)
    case Strings(strings) => StringsJson(strings)
    case Rooms(rooms) => RoomsJson(rooms)
    case StructPtr(struct) =>
      var fields := struct.value.fields;
      Obj(map k | k in fields && !Omitted(fields[k]) :: Decoded(fields[k]))
  }

  function Root(p: Patch): Go {
    StructPtr(Some(PatchFields(p)))
  }

  // ----- what a patch sets -----

  /** The value a patch sets at a path: the field reached through structs that are there, unless it is omitted. */
  function SetAt(g: Go, path: Path): Option<Json>
    requires Encodable(g)
    decreases |path|
  {
    if Omitted(g) then None
    else if !g.StructPtr? then if path == [] then Some(Decoded(g)) else None
    else if path == [] || path[0] !in g.struct.value.fields then None
    else SetAt(g.struct.value.fields[path[0]], path[1..])
  }

  /** Decoding the encoded patch yields exactly the leaves it sets. */
  lemma {:induction false} DecodedLeaf(g: Go, path: Path)
    requires Encodable(g) && !Omitted(g)
    ensures LeafAt(Decoded(g), path) == SetAt(g, path)
    decreases |path|
  {
    if g.StructPtr? && path != [] && path[0] in g.struct.value.fields {
      var field := g.struct.value.fields[path[0]];
      if !Omitted(field) {
        DecodedLeaf(field, path[1..]);
      }
    }
  }

  // ----- the same, field by field -----

  function TextSet(s: string): Option<Json> {
    if s == "" then None else Some(Text(s))
  }

  function TextsSet(strings: seq<string>): (j: Option<Json>)
    ensures j.Some? <==> strings != []
    ensures j.Some? ==>
      && j.value.Arr? && |j.value.items| == |strings|
      && forall i :: 0 <= i < |strings| ==> j.value.items[i] == Text(strings[i])
  {
    if strings == [] then None else Some(StringsJson(strings))
  }

  /** A list of the room types, each with its two fields, empty or not. */
  ghost predicate WrittenOut(j: Json, rooms: seq<CustomRoomType>) {
    && j.Arr? && |j.items| == |rooms|
    && forall i :: 0 <= i < |rooms| ==>
         j.items[i] == Obj(map["id" := Text(rooms[i].id), "label" := Text(rooms[i].title)])
  }

  function RoomsSet(rooms: seq<CustomRoomType>): (j: Option<Json>)
    ensures j.Some? <==> rooms != []
    ensures j.Some? ==> WrittenOut(j.value, rooms)
  {
    if rooms == [] then None else Some(RoomsJson(rooms))
  }

  function NumberSet(n: Int64): Option<Json> {
    if n == 0 then None else Some(Num(FloatOfInt(n)))
  }

  function TopField(p: Patch, k: string): Option<Json> {
    match k
    case "propertyType" => TextSet(p.propertyType)
    case "bedrooms" => TextSet(p.bedrooms)
    case "bathrooms" => TextSet(p.bathrooms)
    case "yearBuilt" => TextSet(p.yearBuilt)
    case "propertySize" => NumberSet(p.propertySize)
    case "lotSize" => NumberSet(p.lotSize)
    case "listingPrice" =>
      if p.listingPrice.NonFinite? || p.listingPrice.r == 0.0 then None else Some(Num(p.listingPrice.r))
    case "dealType" => TextSet(p.dealType)
    case "creativeStructure" => TextSet(p.creativeStructure)
    case "customRoomTypes" => RoomsSet(p.customRoomTypes)
    case _ => None
  }

  function DetailsField(d: PropertyDetails, k: string): Option<Json> {
    match k
    case "apn" => TextSet(d.apn)
    case "hoaDues" => if d.hoaDues.None? || d.hoaDues.value.NonFinite? then None else Some(Num(d.hoaDues.value.r))
    case "hoaDuesFrequency" => TextSet(d.hoaDuesFrequency)
    case "legalDescription" => TextSet(d.legalDescription)
    case "subdivisionName" => TextSet(d.subdivisionName)
    case "waterType" => TextSet(d.waterType)
    case "wasteType" => TextSet(d.wasteType)
    case "electricSupply" => TextSet(d.electricSupply)
    case _ => None
  }

  function OccupancyField(o: Occupancy, k: string): Option<Json> {
    match k
    case "occupancyAtClosing" => TextSet(o.occupancyAtClosing)
    case "currentOccupancy" => TextSet(o.currentOccupancy)
    case _ => None
  }

  function InteriorField(i: Interior, k: string): Option<Json> {
    match k
    case "appliances" => TextsSet(i.appliances)
    case "flooring" => TextsSet(i.flooring)
    case _ => None
  }

  function OthersField(o: Others, k: string): Option<Json> {
    match k
    case "exteriorMaterial" => TextsSet(o.exteriorMaterial)
    case "indoorFeatures" => TextsSet(o.indoorFeatures)
    case "roofAge" => TextSet(o.roofAge)
    case "foundation" => TextSet(o.foundation)
    case _ => None
  }

  function UtilityField(u: UtilityDetails, k: string): Option<Json> {
    match k
    case "cooling" => TextsSet(u.cooling)
    case "heating" => TextsSet(u.heating)
    case "heatingFuel" => TextsSet(u.heatingFuel)
    case _ => None
  }

  function InfoField(a: AdditionalInfo, part: string, k: string): Option<Json> {
    match part
    case "interior" => if a.interior.None? then None else InteriorField(a.interior.value, k)
    case "others" => if a.others.None? then None else OthersField(a.others.value, k)
    case "utilityDetails" => if a.utilityDetails.None? then None else UtilityField(a.utilityDetails.value, k)
    case _ => None
  }

  /** The leaf that a patch is to have at a path, read off its fields. */
  function FieldAt(p: Patch, path: Path): Option<Json> {
    if |path| == 1 then TopField(p, path[0])
    else if |path| == 2 && path[0] == "propertyDetails" && p.propertyDetails.Some?
    then DetailsField(p.propertyDetails.value, path[1])
    else if |path| == 2 && path[0] == "occupancy" && p.occupancy.Some? then OccupancyField(p.occupancy.value, path[1])
    else if |path| == 3 && path[0] == "additionalInfo" && p.additionalInfo.Some?
    then InfoField(p.additionalInfo.value, path[1], path[2])
    else None
  }

  lemma StructSetAt(g: Go, path: Path)
    requires Encodable(g) && g.StructPtr?
    ensures g.struct.None? || path == [] || path[0] !in g.struct.value.fields ==> SetAt(g, path) == None
    ensures g.struct.Some? && path != [] && path[0] in g.struct.value.fields ==>
      SetAt(g, path) == SetAt(g.struct.value.fields[path[0]], path[1..])
  {
  }

  /** What a field that is no struct has at a path: its value, at its own place only. */
  function ValueSet(g: Go, path: Path): Option<Json> {
    if path != [] then None
    else
      match g
      case Chars(s) => TextSet(s)
      case Integer(n) => NumberSet(n)
      case Float64(f) => if f.NonFinite? || f.r == 0.0 then None else Some(Num(f.r))
      case FloatPtr(p) => if p.None? || p.value.NonFinite? then None else Some(Num(p.value.r))
      case Strings(strings) => TextsSet(strings)
      case Rooms(rooms) => RoomsSet(rooms)
      case StructPtr(_) => None
  }

  lemma ValueSetAt(g: Go, path: Path)
    requires Encodable(g) && !g.StructPtr?
    ensures SetAt(g, path) == ValueSet(g, path)
  {
  }

  /** A struct whose fields are no structs has their values, one step down. */
  lemma FlatSetAt(g: Go, path: Path)
    requires Encodable(g) && g.StructPtr?
    requires g.struct.Some? ==> forall k <- g.struct.value.fields :: !g.struct.value.fields[k].StructPtr?
    ensures SetAt(g, path) ==
            if g.struct.Some? && |path| == 1 && path[0] in g.struct.value.fields
            then ValueSet(g.struct.value.fields[path[0]], []) else None
  {
    StructSetAt(g, path);
    if g.struct.Some? && path != [] && path[0] in g.struct.value.fields {
      ValueSetAt(g.struct.value.fields[path[0]], path[1..]);
    }
  }

  lemma InteriorValues(i: Interior, k: string)
    ensures InteriorField(i, k) ==
            if k in InteriorFields(i).fields then ValueSet(InteriorFields(i).fields[k], []) else None
  {
  }

  lemma InteriorSetAt(i: Option<Interior>, path: Path)
    ensures SetAt(Ptr(i, InteriorFields), path) ==
            if i.Some? && |path| == 1 then InteriorField(i.value, path[0]) else None
  {
    FlatSetAt(Ptr(i, InteriorFields), path);
    if i.Some? && path != [] {
      InteriorValues(i.value, path[0]);
    }
  }

  lemma OthersValues(o: Others, k: string)
    ensures OthersField(o, k) ==
            if k in OthersFields(o).fields then ValueSet(OthersFields(o).fields[k], []) else None
  {
  }

  lemma OthersSetAt(o: Option<Others>, path: Path)
    ensures SetAt(Ptr(o, OthersFields), path) ==
            if o.Some? && |path| == 1 then OthersField(o.value, path[0]) else None
  {
    FlatSetAt(Ptr(o, OthersFields), path);
    if o.Some? && path != [] {
      OthersValues(o.value, path[0]);
    }
  }

  lemma UtilitiesValues(u: UtilityDetails, k: string)
    ensures UtilityField(u, k) ==
            if k in UtilityFields(u).fields then ValueSet(UtilityFields(u).fields[k], []) else None
  {
  }

  lemma UtilitiesSetAt(u: Option<UtilityDetails>, path: Path)
    ensures SetAt(Ptr(u, UtilityFields), path) ==
            if u.Some? && |path| == 1 then UtilityField(u.value, path[0]) else None
  {
    FlatSetAt(Ptr(u, UtilityFields), path);
    if u.Some? && path != [] {
      UtilitiesValues(u.value, path[0]);
    }
  }

  lemma OccupancyValues(o: Occupancy, k: string)
    ensures OccupancyField(o, k) ==
            if k in OccupancyFields(o).fields then ValueSet(OccupancyFields(o).fields[k], []) else None
  {
  }

  lemma OccupancySetAt(o: Option<Occupancy>, path: Path)
    ensures SetAt(Ptr(o, OccupancyFields), path) ==
            if o.Some? && |path| == 1 then OccupancyField(o.value, path[0]) else None
  {
    FlatSetAt(Ptr(o, OccupancyFields), path);
    if o.Some? && path != [] {
      OccupancyValues(o.value, path[0]);
    }
  }

  lemma DetailsValues(d: PropertyDetails, k: string)
    ensures DetailsField(d, k) ==
            if k in DetailsFields(d).fields then ValueSet(DetailsFields(d).fields[k], []) else None
  {
  }

  lemma DetailsSetAt(d: Option<PropertyDetails>, path: Path)
    requires Encodable(Ptr(d, DetailsFields))
    ensures SetAt(Ptr(d, DetailsFields), path) ==
            if d.Some? && |path| == 1 then DetailsField(d.value, path[0]) else None
  {
    FlatSetAt(Ptr(d, DetailsFields), path);
    if d.Some? && path != [] {
      DetailsValues(d.value, path[0]);
    }
  }

  lemma PartSetAt(a: AdditionalInfo, part: string, path: Path)
    requires part in InfoFields(a).fields
    ensures Encodable(InfoFields(a).fields[part])
    ensures SetAt(InfoFields(a).fields[part], path) == if |path| == 1 then InfoField(a, part, path[0]) else None
  {
    if part == "interior" {
      InteriorSetAt(a.interior, path);
    } else if part == "others" {
      OthersSetAt(a.others, path);
    } else {
      UtilitiesSetAt(a.utilityDetails, path);
    }
  }

  lemma InfoSetAt(a: Option<AdditionalInfo>, path: Path)
    requires Encodable(Ptr(a, InfoFields))
    ensures SetAt(Ptr(a, InfoFields), path) ==
            if a.Some? && |path| == 2 then InfoField(a.value, path[0], path[1]) else None
  {
    StructSetAt(Ptr(a, InfoFields), path);
    if a.Some? && path != [] && path[0] in InfoFields(a.value).fields {
      PartSetAt(a.value, path[0], path[1..]);
    }
  }

  /** What encoding leaves of a patch is what its fields say. */
  lemma RootSetAt(p: Patch, path: Path)
    requires Encodable(Root(p))
    ensures SetAt(Root(p), path) == FieldAt(p, path)
  {
    var fields := PatchFields(p).fields;
    StructSetAt(Root(p), path);
    if path != [] && path[0] in fields {
      var g, rest := fields[path[0]], path[1..];
      if path[0] == "propertyDetails" {
        DetailsSetAt(p.propertyDetails, rest);
      } else if path[0] == "additionalInfo" {
        InfoSetAt(p.additionalInfo, rest);
      } else if path[0] == "occupancy" {
        OccupancySetAt(p.occupancy, rest);
      } else {
        ValueSetAt(g, rest);
      }
    }
  }

  ghost predicate SetsNothing(g: Go)
    requires Encodable(g)
  {
    forall path :: SetAt(g, path) == None
  }

  ghost predicate SetSame(g: Go, h: Go)
    requires Encodable(g) && Encodable(h)
  {
    forall path :: SetAt(g, path) == SetAt(h, path)
  }

  lemma NothingDecoded(g: Go)
    requires Encodable(g) && !Omitted(g)
    ensures SetsNothing(g) <==> Leafless(Decoded(g))
  {
    forall path: Path
      ensures SetAt(g, path) == LeafAt(Decoded(g), path)
    {
      DecodedLeaf(g, path);
    }
  }

  lemma SameDecoded(g: Go, h: Go)
    requires Encodable(g) && !Omitted(g) && Encodable(h) && !Omitted(h)
    ensures SetSame(g, h) <==> SameLeaves(Decoded(g), Decoded(h))
  {
    forall path: Path
      ensures SetAt(g, path) == SetAt(h, path) <==> LeafAt(Decoded(g), path) == LeafAt(Decoded(h), path)
    {
      DecodedLeaf(g, path);
      DecodedLeaf(h, path);
    }
  }

  // ----- the body -----

  datatype Body = Failed | Nothing | Send(body: Json)

  /** PatchBody as a function of the patch. */
  function BodyOf(p: Patch): Body {
    if !Encodable(Root(p)) then Failed
    else if Prune(Decoded(Root(p))) == Obj(map[]) then Nothing
    else Send(Prune(Decoded(Root(p))))
  }

  /** Only two fields can make a patch unencodable. */
  lemma FailsIff(p: Patch)
    ensures BodyOf(p).Failed? <==>
      p.listingPrice.NonFinite? || (p.propertyDetails.Some? && p.propertyDetails.value.hoaDues == Some(NonFinite))
  {
    var fields := PatchFields(p).fields;
    DetailsEncodable(p.propertyDetails);
    InfoEncodable(p.additionalInfo);
    OccupancyEncodable(p.occupancy);
    assert Encodable(Root(p)) <==> forall k <- fields :: Encodable(fields[k]);
    assert "listingPrice" in fields && "propertyDetails" in fields;
  }

  lemma DetailsEncodable(d: Option<PropertyDetails>)
    ensures Encodable(Ptr(d, DetailsFields)) <==> !(d.Some? && d.value.hoaDues == Some(NonFinite))
  {
    if d.Some? {
      var fields := DetailsFields(d.value).fields;
      assert "hoaDues" in fields;
    }
  }

  lemma InfoEncodable(a: Option<AdditionalInfo>)
    ensures Encodable(Ptr(a, InfoFields))
  {
    if a.Some? {
      var i, o, u := Ptr(a.value.interior, InteriorFields), Ptr(a.value.others, OthersFields),
                     Ptr(a.value.utilityDetails, UtilityFields);
      assert Encodable(i) && Encodable(o) && Encodable(u);
    }
  }

  lemma OccupancyEncodable(o: Option<Occupancy>)
    ensures Encodable(Ptr(o, OccupancyFields))
  {
  }

  /** Every field has its zero value, and every struct that is there is one of zero values. */
  predicate AllZero(p: Patch) {
    && TextsZero(p) && p.propertySize == 0 && p.lotSize == 0 && p.listingPrice == Finite(0.0)
    && p.customRoomTypes == []
    && p.propertyDetails in [None, Some(PropertyDetails("", None, "", "", "", "", "", ""))]
    && p.occupancy in [None, Some(Occupancy("", ""))]
    && (p.additionalInfo.Some? ==> InfoZero(p.additionalInfo.value))
  }

  predicate TextsZero(p: Patch) {
    && p.propertyType == "" && p.bedrooms == "" && p.bathrooms == "" && p.yearBuilt == ""
    && p.dealType == "" && p.creativeStructure == ""
  }

  predicate InfoZero(a: AdditionalInfo) {
    && a.interior in [None, Some(Interior([], []))] && a.others in [None, Some(Others([], [], "", ""))]
    && a.utilityDetails in [None, Some(UtilityDetails([], [], []))]
  }

  lemma TopSilent(p: Patch)
    requires p.listingPrice.Finite? && forall k :: TopField(p, k) == None
    ensures TextsZero(p) && p.propertySize == 0 && p.lotSize == 0 && p.listingPrice == Finite(0.0)
    ensures p.customRoomTypes == []
  {
    assert TopField(p, "propertyType").None? && TopField(p, "bedrooms").None? && TopField(p, "bathrooms").None?;
    assert TopField(p, "yearBuilt").None? && TopField(p, "dealType").None? && TopField(p, "creativeStructure").None?;
    assert TopField(p, "propertySize").None? && TopField(p, "lotSize").None? && TopField(p, "listingPrice").None?;
    assert TopField(p, "customRoomTypes").None?;
  }

  lemma DetailsSilent(d: PropertyDetails)
    requires d.hoaDues != Some(NonFinite) && forall k :: DetailsField(d, k) == None
    ensures d == PropertyDetails("", None, "", "", "", "", "", "")
  {
    assert DetailsField(d, "apn").None? && DetailsField(d, "hoaDues").None?;
    assert DetailsField(d, "hoaDuesFrequency").None?;
    assert DetailsField(d, "legalDescription").None? && DetailsField(d, "subdivisionName").None?;
    assert DetailsField(d, "waterType").None? && DetailsField(d, "wasteType").None?;
    assert DetailsField(d, "electricSupply").None?;
  }

  lemma OccupancySilent(o: Occupancy)
    requires forall k :: OccupancyField(o, k) == None
    ensures o == Occupancy("", "")
  {
    assert OccupancyField(o, "occupancyAtClosing").None? && OccupancyField(o, "currentOccupancy").None?;
  }

  lemma InfoSilent(a: AdditionalInfo)
    requires forall part, k :: InfoField(a, part, k) == None
    ensures InfoZero(a)
  {
    assert InfoField(a, "interior", "appliances").None? && InfoField(a, "interior", "flooring").None?;
    assert InfoField(a, "others", "exteriorMaterial").None? && InfoField(a, "others", "indoorFeatures").None?;
    assert InfoField(a, "others", "roofAge").None? && InfoField(a, "others", "foundation").None?;
    assert InfoField(a, "utilityDetails", "cooling").None? && InfoField(a, "utilityDetails", "heating").None?;
    assert InfoField(a, "utilityDetails", "heatingFuel").None?;
  }

  /** Nothing is said at the paths into one of the structs. */
  lemma PartsSilent(p: Patch)
    requires !BodyOf(p).Failed? && forall path :: FieldAt(p, path) == None
    ensures p.propertyDetails in [None, Some(PropertyDetails("", None, "", "", "", "", "", ""))]
    ensures p.occupancy in [None, Some(Occupancy("", ""))]
  {
    FailsIff(p);
    if p.propertyDetails.Some? {
      forall k: string
        ensures DetailsField(p.propertyDetails.value, k) == None
      {
        assert FieldAt(p, ["propertyDetails", k]) == DetailsField(p.propertyDetails.value, k);
      }
      DetailsSilent(p.propertyDetails.value);
    }
    if p.occupancy.Some? {
      forall k: string
        ensures OccupancyField(p.occupancy.value, k) == None
      {
        assert FieldAt(p, ["occupancy", k]) == OccupancyField(p.occupancy.value, k);
      }
      OccupancySilent(p.occupancy.value);
    }
  }

  /** A patch all of whose fields are silent is zero throughout. */
  lemma Silent(p: Patch)
    requires !BodyOf(p).Failed? && forall path :: FieldAt(p, path) == None
    ensures AllZero(p)
  {
    FailsIff(p);
    forall k: string
      ensures TopField(p, k) == None
    {
      assert FieldAt(p, [k]) == TopField(p, k);
    }
    TopSilent(p);
    PartsSilent(p);
    if p.additionalInfo.Some? {
      forall part: string, k: string
        ensures InfoField(p.additionalInfo.value, part, k) == None
      {
        assert FieldAt(p, ["additionalInfo", part, k]) == InfoField(p.additionalInfo.value, part, k);
      }
      InfoSilent(p.additionalInfo.value);
    }
  }

  lemma ZeroIsSilent(p: Patch, path: Path)
    requires AllZero(p)
    ensures FieldAt(p, path) == None
  {
  }

  /** There is nothing to send exactly when every field is zero, however many structs of zeros the patch carries. */
  lemma NothingIff(p: Patch)
    requires !BodyOf(p).Failed?
    ensures BodyOf(p).Nothing? <==> AllZero(p)
    ensures BodyOf(p).Nothing? <==> SetsNothing(Root(p))
  {
    PrunedAwayIffNoLeaf(Decoded(Root(p)));
    NothingDecoded(Root(p));
    forall path: Path
      ensures SetAt(Root(p), path) == FieldAt(p, path)
    {
      RootSetAt(p, path);
    }
    if AllZero(p) {
      forall path: Path
        ensures FieldAt(p, path) == None
      {
        ZeroIsSilent(p, path);
      }
    } else if SetsNothing(Root(p)) {
      assert forall path :: FieldAt(p, path) == SetAt(Root(p), path);
      Silent(p);
    }
  }

  /**
   The body has, at every path, what the patch's field there says, nothing else, and no empty object. A zero field
   says nothing, so there is no empty text, no empty list, and no zero but behind a pointer.
   */
  lemma BodyExact(p: Patch)
    requires BodyOf(p).Send?
    ensures Normal(BodyOf(p).body) && BodyOf(p).body.Obj?
    ensures forall path :: LeafAt(BodyOf(p).body, path) == FieldAt(p, path) == SetAt(Root(p), path)
    ensures forall path ::
      LeafAt(BodyOf(p).body, path) != Some(Text("")) && LeafAt(BodyOf(p).body, path) != Some(Arr([]))
    ensures forall path ::
      LeafAt(BodyOf(p).body, path) == Some(Num(0.0)) ==> path == ["propertyDetails", "hoaDues"]
  {
    PruneIsNormal(Decoded(Root(p)));
    forall path: Path
      ensures LeafAt(BodyOf(p).body, path) == FieldAt(p, path) == SetAt(Root(p), path)
      ensures FieldAt(p, path) != Some(Text("")) && FieldAt(p, path) != Some(Arr([]))
      ensures FieldAt(p, path) == Some(Num(0.0)) ==> path == ["propertyDetails", "hoaDues"]
    {
      PruneKeepsLeaf(Decoded(Root(p)), path);
      DecodedLeaf(Root(p), path);
      RootSetAt(p, path);
      NoZeroAt(p, path);
    }
  }

  lemma NonZeroStaysNonZero(n: Int64)
    requires n != 0
    ensures FloatOfInt(n) != 0.0
  {
    RoundToIsNear(Magnitude(n), Ulp(Magnitude(n)));
    if TWO_TO_THE_53 <= Magnitude(n) {
      SignificandHas53Bits(Magnitude(n));
    }
  }

  /** No field says an empty text or an empty list, and only a pointer can say a zero. */
  lemma NoZeroAt(p: Patch, path: Path)
    ensures FieldAt(p, path) != Some(Text("")) && FieldAt(p, path) != Some(Arr([]))
    ensures FieldAt(p, path) == Some(Num(0.0)) ==> path == ["propertyDetails", "hoaDues"]
  {
    if p.propertySize != 0 {
      NonZeroStaysNonZero(p.propertySize);
    }
    if p.lotSize != 0 {
      NonZeroStaysNonZero(p.lotSize);
    }
  }

  /** Two patches are sent as the same body exactly when their fields say the same at every path. */
  lemma SameBodyIff(p: Patch, q: Patch)
    requires !BodyOf(p).Failed? && !BodyOf(q).Failed?
    ensures BodyOf(p) == BodyOf(q) <==> forall path :: FieldAt(p, path) == FieldAt(q, path)
  {
    PruneCanonical(Decoded(Root(p)), Decoded(Root(q)));
    SameDecoded(Root(p), Root(q));
    forall path: Path
      ensures SetAt(Root(p), path) == FieldAt(p, path) && SetAt(Root(q), path) == FieldAt(q, path)
    {
      RootSetAt(p, path);
      RootSetAt(q, path);
    }
    assert SetSame(Root(p), Root(q)) <==> forall path :: FieldAt(p, path) == FieldAt(q, path);
  }

  /** What a field says is sent. */
  lemma SentAt(p: Patch, path: Path)
    requires !BodyOf(p).Failed? && FieldAt(p, path).Some?
    ensures BodyOf(p).Send? && LeafAt(BodyOf(p).body, path) == FieldAt(p, path)
  {
    NothingIff(p);
    if AllZero(p) {
      ZeroIsSilent(p, path);
    } else {
      BodyExact(p);
    }
  }

  /** A pointer to a number is sent whatever the number, zero included. */
  lemma HoaDuesSent(p: Patch, dues: real)
    requires !BodyOf(p).Failed? && p.propertyDetails.Some? && p.propertyDetails.value.hoaDues == Some(Finite(dues))
    ensures BodyOf(p).Send?
    ensures LeafAt(BodyOf(p).body, ["propertyDetails", "hoaDues"]) == Some(Num(dues))
  {
    SentAt(p, ["propertyDetails", "hoaDues"]);
  }

  /** The list of custom room types arrives as it is, with the objects in it that have empty strings. */
  lemma RoomTypesUntouched(p: Patch)
    requires !BodyOf(p).Failed? && p.customRoomTypes != []
    ensures BodyOf(p).Send? && LeafAt(BodyOf(p).body, ["customRoomTypes"]).Some?
    ensures WrittenOut(LeafAt(BodyOf(p).body, ["customRoomTypes"]).value, p.customRoomTypes)
  {
    assert FieldAt(p, ["customRoomTypes"]) == RoomsSet(p.customRoomTypes);
    SentAt(p, ["customRoomTypes"]);
  }

  /** A set size arrives exactly when the spacing of float64 values around it divides it. */
  lemma SizeArrivesIff(p: Patch)
    requires !BodyOf(p).Failed? && p.propertySize != 0
    ensures BodyOf(p).Send?
    ensures LeafAt(BodyOf(p).body, ["propertySize"]) == Some(Num(p.propertySize as real)) <==>
            Magnitude(p.propertySize) % Ulp(Magnitude(p.propertySize)) == 0
  {
    SentAt(p, ["propertySize"]);
    IntSurvivesIff(p.propertySize);
  }

  /** PatchBody: encode, decode into fresh maps, prune them in place. */
  method PatchBody(p: Patch) returns (failed: bool, body: JsonHeap.Node?)
    ensures failed <==> BodyOf(p).Failed?
    ensures body == null <==> failed || AllZero(p)
    ensures body != null ==> fresh(body.repr) && body.Valid() && BodyOf(p) == Send(body.tree)
    ensures body != null ==> forall path :: LeafAt(body.tree, path) == FieldAt(p, path)
  {
    if !BodyOf(p).Failed? {
      NothingIff(p);
    }
    if BodyOf(p).Send? {
      BodyExact(p);
    }
    failed, body := !Encodable(Root(p)), null;
    if !failed {
      var n := JsonHeap.Load(Decoded(Root(p)));
      JsonHeap.PruneEmptyObjects(n);
      var empty := n.IsEmpty();
      body := if empty then null else n;
    }
  }

  // ----- reading a body back -----

  /** What is sent for a value: nothing for one that is omitted or that pruning leaves empty. */
  function Sent(g: Go): Option<Json>
    requires Encodable(g)
  {
    if Omitted(g) || Prune(Decoded(g)) == Obj(map[]) then None else Some(Prune(Decoded(g)))
  }

  /** The field `k` of an object, if there is such an object and field. */
  function Field(j: Option<Json>, k: string): Option<Json> {
    if j.Some? && j.value.Obj? && k in j.value.fields then Some(j.value.fields[k]) else None
  }

  function ReadText(j: Option<Json>): string {
    match j case Some(Text(s)) => s case _ => ""
  }

  function ReadNumber(j: Option<Json>): Option<real> {
    match j case Some(Num(n)) => Some(n) case _ => None
  }

  function ReadTexts(j: Option<Json>): seq<string> {
    match j
    case Some(Arr(items)) => seq(|items|, i requires 0 <= i < |items| => ReadText(Some(items[i])))
    case _ => []
  }

  function ReadRooms(j: Option<Json>): seq<CustomRoomType> {
    match j
    case Some(Arr(items)) =>
      seq(|items|, i requires 0 <= i < |items| =>
        CustomRoomType(ReadText(Field(Some(items[i]), "id")), ReadText(Field(Some(items[i]), "label"))))
    case _ => []
  }

  function ReadDues(j: Option<Json>): Option<Float> {
    match j case Some(Num(n)) => Some(Finite(n)) case _ => None
  }

  function ReadDetails(j: Option<Json>): PropertyDetails {
    PropertyDetails(ReadText(Field(j, "apn")), ReadDues(Field(j, "hoaDues")), ReadText(Field(j, "hoaDuesFrequency")),
                    ReadText(Field(j, "legalDescription")), ReadText(Field(j, "subdivisionName")),
                    ReadText(Field(j, "waterType")), ReadText(Field(j, "wasteType")),
                    ReadText(Field(j, "electricSupply")))
  }

  function ReadInterior(j: Option<Json>): Interior {
    Interior(ReadTexts(Field(j, "appliances")), ReadTexts(Field(j, "flooring")))
  }

  function ReadOthers(j: Option<Json>): Others {
    Others(ReadTexts(Field(j, "exteriorMaterial")), ReadTexts(Field(j, "indoorFeatures")),
           ReadText(Field(j, "roofAge")), ReadText(Field(j, "foundation")))
  }

  function ReadUtilities(j: Option<Json>): UtilityDetails {
    UtilityDetails(ReadTexts(Field(j, "cooling")), ReadTexts(Field(j, "heating")), ReadTexts(Field(j, "heatingFuel")))
  }

  function ReadOccupancy(j: Option<Json>): Occupancy {
    Occupancy(ReadText(Field(j, "occupancyAtClosing")), ReadText(Field(j, "currentOccupancy")))
  }

  function OrElse<T>(o: Option<T>, otherwise: T): T {
    if o.Some? then o.value else otherwise
  }

  lemma SentField(g: Go, k: string)
    requires Encodable(g) && g.StructPtr? && g.struct.Some? && k in g.struct.value.fields
    ensures Field(Sent(g), k) == Sent(g.struct.value.fields[k])
  {
    var field, pruned := g.struct.value.fields[k], Prune(Decoded(g));
    if !Omitted(field) {
      assert Decoded(g).fields[k] == Decoded(field);
      assert k in pruned.fields <==> Prune(Decoded(field)) != Obj(map[]);
    }
  }

  /** The value read at a leaf field is the field's own. */
  predicate ReadsAs(j: Option<Json>, g: Go) {
    match g
    case Chars(s) => ReadText(j) == s
    case Integer(n) => ReadNumber(j) == if n == 0 then None else Some(FloatOfInt(n))
    case Float64(f) => f.Finite? && ReadNumber(j) == if f.r == 0.0 then None else Some(f.r)
    case FloatPtr(p) => ReadDues(j) == p
    case Strings(strings) => ReadTexts(j) == strings
    case Rooms(rooms) => ReadRooms(j) == rooms
    case StructPtr(_) => true
  }

  lemma LeafReadBack(g: Go)
    requires Encodable(g)
    ensures ReadsAs(Sent(g), g)
  {
  }

  /** Every leaf field of the struct can be read back from `j`. */
  ghost predicate Reads(j: Option<Json>, struct: Struct) {
    forall k <- struct.fields :: ReadsAs(Field(j, k), struct.fields[k])
  }

  lemma StructReadBack(g: Go)
    requires Encodable(g) && g.StructPtr? && g.struct.Some?
    ensures Reads(Sent(g), g.struct.value)
  {
    forall k | k in g.struct.value.fields
      ensures ReadsAs(Field(Sent(g), k), g.struct.value.fields[k])
    {
      SentField(g, k);
      LeafReadBack(g.struct.value.fields[k]);
    }
  }

  lemma ReadDetailsBack(j: Option<Json>, d: PropertyDetails)
    requires Reads(j, DetailsFields(d))
    ensures ReadDetails(j) == d
  {
    var fields := DetailsFields(d).fields;
    assert "apn" in fields && "hoaDues" in fields && "hoaDuesFrequency" in fields && "legalDescription" in fields;
    assert "subdivisionName" in fields && "waterType" in fields && "wasteType" in fields && "electricSupply" in fields;
  }

  lemma ReadInteriorBack(j: Option<Json>, i: Interior)
    requires Reads(j, InteriorFields(i))
    ensures ReadInterior(j) == i
  {
    assert "appliances" in InteriorFields(i).fields && "flooring" in InteriorFields(i).fields;
  }

  lemma ReadOthersBack(j: Option<Json>, o: Others)
    requires Reads(j, OthersFields(o))
    ensures ReadOthers(j) == o
  {
    var fields := OthersFields(o).fields;
    assert "exteriorMaterial" in fields && "indoorFeatures" in fields && "roofAge" in fields && "foundation" in fields;
  }

  lemma ReadUtilitiesBack(j: Option<Json>, u: UtilityDetails)
    requires Reads(j, UtilityFields(u))
    ensures ReadUtilities(j) == u
  {
    var fields := UtilityFields(u).fields;
    assert "cooling" in fields && "heating" in fields && "heatingFuel" in fields;
  }

  lemma ReadOccupancyBack(j: Option<Json>, o: Occupancy)
    requires Reads(j, OccupancyFields(o))
    ensures ReadOccupancy(j) == o
  {
    assert "occupancyAtClosing" in OccupancyFields(o).fields && "currentOccupancy" in OccupancyFields(o).fields;
  }

  /** What the receiver of a body learns from it; a missing object reads like one without fields. */
  datatype Received = Received(
    propertyType: string, bedrooms: string, bathrooms: string, yearBuilt: string,
    propertySize: Option<real>, lotSize: Option<real>, listingPrice: Option<real>,
    dealType: string, creativeStructure: string,
    propertyDetails: PropertyDetails, interior: Interior, others: Others, utilityDetails: UtilityDetails,
    occupancy: Occupancy, customRoomTypes: seq<CustomRoomType>)

  function Read(j: Option<Json>): Received {
    var info := Field(j, "additionalInfo");
    Received(
      ReadText(Field(j, "propertyType")), ReadText(Field(j, "bedrooms")),
      ReadText(Field(j, "bathrooms")), ReadText(Field(j, "yearBuilt")),
      ReadNumber(Field(j, "propertySize")), ReadNumber(Field(j, "lotSize")), ReadNumber(Field(j, "listingPrice")),
      ReadText(Field(j, "dealType")), ReadText(Field(j, "creativeStructure")),
      ReadDetails(Field(j, "propertyDetails")),
      ReadInterior(Field(info, "interior")), ReadOthers(Field(info, "others")),
      ReadUtilities(Field(info, "utilityDetails")),
      ReadOccupancy(Field(j, "occupancy")), ReadRooms(Field(j, "customRoomTypes")))
  }

  function NumberOf(n: Int64): Option<real> {
    if n == 0 then None else Some(FloatOfInt(n))
  }

  /** What the patch says, zero values and nil pointers saying nothing. */
  function Said(p: Patch): Received
    requires p.listingPrice.Finite?
  {
    var info := OrElse(p.additionalInfo, AdditionalInfo(None, None, None));
    Received(
      p.propertyType, p.bedrooms, p.bathrooms, p.yearBuilt,
      NumberOf(p.propertySize), NumberOf(p.lotSize), if p.listingPrice.r == 0.0 then None else Some(p.listingPrice.r),
      p.dealType, p.creativeStructure,
      OrElse(p.propertyDetails, PropertyDetails("", None, "", "", "", "", "", "")),
      OrElse(info.interior, Interior([], [])), OrElse(info.others, Others([], [], "", "")),
      OrElse(info.utilityDetails, UtilityDetails([], [], [])),
      OrElse(p.occupancy, Occupancy("", "")), p.customRoomTypes)
  }

  lemma DetailsReadBack(d: Option<PropertyDetails>)
    requires Encodable(Ptr(d, DetailsFields))
    ensures ReadDetails(Sent(Ptr(d, DetailsFields))) == OrElse(d, PropertyDetails("", None, "", "", "", "", "", ""))
  {
    if d.Some? {
      StructReadBack(Ptr(d, DetailsFields));
      ReadDetailsBack(Sent(Ptr(d, DetailsFields)), d.value);
    }
  }

  lemma InteriorReadBack(i: Option<Interior>)
    ensures ReadInterior(Sent(Ptr(i, InteriorFields))) == OrElse(i, Interior([], []))
  {
    if i.Some? {
      StructReadBack(Ptr(i, InteriorFields));
      ReadInteriorBack(Sent(Ptr(i, InteriorFields)), i.value);
    }
  }

  lemma OthersReadBack(o: Option<Others>)
    ensures ReadOthers(Sent(Ptr(o, OthersFields))) == OrElse(o, Others([], [], "", ""))
  {
    if o.Some? {
      StructReadBack(Ptr(o, OthersFields));
      ReadOthersBack(Sent(Ptr(o, OthersFields)), o.value);
    }
  }

  lemma UtilitiesReadBack(u: Option<UtilityDetails>)
    ensures ReadUtilities(Sent(Ptr(u, UtilityFields))) == OrElse(u, UtilityDetails([], [], []))
  {
    if u.Some? {
      StructReadBack(Ptr(u, UtilityFields));
      ReadUtilitiesBack(Sent(Ptr(u, UtilityFields)), u.value);
    }
  }

  lemma OccupancyReadBack(o: Option<Occupancy>)
    ensures ReadOccupancy(Sent(Ptr(o, OccupancyFields))) == OrElse(o, Occupancy("", ""))
  {
    if o.Some? {
      StructReadBack(Ptr(o, OccupancyFields));
      ReadOccupancyBack(Sent(Ptr(o, OccupancyFields)), o.value);
    }
  }

  lemma InfoReadBack(a: AdditionalInfo)
    ensures var info := Sent(Ptr(Some(a), InfoFields));
            && Encodable(Ptr(Some(a), InfoFields))
            && ReadInterior(Field(info, "interior")) == OrElse(a.interior, Interior([], []))
            && ReadOthers(Field(info, "others")) == OrElse(a.others, Others([], [], "", ""))
            && ReadUtilities(Field(info, "utilityDetails")) == OrElse(a.utilityDetails, UtilityDetails([], [], []))
  {
    var g := Ptr(Some(a), InfoFields);
    InfoEncodable(Some(a));
    InteriorReadBack(a.interior);
    OthersReadBack(a.others);
    UtilitiesReadBack(a.utilityDetails);
    SentField(g, "interior");
    SentField(g, "others");
    SentField(g, "utilityDetails");
  }

  lemma FieldRead(j: Option<Json>, struct: Struct, k: string, g: Go)
    requires Reads(j, struct) && k in struct.fields && struct.fields[k] == g
    ensures ReadsAs(Field(j, k), g)
  {
  }

  lemma TextsReadBack(j: Option<Json>, p: Patch)
    requires Reads(j, PatchFields(p))
    ensures ReadText(Field(j, "propertyType")) == p.propertyType && ReadText(Field(j, "bedrooms")) == p.bedrooms
    ensures ReadText(Field(j, "bathrooms")) == p.bathrooms && ReadText(Field(j, "yearBuilt")) == p.yearBuilt
    ensures ReadText(Field(j, "dealType")) == p.dealType
    ensures ReadText(Field(j, "creativeStructure")) == p.creativeStructure
  {
    FieldRead(j, PatchFields(p), "propertyType", Chars(p.propertyType));
    FieldRead(j, PatchFields(p), "bedrooms", Chars(p.bedrooms));
    FieldRead(j, PatchFields(p), "bathrooms", Chars(p.bathrooms));
    FieldRead(j, PatchFields(p), "yearBuilt", Chars(p.yearBuilt));
    FieldRead(j, PatchFields(p), "dealType", Chars(p.dealType));
    FieldRead(j, PatchFields(p), "creativeStructure", Chars(p.creativeStructure));
  }

  lemma NumbersReadBack(j: Option<Json>, p: Patch)
    requires Reads(j, PatchFields(p)) && p.listingPrice.Finite?
    ensures ReadNumber(Field(j, "propertySize")) == NumberOf(p.propertySize)
    ensures ReadNumber(Field(j, "lotSize")) == NumberOf(p.lotSize)
    ensures ReadNumber(Field(j, "listingPrice")) == if p.listingPrice.r == 0.0 then None else Some(p.listingPrice.r)
    ensures ReadRooms(Field(j, "customRoomTypes")) == p.customRoomTypes
  {
    FieldRead(j, PatchFields(p), "propertySize", Integer(p.propertySize));
    FieldRead(j, PatchFields(p), "lotSize", Integer(p.lotSize));
    FieldRead(j, PatchFields(p), "listingPrice", Float64(p.listingPrice));
    FieldRead(j, PatchFields(p), "customRoomTypes", Rooms(p.customRoomTypes));
  }

  lemma DetailsPartReadBack(p: Patch)
    requires Encodable(Root(p)) && p.listingPrice.Finite?
    ensures Read(Sent(Root(p))).propertyDetails == Said(p).propertyDetails
    ensures Read(Sent(Root(p))).occupancy == Said(p).occupancy
  {
    DetailsEncodable(p.propertyDetails);
    OccupancyEncodable(p.occupancy);
    SentField(Root(p), "propertyDetails");
    SentField(Root(p), "occupancy");
    DetailsReadBack(p.propertyDetails);
    OccupancyReadBack(p.occupancy);
  }

  lemma InfoPartReadBack(p: Patch)
    requires Encodable(Root(p)) && p.listingPrice.Finite?
    ensures var read, said := Read(Sent(Root(p))), Said(p);
            read.interior == said.interior && read.others == said.others && read.utilityDetails == said.utilityDetails
  {
    InfoEncodable(p.additionalInfo);
    SentField(Root(p), "additionalInfo");
    if p.additionalInfo.Some? {
      InfoReadBack(p.additionalInfo.value);
    }
  }

  /** Whoever reads the body by its JSON names learns exactly what the patch says. */
  lemma ReadBack(p: Patch)
    requires !BodyOf(p).Failed?
    ensures p.listingPrice.Finite?
    ensures Read(if BodyOf(p).Send? then Some(BodyOf(p).body) else None) == Said(p)
  {
    FailsIff(p);
    StructReadBack(Root(p));
    TextsReadBack(Sent(Root(p)), p);
    NumbersReadBack(Sent(Root(p)), p);
    DetailsPartReadBack(p);
    InfoPartReadBack(p);
  }

  // ----- the response -----

  const EDITABLE_KEYS := [
    "propertyType", "bedrooms", "bathrooms", "yearBuilt", "propertySize", "lotSize",
    "listingPrice", "dealType", "creativeStructure", "propertyDetails",
    "additionalInfo", "occupancy", "customRoomTypes"
  ]

  /** The listed attributes that are there and not null. */
  function Kept(property: map<string, Json>, keys: seq<string>): map<string, Json> {
    map k | k in property && k in keys && property[k] != Null :: property[k]
  }

  method Keep(property: map<string, Json>, keys: seq<string>) returns (out: map<string, Json>)
    ensures out == Kept(property, keys)
  {
    out := map[];
    for i := 0 to |keys|
      invariant out == Kept(property, keys[..i])
    {
      var k := keys[i];
      if k in property && property[k] != Null {
        out := out[k := property[k]];
      }
      assert keys[..i + 1] == keys[..i] + [k];
    }
    assert keys[..|keys|] == keys;
  }

  /** Some patch sends this attribute. */
  ghost predicate Settable(k: string) {
    exists p :: BodyOf(p).Send? && k in BodyOf(p).body.fields
  }

  const EVERYTHING := Patch(
    "x", "x", "x", "x", 1, 1, Finite(1.0), "x", "x",
    Some(PropertyDetails("x", None, "x", "x", "x", "x", "x", "x")),
    Some(AdditionalInfo(Some(Interior(["x"], [])), None, None)), Some(Occupancy("x", "x")), [CustomRoomType("x", "x")])

  lemma EverythingSent()
    ensures BodyOf(EVERYTHING).Send?
  {
    FailsIff(EVERYTHING);
    NothingIff(EVERYTHING);
  }

  lemma EverythingSays(k: string) returns (path: Path)
    requires k in EDITABLE_KEYS
    ensures path != [] && path[0] == k && FieldAt(EVERYTHING, path).Some?
  {
    path :=
      if k == "propertyDetails" then [k, "apn"]
      else if k == "additionalInfo" then [k, "interior", "appliances"]
      else if k == "occupancy" then [k, "currentOccupancy"] else [k];
  }

  lemma SentUnder(p: Patch, path: Path)
    requires BodyOf(p).Send? && path != [] && FieldAt(p, path).Some?
    ensures BodyOf(p).body.Obj? && path[0] in BodyOf(p).body.fields
  {
    BodyExact(p);
    assert LeafAt(BodyOf(p).body, path).Some?;
  }

  lemma SentAreEditable(p: Patch)
    requires BodyOf(p).Send?
    ensures forall k <- BodyOf(p).body.fields :: k in EDITABLE_KEYS
  {
    forall k | k in BodyOf(p).body.fields
      ensures k in EDITABLE_KEYS
    {
      assert k in PatchFields(p).fields;
    }
  }

  /** Whatever a patch sends is shown afterwards, if the returned property has it. */
  lemma SentIsShown(p: Patch, property: map<string, Json>)
    requires BodyOf(p).Send?
    ensures forall k <- BodyOf(p).body.fields :: k in property && property[k] != Null ==>
              k in Kept(property, EDITABLE_KEYS) && Kept(property, EDITABLE_KEYS)[k] == property[k]
  {
    SentAreEditable(p);
  }

  /** The editable attributes are exactly those that some patch can send. */
  lemma EditableIffSettable(k: string)
    ensures k in EDITABLE_KEYS <==> Settable(k)
  {
    if k in EDITABLE_KEYS {
      EverythingSent();
      var path := EverythingSays(k);
      SentUnder(EVERYTHING, path);
    }
    if Settable(k) {
      var p :| BodyOf(p).Send? && k in BodyOf(p).body.fields;
      SentAreEditable(p);
    }
  }

  /** UpdateProperty's loop over the returned property. */
  method Surface(property: map<string, Json>) returns (out: map<string, Json>)
    ensures forall k :: k in out <==> k in property && property[k] != Null && Settable(k)
    ensures forall k <- out :: out[k] == property[k]
  {
    out := Keep(property, EDITABLE_KEYS);
    forall k: string
      ensures k in EDITABLE_KEYS <==> Settable(k)
    {
      EditableIffSettable(k);
    }
  }
}
