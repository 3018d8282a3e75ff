/** The underwriting tools up to the API call: input checks in their order, and the request an accepted call sends. */
module Underwriting {
  import opened Basics
  import opened Text
  import opened Url
  import opened JsonTree
  import opened Registry
  import R = Routes

  // ----- rooms -----

  datatype Cost = Cost(materialCost: Option<real>, laborCost: Option<real>, squareFeet: Option<real>,
                       total: Option<real>)

  datatype LineItem = LineItem(name: Str, cost: Option<Cost>)

  datatype Ai = Ai(threadId: Str, estimateId: Str, generatedImage: Option<Str>, finishGrade: Option<Str>,
                   rehabLevel: Option<Str>)

  /** A room patch; all of its fields are `omitempty`. */
  datatype Room = Room(name: Option<Str>, source: Option<Str>, squareFootage: Option<real>, hasEnSuite: Option<bool>,
                       cost: Option<Cost>, lineItems: seq<LineItem>, ai: Option<Ai>)

  const EMPTY_ROOM := Room(None, None, None, None, None, [], None)

  // ----- requests -----

  const STRATEGY: Str := "strategy"
  const VERSION_ID: Str := "versionId"
  const CREATE_NEW: Str := "createNew"
  const VERSION_NAME: Str := "versionName"
  const CLONE: Str := "clone"
  const TRUE: Str := "true"
  const POST_RENOVATION: Str := "postRenovation"
  const NO_NAME: Str := ""

  datatype Selector = Selector(versionId: Str, createNew: bool, versionName: Str)

  datatype Verb = Post | Patch

  datatype Body = NoBody | Data(data: map<Str, Json>) | Value(value: Json) | RoomPatch(room: Room)

  datatype Request = Request(verb: Verb, path: Str, query: Values, body: Body)

  function StrategyQuery(strategy: Str): Values {
    Set(map[], STRATEGY, strategy)
  }

  function Selected(sel: Selector, query: Values): Values {
    var q1 := if sel.versionId != "" then Set(query, VERSION_ID, sel.versionId) else query;
    var q2 := if sel.createNew then Set(q1, CREATE_NEW, TRUE) else q1;
    if sel.versionName != "" then Set(q2, VERSION_NAME, sel.versionName) else q2
  }

  /** VersionSelector.apply: the three parameters are set as the selector says, and nothing else changes. */
  method Apply(sel: Selector, query: Values) returns (q: Values)
    ensures q == Selected(sel, query)
    ensures Lookup(q, VERSION_ID) == if sel.versionId != "" then [sel.versionId] else Lookup(query, VERSION_ID)
    ensures Lookup(q, CREATE_NEW) == if sel.createNew then [TRUE] else Lookup(query, CREATE_NEW)
    ensures Lookup(q, VERSION_NAME) == if sel.versionName != "" then [sel.versionName] else Lookup(query, VERSION_NAME)
    ensures forall k :: k !in {VERSION_ID, CREATE_NEW, VERSION_NAME} ==> Lookup(q, k) == Lookup(query, k)
    ensures Full(query) ==> Full(q)
  {
    KeysDiffer();
    q := query;
    if sel.versionId != "" {
      q := Set(q, VERSION_ID, sel.versionId);
    }
    if sel.createNew {
      q := Set(q, CREATE_NEW, TRUE);
    }
    if sel.versionName != "" {
      q := Set(q, VERSION_NAME, sel.versionName);
    }
  }

  /** What a write says about its version: these parameters and no others. */
  ghost predicate SaysVersion(q: Values, strategy: Str, versionId: Str, createNew: bool, versionName: Str) {
    && Full(q) && q.Keys <= {STRATEGY, VERSION_ID, CREATE_NEW, VERSION_NAME}
    && Lookup(q, STRATEGY) == [strategy]
    && Lookup(q, VERSION_ID) == (if versionId != "" then [versionId] else [])
    && Lookup(q, CREATE_NEW) == (if createNew then [TRUE] else [])
    && Lookup(q, VERSION_NAME) == (if versionName != "" then [versionName] else [])
  }

  lemma KeysDiffer()
    ensures STRATEGY != VERSION_ID && STRATEGY != CREATE_NEW && STRATEGY != VERSION_NAME && STRATEGY != CLONE
    ensures VERSION_ID != CREATE_NEW && VERSION_ID != VERSION_NAME && VERSION_ID != CLONE
    ensures CREATE_NEW != VERSION_NAME && CREATE_NEW != CLONE && VERSION_NAME != CLONE
  {
    assert |STRATEGY| == 8 && |VERSION_ID| == 9 && |CREATE_NEW| == 9 && |VERSION_NAME| == 11 && |CLONE| == 5;
    assert VERSION_ID[0] == 'v' && CREATE_NEW[0] == 'c';
  }

  lemma SelectedSays(sel: Selector, strategy: Str)
    ensures SaysVersion(Selected(sel, StrategyQuery(strategy)), strategy, sel.versionId, sel.createNew, sel.versionName)
  {
    KeysDiffer();
  }

  function Outcome(problem: Option<Error>, request: Request): Result<Request> {
    if problem.Some? then Err(problem.value) else Ok(request)
  }

  // ----- create_underwriting_section -----

  datatype CreateInput = CreateInput(propertyId: Str, strategy: Str, section: Str, data: map<Str, Json>,
                                     versionId: Str, createNew: bool, versionName: Str)

  function DataProblem(table: Table, i: CreateInput): Option<Error> {
    if i.data == map[] then Some(DataRequired)
    else if exists key <- i.data :: PathProblem(table, i.strategy, i.section, key).Some? then Some(UnknownField)
    else None
  }

  function CreateProblem(table: Table, i: CreateInput): Option<Error> {
    Then(PropertyProblem(i.propertyId),
    Then(StrategyProblem(i.strategy),
    Then(SectionProblem(table, i.strategy, i.section),
    Then(DataProblem(table, i),
         VersionProblem(i.versionId, i.createNew, i.versionName, false)))))
  }

  function CreateRequest(i: CreateInput): Request {
    var sel := Selector(i.versionId, i.createNew, NameFor(i.createNew, i.versionName));
    Request(Post, R.SectionPath(i.propertyId, i.section), Selected(sel, StrategyQuery(i.strategy)), Data(i.data))
  }

  /** The loop over the keys of `data`, in any order. */
  method CheckData(table: Table, i: CreateInput) returns (problem: Option<Error>)
    ensures problem == DataProblem(table, i)
    ensures problem ==
            if i.data == map[] then Some(DataRequired)
            else if exists key <- i.data :: !Lists(table, i.strategy, i.section, key) then Some(UnknownField)
            else None
  {
    var todo := i.data.Keys;
    if todo == {} {
      return Some(DataRequired);
    }
    while todo != {}
      invariant todo <= i.data.Keys
      invariant forall key <- i.data.Keys - todo :: PathProblem(table, i.strategy, i.section, key).None?
      decreases todo
    {
      var key :| key in todo;
      todo := todo - {key};
      if PathProblem(table, i.strategy, i.section, key).Some? {
        return Some(UnknownField);
      }
    }
    problem := None;
  }

  /** What all tools check first. */
  method CheckTarget(propertyId: Str, strategy: Str) returns (problem: Option<Error>)
    ensures problem == Then(PropertyProblem(propertyId), StrategyProblem(strategy))
  {
    problem := PropertyProblem(propertyId);
    if problem.None? {
      problem := StrategyProblem(strategy);
    }
  }

  /** Everything that is wrong with an input. */
  predicate CreateFault(table: Table, i: CreateInput, e: Error) {
    || TargetFault(e, i.propertyId, i.strategy)
    || SectionFault(e, table, i.strategy, i.section)
    || (e.DataRequired? && i.data == map[])
    || (e.UnknownField? && exists key <- i.data :: !Lists(table, i.strategy, i.section, key))
    || VersionFault(e, i.versionId, i.createNew, i.versionName, false)
  }

  predicate DataFault(table: Table, i: CreateInput, e: Error) {
    || (e.DataRequired? && i.data == map[])
    || (e.UnknownField? && exists key <- i.data :: !Lists(table, i.strategy, i.section, key))
  }

  lemma DataReports(table: Table, i: CreateInput)
    ensures Reports(DataProblem(table, i), e => DataFault(table, i, e)) && Within(e => DataFault(table, i, e), 5, 7)
  {
  }

  /** The checks of the target and the section, which create and update share. */
  predicate PlaceFault(e: Error, table: Table, propertyId: Str, strategy: Str, section: Str) {
    TargetFault(e, propertyId, strategy) || SectionFault(e, table, strategy, section)
  }

  function PlaceProblem(table: Table, propertyId: Str, strategy: Str, section: Str): Option<Error> {
    Then(Then(PropertyProblem(propertyId), StrategyProblem(strategy)), SectionProblem(table, strategy, section))
  }

  lemma PlaceReports(table: Table, propertyId: Str, strategy: Str, section: Str)
    ensures Reports(PlaceProblem(table, propertyId, strategy, section),
                    e => PlaceFault(e, table, propertyId, strategy, section))
    ensures Within(e => PlaceFault(e, table, propertyId, strategy, section), 0, 5)
  {
    TargetReports(propertyId, strategy);
    SectionReports(table, strategy, section);
    ThenReports(Then(PropertyProblem(propertyId), StrategyProblem(strategy)), SectionProblem(table, strategy, section),
                e => TargetFault(e, propertyId, strategy), e => SectionFault(e, table, strategy, section),
                e => PlaceFault(e, table, propertyId, strategy, section), 3, 5);
  }

  lemma CreateReports(table: Table, i: CreateInput)
    ensures Reports(CreateProblem(table, i), e => CreateFault(table, i, e))
  {
    var place, version := PlaceProblem(table, i.propertyId, i.strategy, i.section),
                          VersionProblem(i.versionId, i.createNew, i.versionName, false);
    var placeFault := e => PlaceFault(e, table, i.propertyId, i.strategy, i.section);
    var dataFault := e => DataFault(table, i, e);
    PlaceReports(table, i.propertyId, i.strategy, i.section);
    DataReports(table, i);
    VersionReports(i.versionId, i.createNew, i.versionName, false);
    var upToData := e => placeFault(e) || dataFault(e);
    ThenReports(place, DataProblem(table, i), placeFault, dataFault, upToData, 5, 15);
    ThenReports(Then(place, DataProblem(table, i)), version, upToData,
                e => VersionFault(e, i.versionId, i.createNew, i.versionName, false),
                e => CreateFault(table, i, e), 15, 19);
  }

  /** The name that goes with a selection: none without createNew. */
  function NameFor(createNew: bool, versionName: Str): Str {
    if createNew then versionName else NO_NAME
  }

  lemma CreateSends(i: CreateInput)
    ensures R.ParseRoute(CreateRequest(i).path) == Some(R.Section(i.propertyId, i.section))
    ensures SaysVersion(CreateRequest(i).query, i.strategy, i.versionId, i.createNew,
                        NameFor(i.createNew, i.versionName))
  {
    R.SectionReadBack(i.propertyId, i.section);
    SelectedSays(Selector(i.versionId, i.createNew, NameFor(i.createNew, i.versionName)), i.strategy);
  }

  /**
   create_underwriting_section up to the API call: the earliest fault of the input, or else a POST of the data
   to the section's route, with the strategy and the selected version for its query.
   */
  method CreateSection(table: Table, i: CreateInput) returns (r: Result<Request>)
    ensures r == Outcome(CreateProblem(table, i), CreateRequest(i))
    ensures Reports(if r.Err? then Some(r.error) else None, e => CreateFault(table, i, e))
    ensures r.Ok? ==>
      && r.value.verb == Post && r.value.body == Data(i.data)
      && R.ParseRoute(r.value.path) == Some(R.Section(i.propertyId, i.section))
      && SaysVersion(r.value.query, i.strategy, i.versionId, i.createNew,
                     if i.createNew then i.versionName else NO_NAME)
  {
    CreateReports(table, i);
    CreateSends(i);
    var problem := CheckTarget(i.propertyId, i.strategy);
    if problem.Some? {
      return Err(problem.value);
    }
    problem := SectionProblem(table, i.strategy, i.section);
    if problem.Some? {
      return Err(problem.value);
    }
    problem := CheckData(table, i);
    if problem.Some? {
      return Err(problem.value);
    }
    problem := VersionProblem(i.versionId, i.createNew, i.versionName, false);
    if problem.Some? {
      return Err(problem.value);
    }
    var sel := Selector(i.versionId, i.createNew, NO_NAME);
    if i.createNew {
      sel := sel.(versionName := i.versionName);
    }
    var q := Apply(sel, StrategyQuery(i.strategy));
    return Ok(Request(Post, R.SectionPath(i.propertyId, i.section), q, Data(i.data)));
  }

  // ----- update_underwriting_section -----

  datatype UpdateInput = UpdateInput(propertyId: Str, strategy: Str, section: Str, path: Str, value: Json,
                                     versionId: Str, createNew: bool)

  function ValueProblem(value: Json): Option<Error> {
    if value.Null? then Some(ValueNull) else if value == Obj(map[]) then Some(ValueEmptyObject) else None
  }

  function UpdateProblem(table: Table, i: UpdateInput): Option<Error> {
    Then(PropertyProblem(i.propertyId),
    Then(StrategyProblem(i.strategy),
    Then(SectionProblem(table, i.strategy, i.section),
    Then(PathProblem(table, i.strategy, i.section, i.path),
    Then(ValueProblem(i.value),
         VersionProblem(i.versionId, i.createNew, NO_NAME, false))))))
  }

  function UpdateRequest(i: UpdateInput): Request {
    Request(Patch, R.FieldPath(i.propertyId, i.section, i.path),
            Selected(Selector(i.versionId, i.createNew, NO_NAME), StrategyQuery(i.strategy)), Value(i.value))
  }

  /** Everything that is wrong with an input. */
  predicate UpdateFault(table: Table, i: UpdateInput, e: Error) {
    || TargetFault(e, i.propertyId, i.strategy)
    || SectionFault(e, table, i.strategy, i.section)
    || (e.PathInvalid? && !Lists(table, i.strategy, i.section, i.path))
    || (e.ValueNull? && i.value.Null?)
    || (e.ValueEmptyObject? && i.value == Obj(map[]))
    || VersionFault(e, i.versionId, i.createNew, NO_NAME, false)
  }

  predicate FieldFault(table: Table, i: UpdateInput, e: Error) {
    || (e.PathInvalid? && !Lists(table, i.strategy, i.section, i.path))
    || (e.ValueNull? && i.value.Null?)
    || (e.ValueEmptyObject? && i.value == Obj(map[]))
  }

  function FieldProblem(table: Table, i: UpdateInput): Option<Error> {
    Then(PathProblem(table, i.strategy, i.section, i.path), ValueProblem(i.value))
  }

  lemma FieldReports(table: Table, i: UpdateInput)
    ensures Reports(FieldProblem(table, i), e => FieldFault(table, i, e)) && Within(e => FieldFault(table, i, e), 5, 15)
  {
  }

  lemma UpdateReports(table: Table, i: UpdateInput)
    ensures Reports(UpdateProblem(table, i), e => UpdateFault(table, i, e))
  {
    var place, version := PlaceProblem(table, i.propertyId, i.strategy, i.section),
                          VersionProblem(i.versionId, i.createNew, NO_NAME, false);
    var placeFault := e => PlaceFault(e, table, i.propertyId, i.strategy, i.section);
    var fieldFault := e => FieldFault(table, i, e);
    PlaceReports(table, i.propertyId, i.strategy, i.section);
    FieldReports(table, i);
    VersionReports(i.versionId, i.createNew, NO_NAME, false);
    var upToField := e => placeFault(e) || fieldFault(e);
    ThenReports(place, FieldProblem(table, i), placeFault, fieldFault, upToField, 5, 15);
    ThenReports(Then(place, FieldProblem(table, i)), version, upToField,
                e => VersionFault(e, i.versionId, i.createNew, NO_NAME, false), e => UpdateFault(table, i, e), 15, 19);
  }

  lemma UpdateSends(i: UpdateInput)
    ensures R.ParseRoute(UpdateRequest(i).path) == Some(R.Field(i.propertyId, i.section, i.path))
    ensures SaysVersion(UpdateRequest(i).query, i.strategy, i.versionId, i.createNew, NO_NAME)
  {
    R.FieldReadBack(i.propertyId, i.section, i.path);
    SelectedSays(Selector(i.versionId, i.createNew, NO_NAME), i.strategy);
  }

  /**
   update_underwriting_section up to the API call: the earliest fault of the input, or else a PATCH of the
   value to the field's route, with the strategy and the selected version, never a name, for its query.
   */
  method UpdateSection(table: Table, i: UpdateInput) returns (r: Result<Request>)
    ensures r == Outcome(UpdateProblem(table, i), UpdateRequest(i))
    ensures Reports(if r.Err? then Some(r.error) else None, e => UpdateFault(table, i, e))
    ensures r.Ok? ==>
      && r.value.verb == Patch && r.value.body == Value(i.value)
      && R.ParseRoute(r.value.path) == Some(R.Field(i.propertyId, i.section, i.path))
      && SaysVersion(r.value.query, i.strategy, i.versionId, i.createNew, NO_NAME)
  {
    UpdateReports(table, i);
    UpdateSends(i);
    var problem := CheckTarget(i.propertyId, i.strategy);
    if problem.Some? {
      return Err(problem.value);
    }
    problem := SectionProblem(table, i.strategy, i.section);
    if problem.Some? {
      return Err(problem.value);
    }
    problem := PathProblem(table, i.strategy, i.section, i.path);
    if problem.Some? {
      return Err(problem.value);
    }
    problem := ValueProblem(i.value);
    if problem.Some? {
      return Err(problem.value);
    }
    problem := VersionProblem(i.versionId, i.createNew, NO_NAME, false);
    if problem.Some? {
      return Err(problem.value);
    }
    var sel := Selector(i.versionId, i.createNew, NO_NAME);
    var q := Apply(sel, StrategyQuery(i.strategy));
    return Ok(Request(Patch, R.FieldPath(i.propertyId, i.section, i.path), q, Value(i.value)));
  }

  // ----- upsert_underwriting_room -----

  datatype UpsertInput = UpsertInput(propertyId: Str, strategy: Str, area: Str, tag: Str, room: Room,
                                     versionId: Str, createNew: bool, versionName: Str)

  function Names(items: seq<LineItem>): (r: seq<Str>)
    ensures |r| == |items|
  {
    seq(|items|, i requires 0 <= i < |items| => items[i].name)
  }

  /** The first of the trimmed names that is empty. */
  function NamesProblem(names: seq<Str>): Option<Error> {
    if names == [] then None
    else
      var n := |names| - 1;
      Then(NamesProblem(names[..n]), if names[n] == "" then Some(LineItemUnnamed(n)) else None)
  }

  function LineItemsProblem(items: seq<LineItem>): Option<Error> {
    NamesProblem(Trimmed(Names(items)))
  }

  function RoomProblem(room: Room): Option<Error> {
    if room == EMPTY_ROOM then Some(RoomEmpty) else LineItemsProblem(room.lineItems)
  }

  function UpsertProblem(i: UpsertInput): Option<Error> {
    Then(PropertyProblem(i.propertyId),
    Then(StrategyProblem(i.strategy),
    Then(RoomTargetProblem(i.area, i.tag),
    Then(RoomProblem(i.room),
         VersionProblem(i.versionId, i.createNew, i.versionName, true)))))
  }

  function UpsertRequest(i: UpsertInput): Request {
    var sel := Selector(i.versionId, i.createNew, NameFor(i.createNew, i.versionName));
    Request(Patch, R.RoomPath(i.propertyId, i.area, i.tag), Selected(sel, StrategyQuery(i.strategy)), RoomPatch(i.room))
  }

  lemma NamesNext(names: seq<Str>, n: nat)
    requires n < |names| && NamesProblem(names[..n]).None?
    ensures NamesProblem(names[..n + 1]) == if names[n] == "" then Some(LineItemUnnamed(n)) else None
  {
    assert names[..n + 1][..n] == names[..n];
  }

  lemma {:induction false} NamesFirst(names: seq<Str>, n: nat)
    requires n <= |names| && NamesProblem(names[..n]).Some?
    ensures NamesProblem(names) == NamesProblem(names[..n])
  {
    if n == |names| {
      assert names[..n] == names;
    } else {
      var init := names[..|names| - 1];
      assert init[..n] == names[..n];
      NamesFirst(init, n);
    }
  }

  lemma {:induction false} NamesReport(names: seq<Str>)
    ensures NamesProblem(names).None? ==> "" !in names
    ensures NamesProblem(names).Some? ==>
      && NamesProblem(names).value.LineItemUnnamed?
      && NamesProblem(names).value.i < |names| && names[NamesProblem(names).value.i] == ""
      && forall n :: 0 <= n < NamesProblem(names).value.i ==> names[n] != ""
  {
    if names != [] {
      var init, last := names[..|names| - 1], names[|names| - 1];
      NamesReport(init);
      assert names == init + [last];
    }
  }

  /** The item at `e.i` has a blank name. */
  predicate ItemsFault(items: seq<LineItem>, e: Error) {
    e.LineItemUnnamed? && e.i < |items| && TrimSpace(items[e.i].name) == ""
  }

  /** The same of the trimmed names. */
  predicate NamesFault(names: seq<Str>, e: Error) {
    e.LineItemUnnamed? && e.i < |names| && names[e.i] == ""
  }

  lemma NamesReports(names: seq<Str>)
    ensures Reports(NamesProblem(names), e => NamesFault(names, e)) && Within(e => NamesFault(names, e), 13, 15)
  {
    NamesReport(names);
  }

  lemma SameFault(items: seq<LineItem>, e: Error)
    ensures ItemsFault(items, e) <==> NamesFault(Trimmed(Names(items)), e)
  {
  }

  lemma SameReports(problem: Option<Error>, f: Error -> bool, g: Error -> bool, from: nat, to: nat)
    requires Reports(problem, f) && Within(f, from, to) && forall e :: f(e) <==> g(e)
    ensures Reports(problem, g) && Within(g, from, to)
  {
  }

  lemma ItemsReports(items: seq<LineItem>)
    ensures Reports(LineItemsProblem(items), e => ItemsFault(items, e)) && Within(e => ItemsFault(items, e), 13, 15)
  {
    var names := Trimmed(Names(items));
    var f, g := e => NamesFault(names, e), e => ItemsFault(items, e);
    NamesReports(names);
    forall e: Error
      ensures f(e) <==> g(e)
    {
      SameFault(items, e);
    }
    SameReports(NamesProblem(names), f, g, 13, 15);
  }

  method CheckLineItems(items: seq<LineItem>) returns (problem: Option<Error>)
    ensures problem == LineItemsProblem(items)
    ensures Reports(problem, e => ItemsFault(items, e))
  {
    ItemsReports(items);
    ghost var names := Trimmed(Names(items));
    for n := 0 to |items|
      invariant NamesProblem(names[..n]).None?
    {
      NamesNext(names, n);
      var name := TrimSpace(items[n].name);
      if name == "" {
        NamesFirst(names, n + 1);
        return Some(LineItemUnnamed(n));
      }
    }
    assert names[..|items|] == names;
    problem := None;
  }

  predicate ShapeFault(i: UpsertInput, e: Error) {
    || (e.AreaInvalid? && i.area !in ROOM_AREAS)
    || (e.TagInvalid? && !(1 <= |i.tag| <= 256))
    || (e.RoomEmpty? && i.room == Room(None, None, None, None, None, [], None))
  }

  function ShapeProblem(i: UpsertInput): Option<Error> {
    Then(RoomTargetProblem(i.area, i.tag), if i.room == EMPTY_ROOM then Some(RoomEmpty) else None)
  }

  lemma ShapeReports(i: UpsertInput)
    ensures Reports(ShapeProblem(i), e => ShapeFault(i, e)) && Within(e => ShapeFault(i, e), 3, 13)
  {
  }

  /** Everything that is wrong with an input. */
  predicate UpsertFault(i: UpsertInput, e: Error) {
    || TargetFault(e, i.propertyId, i.strategy)
    || ShapeFault(i, e)
    || ItemsFault(i.room.lineItems, e)
    || VersionFault(e, i.versionId, i.createNew, i.versionName, true)
  }

  /** The checks of an upsert, group by group. */
  lemma UpsertGroups(i: UpsertInput)
    ensures UpsertProblem(i) ==
            Then(Then(Then(Then(PropertyProblem(i.propertyId), StrategyProblem(i.strategy)), ShapeProblem(i)),
                      LineItemsProblem(i.room.lineItems)),
                 VersionProblem(i.versionId, i.createNew, i.versionName, true))
  {
  }

  lemma UpsertReports(i: UpsertInput)
    ensures Reports(UpsertProblem(i), e => UpsertFault(i, e))
  {
    var items := i.room.lineItems;
    var target := Then(PropertyProblem(i.propertyId), StrategyProblem(i.strategy));
    var targetFault, shapeFault := e => TargetFault(e, i.propertyId, i.strategy), e => ShapeFault(i, e);
    TargetReports(i.propertyId, i.strategy);
    ShapeReports(i);
    ItemsReports(items);
    VersionReports(i.versionId, i.createNew, i.versionName, true);
    var upToShape := e => targetFault(e) || shapeFault(e);
    ThenReports(target, ShapeProblem(i), targetFault, shapeFault, upToShape, 3, 13);
    var upToItems := e => upToShape(e) || ItemsFault(items, e);
    ThenReports(Then(target, ShapeProblem(i)), LineItemsProblem(items), upToShape, e => ItemsFault(items, e), upToItems,
                13, 15);
    ThenReports(Then(Then(target, ShapeProblem(i)), LineItemsProblem(items)),
                VersionProblem(i.versionId, i.createNew, i.versionName, true),
                upToItems, e => VersionFault(e, i.versionId, i.createNew, i.versionName, true),
                e => UpsertFault(i, e), 15, 19);
    UpsertGroups(i);
  }

  lemma UpsertSends(i: UpsertInput)
    ensures R.ParseRoute(UpsertRequest(i).path) == Some(R.Room(i.propertyId, i.area, i.tag))
    ensures SaysVersion(UpsertRequest(i).query, i.strategy, i.versionId, i.createNew,
                        NameFor(i.createNew, i.versionName))
  {
    R.RoomReadBack(i.propertyId, i.area, i.tag);
    SelectedSays(Selector(i.versionId, i.createNew, NameFor(i.createNew, i.versionName)), i.strategy);
  }

  /**
   upsert_underwriting_room up to the API call: the earliest fault of the input, or else a PATCH of the room
   to its route, with the strategy and the selected version for its query.
   */
  method UpsertRoom(i: UpsertInput) returns (r: Result<Request>)
    ensures r == Outcome(UpsertProblem(i), UpsertRequest(i))
    ensures Reports(if r.Err? then Some(r.error) else None, e => UpsertFault(i, e))
    ensures r.Ok? ==>
      && r.value.verb == Patch && r.value.body == RoomPatch(i.room)
      && R.ParseRoute(r.value.path) == Some(R.Room(i.propertyId, i.area, i.tag))
      && SaysVersion(r.value.query, i.strategy, i.versionId, i.createNew,
                     if i.createNew then i.versionName else NO_NAME)
  {
    UpsertReports(i);
    UpsertSends(i);
    var problem := CheckTarget(i.propertyId, i.strategy);
    if problem.Some? {
      return Err(problem.value);
    }
    problem := RoomTargetProblem(i.area, i.tag);
    if problem.Some? {
      return Err(problem.value);
    }
    if i.room == EMPTY_ROOM {
      return Err(RoomEmpty);
    }
    problem := CheckLineItems(i.room.lineItems);
    if problem.Some? {
      return Err(problem.value);
    }
    problem := VersionProblem(i.versionId, i.createNew, i.versionName, true);
    if problem.Some? {
      return Err(problem.value);
    }
    var sel := Selector(i.versionId, i.createNew, NO_NAME);
    if i.createNew {
      sel := sel.(versionName := i.versionName);
    }
    var q := Apply(sel, StrategyQuery(i.strategy));
    return Ok(Request(Patch, R.RoomPath(i.propertyId, i.area, i.tag), q, RoomPatch(i.room)));
  }

  // ----- clone_underwriting_version -----

  datatype CloneInput = CloneInput(propertyId: Str, strategy: Str, versionId: Str, versionName: Str)

  function CloneProblem(i: CloneInput): Option<Error> {
    Then(PropertyProblem(i.propertyId),
    Then(StrategyProblem(i.strategy),
         if i.versionId == "" then Some(VersionIdRequired)
         else if |i.versionName| > 100 then Some(NameTooLong) else None))
  }

  function CloneQuery(i: CloneInput): Values {
    var q := Set(Set(StrategyQuery(i.strategy), CLONE, TRUE), VERSION_ID, i.versionId);
    if i.versionName != "" then Set(q, VERSION_NAME, i.versionName) else q
  }

  function CloneRequest(i: CloneInput): Request {
    Request(Post, R.Base(i.propertyId) + "/" + POST_RENOVATION, CloneQuery(i), NoBody)
  }

  /** Everything that is wrong with an input. */
  predicate CloneFault(i: CloneInput, e: Error) {
    || TargetFault(e, i.propertyId, i.strategy)
    || (e.VersionIdRequired? && i.versionId == "")
    || (e.NameTooLong? && |i.versionName| > 100)
  }

  lemma CloneReports(i: CloneInput)
    ensures Reports(CloneProblem(i), e => CloneFault(i, e))
  {
  }

  /** What a clone says: its source, perhaps a name, and no createNew. */
  ghost predicate SaysClone(q: Values, strategy: Str, versionId: Str, versionName: Str) {
    && Full(q) && q.Keys <= {STRATEGY, VERSION_ID, VERSION_NAME, CLONE}
    && Lookup(q, CLONE) == [TRUE] && Lookup(q, STRATEGY) == [strategy] && Lookup(q, VERSION_ID) == [versionId]
    && Lookup(q, VERSION_NAME) == if versionName != "" then [versionName] else []
  }

  /**
   clone_underwriting_version up to the API call: the earliest fault of the input, or else a POST to a section
   that every strategy has, with the strategy and the source version for its query.
   */
  method CloneVersion(i: CloneInput) returns (r: Result<Request>)
    ensures r == Outcome(CloneProblem(i), CloneRequest(i))
    ensures Reports(if r.Err? then Some(r.error) else None, e => CloneFault(i, e))
    ensures r.Ok? ==>
      && r.value.verb == Post && r.value.body == NoBody
      && R.ParseRoute(r.value.path) == Some(R.Section(i.propertyId, POST_RENOVATION))
      && SaysClone(r.value.query, i.strategy, i.versionId, i.versionName)
  {
    CloneReports(i);
    CloneSends(i);
    var problem := CheckTarget(i.propertyId, i.strategy);
    if problem.Some? {
      return Err(problem.value);
    }
    if i.versionId == "" {
      return Err(VersionIdRequired);
    }
    if |i.versionName| > 100 {
      return Err(NameTooLong);
    }
    var q := StrategyQuery(i.strategy);
    q := Set(q, CLONE, TRUE);
    q := Set(q, VERSION_ID, i.versionId);
    if i.versionName != "" {
      q := Set(q, VERSION_NAME, i.versionName);
    }
    return Ok(Request(Post, R.Base(i.propertyId) + "/" + POST_RENOVATION, q, NoBody));
  }

  // ----- the tools agree -----

  function UpdateOf(i: CreateInput, key: Str): UpdateInput
    requires key in i.data
  {
    UpdateInput(i.propertyId, i.strategy, i.section, key, i.data[key], i.versionId, i.createNew)
  }

  /** Values that update can store: neither null nor the empty object. */
  predicate Storable(data: map<Str, Json>) {
    forall key <- data :: ValueProblem(data[key]).None?
  }

  /**
   Create accepts storable data exactly when there is some, update accepts each field, and the version name
   is short enough.
   */
  lemma CreateIffUpdates(table: Table, i: CreateInput)
    requires Storable(i.data)
    ensures CreateProblem(table, i).None? <==>
      i.data != map[] && |i.versionName| <= 100 && forall key <- i.data :: UpdateProblem(table, UpdateOf(i, key)).None?
  {
    if i.data != map[] {
      var key :| key in i.data;
      assert UpdateProblem(table, UpdateOf(i, key)).None? ==>
        VersionProblem(i.versionId, i.createNew, NO_NAME, false).None?;
    }
  }

  /** A field that create accepts and update refuses is null or an empty object. */
  lemma OnlyTheValueDiffers(table: Table, i: CreateInput, key: Str)
    requires key in i.data && CreateProblem(table, i).None?
    ensures UpdateProblem(table, UpdateOf(i, key)) == ValueProblem(i.data[key])
  {
  }

  // ----- on the wire -----

  /** Exactly one of versionId and createNew, and a name only for a new version. */
  ghost predicate SelectsOneVersion(q: Values) {
    && (VERSION_ID in q <==> CREATE_NEW !in q)
    && (CREATE_NEW in q ==> q[CREATE_NEW] == [TRUE])
    && (VERSION_NAME in q ==> CREATE_NEW in q)
  }

  lemma SaysOne(q: Values, strategy: Str, versionId: Str, createNew: bool, versionName: Str)
    requires SaysVersion(q, strategy, versionId, createNew, versionName)
    requires (versionId != "") != createNew && (versionName != "" ==> createNew)
    ensures SelectsOneVersion(q) && CLONE !in q
  {
    KeysDiffer();
  }

  /** The query of an accepted create, as the API parses it. */
  lemma CreateOnTheWire(table: Table, i: CreateInput, keys: seq<Str>)
    requires CreateProblem(table, i).None? && Enumerates(keys, CreateRequest(i).query.Keys)
    ensures var q := ParseQuery(Encode(CreateRequest(i).query, keys));
            && SelectsOneVersion(q) && CLONE !in q
            && SaysVersion(q, i.strategy, i.versionId, i.createNew, if i.createNew then i.versionName else NO_NAME)
  {
    var name := NameFor(i.createNew, i.versionName);
    SelectedSays(Selector(i.versionId, i.createNew, name), i.strategy);
    SaysOne(CreateRequest(i).query, i.strategy, i.versionId, i.createNew, name);
    EncodeRoundTrip(CreateRequest(i).query, keys);
  }

  /** The query of an accepted update: no name is ever sent. */
  lemma UpdateOnTheWire(table: Table, i: UpdateInput, keys: seq<Str>)
    requires UpdateProblem(table, i).None? && Enumerates(keys, UpdateRequest(i).query.Keys)
    ensures var q := ParseQuery(Encode(UpdateRequest(i).query, keys));
            && SelectsOneVersion(q) && CLONE !in q && VERSION_NAME !in q
            && SaysVersion(q, i.strategy, i.versionId, i.createNew, NO_NAME)
  {
    SelectedSays(Selector(i.versionId, i.createNew, NO_NAME), i.strategy);
    SaysOne(UpdateRequest(i).query, i.strategy, i.versionId, i.createNew, NO_NAME);
    EncodeRoundTrip(UpdateRequest(i).query, keys);
  }

  /** The query of an accepted upsert: a new version always comes with a name that is not blank. */
  lemma UpsertOnTheWire(i: UpsertInput, keys: seq<Str>)
    requires UpsertProblem(i).None? && Enumerates(keys, UpsertRequest(i).query.Keys)
    ensures var q := ParseQuery(Encode(UpsertRequest(i).query, keys));
            && SelectsOneVersion(q) && CLONE !in q
            && SaysVersion(q, i.strategy, i.versionId, i.createNew, if i.createNew then i.versionName else NO_NAME)
            && (i.createNew ==> TrimSpace(i.versionName) != "")
  {
    var name := NameFor(i.createNew, i.versionName);
    SelectedSays(Selector(i.versionId, i.createNew, name), i.strategy);
    SaysOne(UpsertRequest(i).query, i.strategy, i.versionId, i.createNew, name);
    EncodeRoundTrip(UpsertRequest(i).query, keys);
  }

  /** What is requested of the API's host. */
  function Target(r: Request, keys: seq<Str>): Str {
    r.path + ['?'] + Encode(r.query, keys)
  }

  /** From the whole target of an accepted upsert the API recovers the room and the query. */
  lemma UpsertTarget(i: UpsertInput, keys: seq<Str>, target: Str)
    requires Enumerates(keys, UpsertRequest(i).query.Keys) && target == Target(UpsertRequest(i), keys)
    ensures R.ParseRoute(UrlPath(target)) == Some(R.Room(i.propertyId, i.area, i.tag))
    ensures ParseQuery(UrlQuery(target)) == UpsertRequest(i).query
  {
    var r := UpsertRequest(i);
    R.NoDelimiters(i.propertyId, i.area, i.tag, '?');
    R.NoDelimiters(i.propertyId, i.area, i.tag, '#');
    NoFragmentInEncoded(r.query, keys);
    TargetParts(r.path, Encode(r.query, keys));
    R.RoomReadBack(i.propertyId, i.area, i.tag);
    SelectedSays(Selector(i.versionId, i.createNew, NameFor(i.createNew, i.versionName)), i.strategy);
    EncodeRoundTrip(r.query, keys);
  }

  /** Create and update address the section and the field they were given. */
  lemma SectionRoutes(create: CreateInput, update: UpdateInput)
    ensures R.ParseRoute(CreateRequest(create).path) == Some(R.Section(create.propertyId, create.section))
    ensures R.ParseRoute(UpdateRequest(update).path) == Some(R.Field(update.propertyId, update.section, update.path))
  {
    R.SectionReadBack(create.propertyId, create.section);
    R.FieldReadBack(update.propertyId, update.section, update.path);
  }

  /** The section that a clone is addressed to is one that its strategy has. */
  lemma CloneRoute(i: CloneInput)
    requires CloneProblem(i).None?
    ensures R.ParseRoute(CloneRequest(i).path) == Some(R.Section(i.propertyId, POST_RENOVATION))
    ensures HasSection(SECTION_PATHS, i.strategy, POST_RENOVATION)
  {
    PostRenovationVerbatim();
    R.SectionReadBack(i.propertyId, POST_RENOVATION);
    FixedSectionsSupported(i.strategy);
  }

  lemma PostRenovationVerbatim()
    ensures Escape(Segment, POST_RENOVATION) == POST_RENOVATION
  {
    VerbatimStays(Segment, POST_RENOVATION);
  }

  lemma CloneSays(i: CloneInput)
    ensures SaysClone(CloneQuery(i), i.strategy, i.versionId, i.versionName)
  {
    KeysDiffer();
  }

  lemma CloneSends(i: CloneInput)
    ensures R.ParseRoute(CloneRequest(i).path) == Some(R.Section(i.propertyId, POST_RENOVATION))
    ensures SaysClone(CloneRequest(i).query, i.strategy, i.versionId, i.versionName)
  {
    PostRenovationVerbatim();
    R.SectionReadBack(i.propertyId, POST_RENOVATION);
    CloneSays(i);
  }

  lemma NoCreateNew(q: Values, strategy: Str, versionId: Str, versionName: Str)
    requires SaysClone(q, strategy, versionId, versionName)
    ensures CREATE_NEW !in q
  {
    KeysDiffer();
  }

  /** The query of an accepted clone: it names its source and never asks for a new version. */
  lemma CloneOnTheWire(i: CloneInput, keys: seq<Str>)
    requires CloneProblem(i).None? && Enumerates(keys, CloneQuery(i).Keys)
    ensures i.versionId != ""
    ensures SaysClone(ParseQuery(Encode(CloneQuery(i), keys)), i.strategy, i.versionId, i.versionName)
    ensures CREATE_NEW !in ParseQuery(Encode(CloneQuery(i), keys))
  {
    CloneSays(i);
    EncodeRoundTrip(CloneQuery(i), keys);
    NoCreateNew(CloneQuery(i), i.strategy, i.versionId, i.versionName);
  }
}
