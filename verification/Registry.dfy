/** The underwriting registry (strategy, section, path) and the input checks of the underwriting tools. */
module Registry {
  import opened Basics
  import opened Text

  type Table = map<string, map<string, seq<string>>>

  const STRATEGIES: seq<string> := ["coLiving", "fixFlip"]

  const REPAIR_RENOVATION_PATHS: seq<string> := [
    "interiorRenovations", "aduAdditionDetails", "hvacDetails", "electricalCost", "plumbingCost",
    "exteriorRenovations", "repairContingency", "estimatedTotal", "calculatedTotal"
  ]

  const APPLIANCE_PATHS: seq<string> := [
    "refrigerator", "miniFridge", "washerDryer", "waterHeater", "stove", "microwave", "airFryer", "toaster",
    "calculatedTotal", "estimatedTotal"
  ]

  const CO_LIVING: map<string, seq<string>> := map[
    "postRenovation" := ["bedrooms", "bathrooms", "sqft", "aduPrivateSuite"],
    "repairRenovation" := REPAIR_RENOVATION_PATHS,
    "appliances" := APPLIANCE_PATHS,
    "coliving" := ["securityCameras", "smartLocks", "smartThermostat", "doorSensors", "itCloset", "propertyPictures",
                   "complianceItems", "calculatedTotal", "estimatedTotal"],
    "furnishing" := ["bedroomsFurnishing", "bathroomsFurnishing", "kitchenFurnishing", "commonAreasFurnishing",
                     "cleaningSupplies", "calculatedTotal", "estimatedTotal"],
    "operatingRevenues" := ["totalBeds", "totalBaths", "rentalRevenue", "rentalLateFee", "sharedLaundryFee",
                            "miscellaneousIncome", "movingFee", "calculatedTotal", "estimatedTotal"],
    "operatingExpenses" := ["bookingServiceFee", "utilities", "cleaningService", "maintenance", "management",
                            "totalOperatingExpenses"],
    "privateMoneyFinancing" := ["privateMoneyLender", "privateMoneyPartner", "hardMoneyLender", "calculatedTotal",
                                "estimatedTotal"],
    "holdingCost" := ["total", "holdingPeriod", "unitAmount"],
    "fundingSource" := ["debtFinancing", "cashEquity", "creativeFinance"]
  ]

  const FIX_FLIP: map<string, seq<string>> := map[
    "postRenovation" := ["bedrooms", "bathrooms", "sqft", "aduPrivateSuite"],
    "repairRenovation" := REPAIR_RENOVATION_PATHS,
    "appliances" := APPLIANCE_PATHS,
    "holdingCost" := ["total", "holdingPeriod", "unitAmount"],
    "fundingSource" := ["debtFinancing", "cashEquity", "creativeFinance"],
    "saleExit" := ["salePrice", "agentCommission", "sellerClosingCost"]
  ]

  const SECTION_PATHS: Table := map["coLiving" := CO_LIVING, "fixFlip" := FIX_FLIP]

  const ROOM_AREAS: seq<string> := [
    "bedrooms", "bathrooms", "kitchen", "livingRoom", "diningRoom", "laundry", "fireplace", "attic", "basement",
    "generalUpdates", "miscellaneous"
  ]

  /** Looking up a strategy that is not there gives no sections, as a nil map does. */
  function Sections(registry: Table, strategy: string): map<string, seq<string>> {
    if strategy in registry then registry[strategy] else map[]
  }

  function Paths(registry: Table, strategy: string, section: string): seq<string> {
    if section in Sections(registry, strategy) then Sections(registry, strategy)[section] else []
  }

  /** The table has this section for this strategy. */
  predicate HasSection(table: Table, strategy: string, section: string) {
    strategy in table && section in table[strategy]
  }

  /** The table lists this path there. */
  predicate Lists(table: Table, strategy: string, section: string, path: string) {
    HasSection(table, strategy, section) && path in table[strategy][section]
  }

  // ----- checks -----

  datatype Error =
    | PropertyRequired
    | StrategyRequired | StrategyInvalid
    | SectionRequired | SectionUnsupported
    | DataRequired | UnknownField
    | PathInvalid | ValueNull | ValueEmptyObject
    | AreaInvalid | TagInvalid | RoomEmpty | LineItemUnnamed(i: nat)
    | BothVersions | NoVersion | NameRequired | NameTooLong
    | VersionIdRequired

  datatype Result<+T> = Ok(value: T) | Err(error: Error)

  /** The order in which the tools look for what is wrong. */
  function Stage(e: Error): nat {
    match e
    case PropertyRequired => 0
    case StrategyRequired => 1
    case StrategyInvalid => 2
    case SectionRequired => 3
    case SectionUnsupported => 4
    case DataRequired => 5
    case UnknownField => 6
    case PathInvalid => 7
    case ValueNull => 8
    case ValueEmptyObject => 9
    case AreaInvalid => 10
    case TagInvalid => 11
    case RoomEmpty => 12
    case LineItemUnnamed(_) => 13
    case VersionIdRequired => 14
    case BothVersions => 15
    case NoVersion => 16
    case NameRequired => 17
    case NameTooLong => 18
  }

  predicate Earlier(e: Error, f: Error) {
    Stage(e) < Stage(f) || (e.LineItemUnnamed? && f.LineItemUnnamed? && e.i < f.i)
  }

  /** The outcome of the checks, told by what is wrong: the earliest fault is reported, and only a fault is. */
  ghost predicate Reports(problem: Option<Error>, fault: Error -> bool) {
    && (problem.None? ==> forall e :: !fault(e))
    && (problem.Some? ==> fault(problem.value) && forall e :: fault(e) ==> !Earlier(e, problem.value))
  }

  /** What can be wrong with the property and the strategy. */
  predicate TargetFault(e: Error, propertyId: Str, strategy: Str) {
    match e
    case PropertyRequired => propertyId == ""
    case StrategyRequired => strategy == ""
    case StrategyInvalid => strategy != "coLiving" && strategy != "fixFlip"
    case _ => false
  }

  predicate SectionFault(e: Error, registry: Table, strategy: Str, section: Str) {
    match e
    case SectionRequired => section == ""
    case SectionUnsupported => !HasSection(registry, strategy, section)
    case _ => false
  }

  /** What can be wrong with the choice of a version. */
  predicate VersionFault(e: Error, versionId: Str, createNew: bool, versionName: Str, nameRequired: bool) {
    match e
    case BothVersions => versionId != "" && createNew
    case NoVersion => versionId == "" && !createNew
    case NameRequired => createNew && nameRequired && TrimSpace(versionName) == ""
    case NameTooLong => |versionName| > 100
    case _ => false
  }

  /** The first check that fails. */
  function Then(first: Option<Error>, next: Option<Error>): Option<Error> {
    if first.Some? then first else next
  }

  function PropertyProblem(propertyId: Str): Option<Error> {
    if propertyId == "" then Some(PropertyRequired) else None
  }

  function StrategyProblem(strategy: Str): Option<Error> {
    if strategy == "" then Some(StrategyRequired) else if strategy !in STRATEGIES then Some(StrategyInvalid) else None
  }

  function SectionProblem(registry: Table, strategy: Str, section: Str): Option<Error> {
    if section == "" then Some(SectionRequired)
    else if section !in Sections(registry, strategy) then Some(SectionUnsupported)
    else None
  }

  function PathProblem(registry: Table, strategy: Str, section: Str, path: Str): Option<Error> {
    if path !in Paths(registry, strategy, section) then Some(PathInvalid) else None
  }

  function RoomTargetProblem(area: Str, tag: Str): Option<Error> {
    if area !in ROOM_AREAS then Some(AreaInvalid) else if tag == "" || |tag| > 256 then Some(TagInvalid) else None
  }

  /** Exactly one of an existing version and a new one; a new one named if it has to be. */
  function VersionProblem(versionId: Str, createNew: bool, versionName: Str, nameRequired: bool): Option<Error> {
    if versionId != "" && createNew then Some(BothVersions)
    else if versionId == "" && !createNew then Some(NoVersion)
    else if createNew && nameRequired && TrimSpace(versionName) == "" then Some(NameRequired)
    else if |versionName| > 100 then Some(NameTooLong)
    else None
  }

  // ----- the checks report the earliest fault -----

  /** All faults of this kind are found at these stages. */
  ghost predicate Within(fault: Error -> bool, from: nat, to: nat) {
    forall e :: fault(e) ==> from <= Stage(e) < to
  }

  /** One group of checks after another: what the groups report, together they report. */
  lemma ThenReports(a: Option<Error>, b: Option<Error>, f: Error -> bool, g: Error -> bool, h: Error -> bool,
                    stage: nat, to: nat)
    requires Reports(a, f) && Reports(b, g) && Within(f, 0, stage) && Within(g, stage, to) && stage <= to
    requires forall e :: h(e) <==> f(e) || g(e)
    ensures Reports(Then(a, b), h) && Within(h, 0, to)
  {
    if a.Some? {
      forall e | h(e)
        ensures !Earlier(e, a.value)
      {
        if g(e) {
          assert Stage(a.value) < stage <= Stage(e);
        }
      }
    } else if b.Some? {
      forall e | h(e)
        ensures !Earlier(e, b.value)
      {
        assert !f(e);
      }
    }
  }

  lemma TargetReports(propertyId: Str, strategy: Str)
    ensures Reports(Then(PropertyProblem(propertyId), StrategyProblem(strategy)),
                    e => TargetFault(e, propertyId, strategy))
    ensures Within(e => TargetFault(e, propertyId, strategy), 0, 3)
  {
  }

  lemma SectionReports(registry: Table, strategy: Str, section: Str)
    ensures Reports(SectionProblem(registry, strategy, section), e => SectionFault(e, registry, strategy, section))
    ensures Within(e => SectionFault(e, registry, strategy, section), 3, 5)
  {
  }

  lemma VersionReports(versionId: Str, createNew: bool, versionName: Str, nameRequired: bool)
    ensures Reports(VersionProblem(versionId, createNew, versionName, nameRequired),
                    e => VersionFault(e, versionId, createNew, versionName, nameRequired))
    ensures Within(e => VersionFault(e, versionId, createNew, versionName, nameRequired), 15, 19)
  {
  }

  // ----- the tables -----

  /** The accepted strategies are the ones with sections. */
  lemma StrategiesHaveSections(strategy: string)
    ensures strategy in STRATEGIES <==> strategy in SECTION_PATHS
    ensures strategy in STRATEGIES <==> strategy == "coLiving" || strategy == "fixFlip"
  {
    assert STRATEGIES[0] == "coLiving" && STRATEGIES[1] == "fixFlip";
  }

  /** Every strategy has the section that the clone route names and the one that holds the rooms. */
  lemma FixedSectionsSupported(strategy: string)
    requires strategy in STRATEGIES
    ensures HasSection(SECTION_PATHS, strategy, "postRenovation")
    ensures Lists(SECTION_PATHS, strategy, "repairRenovation", "interiorRenovations")
  {
    StrategiesHaveSections(strategy);
    assert REPAIR_RENOVATION_PATHS[0] == "interiorRenovations";
  }

  /** A section that both strategies have takes the same paths in both. */
  lemma SharedSectionsAgree(section: string)
    requires section in CO_LIVING && section in FIX_FLIP
    ensures CO_LIVING[section] == FIX_FLIP[section]
  {
  }
}
