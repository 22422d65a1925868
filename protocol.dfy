/**
 * Shared shapes of the game protocol and the constant field-upgrade table
 * (`fieldSlotData`): for every resource-field kind and level, what an
 * upgrade costs and what it adds to population and production rates.
 */
module Protocol {

  import opened Wrappers

  /** One slot of the 5x5 fields grid or the 3x3 buildings grid. */
  datatype GridSlot = GridSlot(name: string, level: int)

  /** One inbox message. */
  datatype Letter = Letter(sender: string, title: string, message: string)

  /** The four resources of a settlement. */
  datatype Resource = Lumber | Iron | Clay | Wheat

  /** The four upgradable field kinds of the table. */
  datatype FieldKind = Forest | Cave | ClayPit | WheatField

  /** The `FieldSlot` record: gains and costs of one upgrade step. */
  datatype FieldSlot = FieldSlot(
    populationGain: int,
    lumberRateGain: int,
    ironRateGain: int,
    clayRateGain: int,
    wheatRateGain: int,
    lumberCost: int,
    ironCost: int,
    clayCost: int,
    wheatCost: int)
  {
    function RateGain(r: Resource): int {
      match r
      case Lumber => lumberRateGain
      case Iron => ironRateGain
      case Clay => clayRateGain
      case Wheat => wheatRateGain
    }

    function Cost(r: Resource): int {
      match r
      case Lumber => lumberCost
      case Iron => ironCost
      case Clay => clayCost
      case Wheat => wheatCost
    }
  }

  /** The resource whose rate a field kind raises. */
  function Produces(kind: FieldKind): Resource {
    match kind
    case Forest => Lumber
    case Cave => Iron
    case ClayPit => Clay
    case WheatField => Wheat
  }

  /** The key of the kind in the table ('FOREST', 'CAVE', 'CLAY', 'WHEAT'). */
  function KindKey(kind: FieldKind): string {
    match kind
    case Forest => "FOREST"
    case Cave => "CAVE"
    case ClayPit => "CLAY"
    case WheatField => "WHEAT"
  }

  /**
   * `fieldSlotData[key]` looked up by a slot name: one of the four keys names
   * a kind, any other name (the town, an unbuilt '?' slot) has no entry.
   */
  function KindOfKey(key: string): (r: Option<FieldKind>)
    ensures r.Some? ==> KindKey(r.value) == key
    ensures r.None? ==> forall kind :: KindKey(kind) != key
  {
    if key == "FOREST" then Some(Forest)
    else if key == "CAVE" then Some(Cave)
    else if key == "CLAY" then Some(ClayPit)
    else if key == "WHEAT" then Some(WheatField)
    else None
  }

  /** Every kind is found again under its own key, so the four keys are distinct. */
  lemma KindKeyRoundTrip(kind: FieldKind)
    ensures KindOfKey(KindKey(kind)) == Some(kind)
  {
  }

  /** The lower-case name of a resource as the upgrade texts spell it. */
  function ResourceName(r: Resource): string {
    match r
    case Lumber => "lumber"
    case Iron => "iron"
    case Clay => "clay"
    case Wheat => "wheat"
  }

  /** The closing words of every upgrade text, naming the resource the kind produces. */
  function UpgradeClause(kind: FieldKind): string {
    "Increases " + ResourceName(Produces(kind)) + " gain by"
  }

  /** The descriptive sentence that opens each kind's upgrade text. */
  function UpgradeLead(kind: FieldKind): string {
    match kind
    case Forest => "Everyone needs wood. Just remember to replant the trees so you do not run out. "
    case Cave => "From the darkest of caves the richest of iron minerals can be found. "
    case ClayPit => "Flexible material. Good for making pots and other things made of clay. "
    case WheatField => "Wheat is essential for keeping your people alive. "
  }

  /**
   * The `upgradeText` of each kind: a sentence about the field that ends
   * by naming the resource whose rate the upgrade raises.
   */
  function UpgradeText(kind: FieldKind): (r: string)
    ensures |UpgradeClause(kind)| < |r| && r[|r| - |UpgradeClause(kind)|..] == UpgradeClause(kind)
  {
    var lead, clause := UpgradeLead(kind), UpgradeClause(kind);
    assert (lead + clause)[|lead|..] == clause;
    lead + clause
  }

  /**
   * `fieldSlotData[kind][level]`: levels 1 to 3 exist for every kind; any
   * other level reads `undefined` (None). Each kind raises only its own
   * resource rate, and a level-3 upgrade costs two population, the others one.
   */
  function FieldSlotData(kind: FieldKind, level: int): (r: Option<FieldSlot>)
    ensures r.Some? <==> 1 <= level <= 3
    ensures r.Some? ==> r.value.populationGain == (if level == 3 then 2 else 1)
    ensures r.Some? ==> forall res :: res != Produces(kind) ==> r.value.RateGain(res) == 0
  {
    match kind
    case Forest =>
      if level == 1 then Some(FieldSlot(1, 6, 0, 0, 0, 35, 60, 55, 20))
      else if level == 2 then Some(FieldSlot(1, 11, 0, 0, 0, 100, 120, 100, 85))
      else if level == 3 then Some(FieldSlot(2, 18, 0, 0, 0, 170, 210, 220, 150))
      else None
    case Cave =>
      if level == 1 then Some(FieldSlot(1, 0, 6, 0, 0, 50, 30, 50, 25))
      else if level == 2 then Some(FieldSlot(1, 0, 11, 0, 0, 100, 95, 120, 75))
      else if level == 3 then Some(FieldSlot(2, 0, 18, 0, 0, 220, 180, 225, 145))
      else None
    case ClayPit =>
      if level == 1 then Some(FieldSlot(1, 0, 0, 6, 0, 50, 45, 25, 35))
      else if level == 2 then Some(FieldSlot(1, 0, 0, 11, 0, 105, 100, 80, 75))
      else if level == 3 then Some(FieldSlot(2, 0, 0, 18, 0, 200, 200, 175, 130))
      else None
    case WheatField =>
      if level == 1 then Some(FieldSlot(1, 0, 0, 0, 6, 45, 45, 50, 35))
      else if level == 2 then Some(FieldSlot(1, 0, 0, 0, 1, 95, 100, 95, 45))
      else if level == 3 then Some(FieldSlot(2, 0, 0, 0, 18, 200, 210, 205, 70))
      else None
  }

  /** Every cost of every kind strictly increases from one level to the next. */
  lemma CostsIncreaseWithLevel(kind: FieldKind, level: int, r: Resource)
    requires 1 <= level < 3
    ensures FieldSlotData(kind, level).value.Cost(r) < FieldSlotData(kind, level + 1).value.Cost(r)
  {
  }

  /**
   * The gain in a kind's own rate is 6, 11 and 18 by level, except for the
   * level-2 wheat field, which adds only 1.
   */
  lemma OwnRateGains(kind: FieldKind, level: int)
    requires 1 <= level <= 3
    ensures var gain := FieldSlotData(kind, level).value.RateGain(Produces(kind));
      gain == (if kind == WheatField && level == 2 then 1
               else if level == 1 then 6 else if level == 2 then 11 else 18)
  {
  }

  /**
   * Consequence of that exception: the wheat field is the only kind whose
   * own-rate gain does not grow with every level.
   */
  lemma OnlyWheatGainDips(kind: FieldKind)
    ensures FieldSlotData(kind, 2).value.RateGain(Produces(kind)) < FieldSlotData(kind, 1).value.RateGain(Produces(kind))
      <==> kind == WheatField
  {
  }
}
