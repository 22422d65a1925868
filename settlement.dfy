/**
 * The stored settlement snapshot of the backend (one document under
 * `users/<id>`): resources with caps and hourly rates, the fields and
 * buildings grids, the map cell, the garrison, the dispatch ledger
 * (`troopsOnMove`), the inbox and the resource timestamp.
 */
module Settlement {

  import opened Wrappers
  import opened Protocol

  /** The six troop types ('Knife Boy', Spearman, Swordsman, 'Donkey Rider', Jouster, 'Dark Knight'). */
  datatype TroopType = KnifeBoy | Spearman | Swordsman | DonkeyRider | Jouster | DarkKnight

  /**
   * The garrison: one count for every troop type (every stored snapshot is
   * created with all six keys, and the read path only adds to them).
   */
  datatype Garrison = Garrison(
    knifeBoy: int, spearman: int, swordsman: int,
    donkeyRider: int, jouster: int, darkKnight: int)
  {
    /** `troops[t]` */
    function Count(t: TroopType): int {
      match t
      case KnifeBoy => knifeBoy
      case Spearman => spearman
      case Swordsman => swordsman
      case DonkeyRider => donkeyRider
      case Jouster => jouster
      case DarkKnight => darkKnight
    }

    /** `troops[t] += n`: only the count of `t` changes, and it grows by `n`. */
    function Add(t: TroopType, n: int): (g: Garrison)
      ensures g.Count(t) == Count(t) + n
      ensures forall u :: u != t ==> g.Count(u) == Count(u)
    {
      match t
      case KnifeBoy => this.(knifeBoy := knifeBoy + n)
      case Spearman => this.(spearman := spearman + n)
      case Swordsman => this.(swordsman := swordsman + n)
      case DonkeyRider => this.(donkeyRider := donkeyRider + n)
      case Jouster => this.(jouster := jouster + n)
      case DarkKnight => this.(darkKnight := darkKnight + n)
    }
  }

  const NoTroops := Garrison(0, 0, 0, 0, 0, 0)

  /** A cell of the shared 500x500 world map. */
  datatype MapCell = MapCell(x: int, y: int)

  const MapSize := 500

  predicate OnMap(c: MapCell) {
    0 <= c.x < MapSize && 0 <= c.y < MapSize
  }

  /**
   * A group of troops away from home: outbound to a battle, or heading back
   * (`headingBack`) to its own garrison. `troops` holds only the types the
   * group carries; `arrivalTime` is in milliseconds.
   */
  datatype Group = Group(troops: map<TroopType, int>, arrivalTime: int, headingBack: bool)

  /** The stored document of one settlement. */
  datatype UserRecord = UserRecord(
    username: string,
    passwordHash: string,
    token: Option<string>,
    population: int,
    lumber: real,
    iron: real,
    clay: real,
    wheat: real,
    maxLumber: real,
    maxIron: real,
    maxClay: real,
    maxWheat: real,
    lumberRate: real,
    ironRate: real,
    clayRate: real,
    wheatRate: real,
    fields: seq<seq<GridSlot>>,
    buildings: seq<seq<GridSlot>>,
    mapCoordinates: MapCell,
    troops: Garrison,
    /** An empty ledger is not stored at all, so "absent" and "empty" coincide. */
    troopsOnMove: seq<Group>,
    inbox: seq<Letter>,
    timestamp: int,
    pacifist: bool,
    pacifismDisabledUntil: int)

  function Unbuilt(kind: string): GridSlot { GridSlot("?" + kind, 0) }
  function Active(kind: string): GridSlot { GridSlot(kind, 0) }

  /** The fixed starter layout of the 5x5 fields grid. */
  const StarterFields: seq<seq<GridSlot>> := [
    [Unbuilt("CAVE"),   Unbuilt("WHEAT"), Unbuilt("CLAY"),   Unbuilt("CAVE"), Unbuilt("WHEAT")],
    [Unbuilt("WHEAT"),  Unbuilt("CLAY"),  Active("FOREST"),  Unbuilt("CAVE"), Unbuilt("WHEAT")],
    [Unbuilt("FOREST"), Active("CLAY"),   Active("TOWN"),    Active("CAVE"),  Unbuilt("CLAY")],
    [Unbuilt("CLAY"),   Unbuilt("WHEAT"), Active("WHEAT"),   Unbuilt("CAVE"), Unbuilt("FOREST")],
    [Unbuilt("FOREST"), Unbuilt("CAVE"),  Unbuilt("FOREST"), Unbuilt("CLAY"), Unbuilt("FOREST")]
  ]

  const EmptyBuilding := GridSlot("EMPTY", 0)

  const StarterBuildings: seq<seq<GridSlot>> := [
    [EmptyBuilding, EmptyBuilding, EmptyBuilding],
    [EmptyBuilding, EmptyBuilding, EmptyBuilding],
    [EmptyBuilding, EmptyBuilding, EmptyBuilding]
  ]

  /** The snapshot written for a new account placed at `cell` at time `now`. */
  function StarterSnapshot(username: string, passwordHash: string, cell: MapCell, now: int): (u: UserRecord)
    ensures u.username == username && u.mapCoordinates == cell && u.timestamp == now
    ensures u.lumber == u.iron == u.clay == u.wheat == 250.0
    ensures u.maxLumber == u.maxIron == u.maxClay == u.maxWheat == 500.0
    ensures u.lumberRate == u.ironRate == u.clayRate == u.wheatRate == 5.0
    ensures u.population == 1 && u.pacifismDisabledUntil == 0
    ensures u.fields == StarterFields && u.buildings == StarterBuildings
    ensures forall t :: u.troops.Count(t) == 0
    ensures u.troopsOnMove == [] && u.inbox == [] && u.token == None
    ensures u.pacifist
  {
    UserRecord(
      username, passwordHash, None,
      1,
      250.0, 250.0, 250.0, 250.0,
      500.0, 500.0, 500.0, 500.0,
      5.0, 5.0, 5.0, 5.0,
      StarterFields, StarterBuildings,
      cell, NoTroops, [], [], now,
      true, 0)
  }

  predicate IsUnbuilt(slot: GridSlot) {
    |slot.name| > 0 && slot.name[0] == '?'
  }

  function Distance(a: int, b: int): nat { if a < b then b - a else a - b }

  /**
   * The starter fields grid is 5x5, every slot at level 0, the town in the
   * centre, and the active (not '?'-prefixed) slots are exactly the town and
   * its four orthogonal neighbours: one forest, clay pit, cave and wheat field.
   */
  lemma StarterFieldsLayout()
    ensures |StarterFields| == 5 && forall r :: 0 <= r < 5 ==> |StarterFields[r]| == 5
    ensures forall r, c :: 0 <= r < 5 && 0 <= c < 5 ==> StarterFields[r][c].level == 0
    ensures forall r, c :: 0 <= r < 5 && 0 <= c < 5 ==>
      (!IsUnbuilt(StarterFields[r][c]) <==> Distance(r, 2) + Distance(c, 2) <= 1)
    ensures StarterFields[2][2].name == "TOWN"
    ensures StarterFields[1][2].name == "FOREST" && StarterFields[2][1].name == "CLAY"
    ensures StarterFields[2][3].name == "CAVE" && StarterFields[3][2].name == "WHEAT"
  {
  }

  /** The starter buildings grid is 3x3 and every slot is an empty level-0 lot. */
  lemma StarterBuildingsEmpty()
    ensures |StarterBuildings| == 3
    ensures forall r :: 0 <= r < 3 ==> |StarterBuildings[r]| == 3
    ensures forall r, c :: 0 <= r < 3 && 0 <= c < 3 ==> StarterBuildings[r][c] == GridSlot("EMPTY", 0)
  {
  }
}
