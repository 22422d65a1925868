/**
 * The town scene: choosing a building from the catalogue (only when it is
 * affordable), positioning and rotating its footprint, and stamping it into
 * the 3x3-or-larger buildings grid in place.
 */
module Town {

  import opened Protocol

  /** One entry of the building catalogue `buildingsData`. */
  datatype BuildingSpec = BuildingSpec(
    width: int, height: int,
    lumberCost: real, ironCost: real, clayCost: real, wheatCost: real)

  /** The pending placement: `newBuildingName`, `newBuildingWidth`, `newBuildingHeight`, `newBuildingRow`, `newBuildingColumn`. */
  datatype Placement = Placement(name: string, width: int, height: int, row: int, column: int)

  const NoPlacement := Placement("", 0, 0, 0, 0)

  /** Which button row the scene shows. */
  datatype Controls = PlacementControls  // Cancel, Rotate, Confirm
                    | ConstructionControls  // Expand, Build

  /** Cancel/Rotate/Confirm exactly when the footprint has positive width and height. */
  function ControlsShown(p: Placement): (c: Controls)
    ensures c == PlacementControls <==> p.width > 0 && p.height > 0
  {
    if p.width > 0 && p.height > 0 then PlacementControls else ConstructionControls
  }

  /** `rotateBuilding` on the placement: width and height trade places, nothing else changes. */
  function Rotated(p: Placement): (r: Placement)
    ensures r.width == p.height && r.height == p.width
    ensures r.name == p.name && r.row == p.row && r.column == p.column
  {
    p.(width := p.height, height := p.width)
  }

  /** Rotating twice restores the original dimensions, and rotating never changes which controls show. */
  lemma RotationProperties(p: Placement)
    ensures Rotated(Rotated(p)) == p
    ensures ControlsShown(Rotated(p)) == ControlsShown(p)
  {
  }

  /**
   * The `disabled` flag of a catalogue entry's select button: disabled as
   * soon as one of the four stocks is below the entry's cost.
   */
  function SelectDisabled(lumber: real, iron: real, clay: real, wheat: real, spec: BuildingSpec): (disabled: bool)
    ensures !disabled <==>
      lumber >= spec.lumberCost && iron >= spec.ironCost && clay >= spec.clayCost && wheat >= spec.wheatCost
  {
    lumber < spec.lumberCost || iron < spec.ironCost || clay < spec.clayCost || wheat < spec.wheatCost
  }

  /** Having more of every resource never disables an entry that was selectable. */
  lemma SelectableStaysSelectable(lumber: real, iron: real, clay: real, wheat: real,
                                  lumber': real, iron': real, clay': real, wheat': real, spec: BuildingSpec)
    requires !SelectDisabled(lumber, iron, clay, wheat, spec)
    requires lumber <= lumber' && iron <= iron' && clay <= clay' && wheat <= wheat'
    ensures !SelectDisabled(lumber', iron', clay', wheat', spec)
  {
  }

  /** Grid cell `buildings[a][b]` lies in the footprint: rows `column..column+height`, columns `row..row+width`. */
  predicate Covers(p: Placement, a: int, b: int) {
    p.column <= a < p.column + p.height && p.row <= b < p.row + p.width
  }

  /** A footprint with positive dimensions lies inside a grid of `rows` x `cols` slots. */
  predicate FitsIn(p: Placement, rows: int, cols: int) {
    p.width > 0 && p.height > 0 ==>
      0 <= p.column && p.column + p.height <= rows && 0 <= p.row && p.row + p.width <= cols
  }

  class TownScene {
    var buildingsSelectOpen: bool
    var newBuildingName: string
    var newBuildingWidth: int
    var newBuildingHeight: int
    var newBuildingRow: int
    var newBuildingColumn: int

    function Pending(): Placement
      reads this
    {
      Placement(newBuildingName, newBuildingWidth, newBuildingHeight, newBuildingRow, newBuildingColumn)
    }

    constructor ()
      ensures !buildingsSelectOpen && Pending() == NoPlacement
    {
      buildingsSelectOpen := false;
      newBuildingName := "";
      newBuildingWidth := 0;
      newBuildingHeight := 0;
      newBuildingRow := 0;
      newBuildingColumn := 0;
    }

    method HandleOpenBuildingSelect()
      modifies this
      ensures buildingsSelectOpen && Pending() == old(Pending())
    {
      buildingsSelectOpen := true;
    }

    method HandleCloseBuildingSelect()
      modifies this
      ensures !buildingsSelectOpen && Pending() == old(Pending())
    {
      buildingsSelectOpen := false;
    }

    /** Picking catalogue entry `key`: the dialog closes and the footprint takes the entry's name and dimensions. */
    method HandleSubmitBuildingSelect(key: string, catalogue: map<string, BuildingSpec>)
      requires key in catalogue
      modifies this
      ensures !buildingsSelectOpen
      ensures Pending() == old(Pending()).(name := key, width := catalogue[key].width, height := catalogue[key].height)
    {
      buildingsSelectOpen := false;
      newBuildingName := key;
      newBuildingWidth := catalogue[key].width;
      newBuildingHeight := catalogue[key].height;
    }

    method CancelBuildingPlacement()
      modifies this
      ensures Pending() == NoPlacement && buildingsSelectOpen == old(buildingsSelectOpen)
      ensures ControlsShown(Pending()) == ConstructionControls
    {
      newBuildingName := "";
      newBuildingWidth := 0;
      newBuildingHeight := 0;
      newBuildingRow := 0;
      newBuildingColumn := 0;
    }

    method RotateBuilding()
      modifies this
      ensures Pending() == Rotated(old(Pending())) && buildingsSelectOpen == old(buildingsSelectOpen)
    {
      newBuildingWidth, newBuildingHeight := newBuildingHeight, newBuildingWidth;
    }

    method HandleDragStop(row: int, column: int)
      modifies this
      ensures Pending() == old(Pending()).(row := row, column := column)
      ensures buildingsSelectOpen == old(buildingsSelectOpen)
    {
      newBuildingRow := row;
      newBuildingColumn := column;
    }

    /**
     * `handlePlaceBuilding`: every slot under the footprint becomes a level-0
     * slot of the pending building, every other slot is untouched, the
     * placed name is handed on, and the placement is reset.
     */
    method HandlePlaceBuilding(buildings: array2<GridSlot>) returns (placedName: string)
      requires FitsIn(Pending(), buildings.Length0, buildings.Length1)
      modifies this, buildings
      ensures placedName == old(newBuildingName)
      ensures forall a, b :: 0 <= a < buildings.Length0 && 0 <= b < buildings.Length1 ==>
        buildings[a, b] == if Covers(old(Pending()), a, b) then GridSlot(old(newBuildingName), 0) else old(buildings[a, b])
      ensures Pending() == NoPlacement && buildingsSelectOpen == old(buildingsSelectOpen)
    {
      var p := Pending();
      var i := 0;
      while i < p.width
        invariant 0 <= i && (i <= p.width || i == 0)
        invariant forall a, b :: 0 <= a < buildings.Length0 && 0 <= b < buildings.Length1 ==>
          buildings[a, b] == if Covers(p.(width := i), a, b) then GridSlot(p.name, 0) else old(buildings[a, b])
        modifies buildings
      {
        var j := 0;
        while j < p.height
          invariant 0 <= j && (j <= p.height || j == 0)
          invariant forall a, b :: 0 <= a < buildings.Length0 && 0 <= b < buildings.Length1 ==>
            buildings[a, b] == if Covers(p.(width := i), a, b) || (b == p.row + i && p.column <= a < p.column + j)
                               then GridSlot(p.name, 0) else old(buildings[a, b])
          modifies buildings
        {
          buildings[p.column + j, p.row + i] := GridSlot(p.name, 0);
          j := j + 1;
        }
        i := i + 1;
      }
      placedName := p.name;
      newBuildingName := "";
      newBuildingWidth := 0;
      newBuildingHeight := 0;
      newBuildingRow := 0;
      newBuildingColumn := 0;
    }
  }

  /** A footprint with zero width or zero height covers no slot, so placing it writes nothing. */
  lemma EmptyFootprintCoversNothing(p: Placement, a: int, b: int)
    requires p.width == 0 || p.height == 0
    ensures !Covers(p, a, b)
  {
  }
}
