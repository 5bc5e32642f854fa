/**
 * The placement rule and placement action of the build cursor
 * (src/input_handler.py). The cursor position, which the source derives from
 * the mouse through the camera, is the pair `previewX`, `previewY`.
 */
module Input {
  import opened Options
  import opened Resources
  import opened Worlds

  /**
   * is_placement_valid: the target and the tile below it are on the grid,
   * the target is air and free, it lies above the surface row, and the tile
   * below is solid or holds a building. On generated terrain this means: a
   * free cell above the surface that sits either on the grass row, within
   * 75 columns of the centre, or on top of another building.
   */
  function IsPlacementValid(world: World, tx: int, ty: int): (ok: bool)
    requires world.TerrainValid()
    reads world, world.grid
    ensures ok <==>
      0 <= tx < world.width && 0 <= ty < SurfaceLevel && (tx, ty) !in world.buildings &&
      ((ty == SurfaceLevel - 1 && Abs(tx - world.width / 2) <= 75) || (tx, ty + 1) in world.buildings)
  {
    var target := world.GetTile(tx, ty);
    var below := world.GetTile(tx, ty + 1);
    if target.None? || below.None? then false
    else if target.value != Air then false
    else if world.GetBuildingAt(tx, ty) != null then false
    else if ty >= SurfaceLevel then false
    else
      TerrainLayers(world.width, tx, ty + 1);
      below.value != Air || world.GetBuildingAt(tx, ty + 1) != null
  }

  class InputHandler {
    var buildModeActive: bool
    /** selected_building_type; NoType until a type is chosen. */
    var selectedType: Kind
    var previewX: int
    var previewY: int

    constructor ()
      ensures !buildModeActive && selectedType == NoType && previewX == 0 && previewY == 0
    {
      buildModeActive, selectedType := false, NoType;
      previewX, previewY := 0, 0;
    }

    /** set_build_mode: build mode on, with `kind` selected. */
    method SetBuildMode(kind: Kind)
      modifies this`buildModeActive, this`selectedType
      ensures buildModeActive && selectedType == kind
    {
      buildModeActive := true;
      selectedType := kind;
    }

    /**
     * try_place_building: when the cursor cell is a valid placement and the
     * selected type's cost is affordable, the cost is paid, one new building
     * of that type stands at the cell and build mode ends; otherwise nothing
     * changes. Placement cannot fail once the rule holds, since the rule
     * already checked bounds and occupancy.
     */
    method TryPlaceBuilding(world: World, rm: ResourceManager)
      requires world.Valid()
      modifies this`buildModeActive, rm`inventory, world`buildings, world`order
      ensures world.Valid()
      ensures var p := (previewX, previewY); var cost := BaseCost(selectedType);
        if old(IsPlacementValid(world, previewX, previewY)) && Affordable(old(rm.inventory), cost) then
          rm.inventory == Deducted(old(rm.inventory), cost) && !buildModeActive &&
          world.order == old(world.order) + [p] &&
          p in world.buildings && world.buildings == old(world.buildings)[p := world.buildings[p]] &&
          fresh(world.buildings[p]) && world.buildings[p].kind == selectedType && world.buildings[p].AsPlaced()
        else
          rm.inventory == old(rm.inventory) && buildModeActive == old(buildModeActive) &&
          world.buildings == old(world.buildings) && world.order == old(world.order)
    {
      var tx, ty := previewX, previewY;
      if !IsPlacementValid(world, tx, ty) {
        return;
      }
      var cost := BaseCost(selectedType);
      var affordable := rm.HasResources(cost);
      if affordable {
        PositiveCostNeverRaises(rm.inventory, cost);
        var paid := rm.DeductResources(cost);
        var placed := world.PlaceBuilding(tx, ty, selectedType);
        buildModeActive := false;
      }
    }
  }
}
