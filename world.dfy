/**
 * Buildings and the world grid (src/world.py and the constants of
 * src/config.py): building types and their cost tables, the Building record
 * with its rolling production history, terrain generation for the triangular
 * island, tile lookup and single-occupancy building placement.
 */
module Worlds {
  import opened Options
  import opened Resources

  /** WORLD_HEIGHT. */
  const WorldHeight := 100
  /** The row of the grass surface; smaller rows are higher up. */
  const SurfaceLevel := 50
  /** Length of a building's production history. */
  const HistoryLength := 30

  /** A production history always holds exactly HistoryLength entries. */
  type History = h: seq<int> | |h| == HistoryLength witness seq(HistoryLength, _ => 0)

  /** Building levels start at 1 and only go up. */
  type Level = l: int | l >= 1 witness 1

  /**
   * Building types: the eight the cost tables name, any other name, and
   * NoType for Python's None (the type selected before any is chosen).
   */
  datatype Kind =
    | LoggingWorkshop | StoneRefinery | Mine | House | Farm | Garden | BlastFurnace | RocketShip
    | Other(name: string) | NoType

  /** The type name the source uses for a kind (also the name pinned costs carry). */
  function KindName(k: Kind): string
  {
    match k
    case LoggingWorkshop => "Logging Workshop"
    case StoneRefinery => "Stone Refinery"
    case Mine => "Mine"
    case House => "House"
    case Farm => "Farm"
    case Garden => "Garden"
    case BlastFurnace => "Blast Furnace"
    case RocketShip => "Rocket Ship"
    case Other(n) => n
    case NoType => "None"
  }

  /**
   * `Other` stands for a type name outside the tables; one that carries a
   * listed name, or "None", would be a second spelling of a named kind.
   */
  predicate WellNamed(k: Kind)
  {
    k.Other? ==> k.name !in {"Logging Workshop", "Stone Refinery", "Mine", "House", "Farm", "Garden",
      "Blast Furnace", "Rocket Ship", "None"}
  }

  /** Between well-named kinds the type name identifies the kind, so pins keyed by name are pins per kind. */
  lemma KindNameIdentifies(a: Kind, b: Kind)
    requires WellNamed(a) && WellNamed(b)
    ensures KindName(a) == KindName(b) <==> a == b
  {
  }

  /** get_cost: the fixed price table; an unlisted type costs nothing. */
  function BaseCost(k: Kind): (c: Stock)
    ensures PositiveCost(c)
    ensures (k.Other? || k.NoType?) ==> c == map[]
    ensures !(k.Other? || k.NoType?) ==> "wood" in c || "stone" in c || "iron" in c
    ensures forall r :: r in c ==> c[r] in {5, 10, 15, 20, 1000}
  {
    match k
    case LoggingWorkshop => map["wood" := 5]
    case StoneRefinery => map["stone" := 5]
    case Mine => map["iron" := 5]
    case House => map["wood" := 5, "stone" := 5, "iron" := 5]
    case Farm => map["iron" := 5, "stone" := 5, "wood" := 5]
    case Garden => map["iron" := 15, "stone" := 15, "wood" := 15, "food" := 15]
    case BlastFurnace => map["iron" := 20, "stone" := 20, "wood" := 10]
    case RocketShip => map["wood" := 1000, "stone" := 1000, "iron" := 1000]
    case _ => map[]
  }

  /** Per-unit upgrade price of each resource a type's upgrade asks for. */
  function UpgradeRate(k: Kind): Stock
  {
    match k
    case LoggingWorkshop => map["wood" := 10]
    case StoneRefinery => map["stone" := 10]
    case Mine => map["iron" := 10]
    case House => map["wood" := 10, "stone" := 10]
    case Farm => map["wood" := 10, "stone" := 10, "iron" := 10]
    case RocketShip => map["wood" := 200, "stone" := 200, "iron" := 200]
    case _ => map[]
  }

  /** get_upgrade_cost: the price of the next level for a building at `level`. */
  function UpgradeCost(k: Kind, level: int): (c: Stock)
    ensures c.Keys == UpgradeRate(k).Keys
    ensures forall r :: r in c ==> c[r] == UpgradeRate(k)[r] * level
  {
    map r | r in UpgradeRate(k) :: UpgradeRate(k)[r] * level
  }

  /** Upgrades are paid in wood, stone and iron only, and Garden, Blast Furnace and unknown types upgrade for free. */
  lemma UpgradeCostShape(k: Kind, level: int)
    requires level >= 1
    ensures PositiveCost(UpgradeCost(k, level))
    ensures UpgradeCost(k, level).Keys <= BasicNames
    ensures (k.Garden? || k.BlastFurnace? || k.Other? || k.NoType?) <==> UpgradeCost(k, level) == map[]
  {
    var c := UpgradeCost(k, level);
    if !(k.Garden? || k.BlastFurnace? || k.Other? || k.NoType?) {
      assert "wood" in c || "stone" in c || "iron" in c;
    }
  }

  /** The price of the next level grows linearly: level n costs n times level 1. */
  lemma UpgradeCostLinear(k: Kind, level: int)
    ensures UpgradeCost(k, level).Keys == UpgradeCost(k, 1).Keys
    ensures forall r :: r in UpgradeCost(k, level) ==> UpgradeCost(k, level)[r] == level * UpgradeCost(k, 1)[r]
  {
  }

  /** record_production: drop the oldest entry, append the newest. */
  function Rolled(history: seq<int>, amount: int): (r: seq<int>)
    requires |history| > 0
    ensures |r| == |history|
    ensures r[|r| - 1] == amount
  {
    history[1..] + [amount]
  }

  /** The history after recording `amounts` one by one. */
  function RolledAll(history: seq<int>, amounts: seq<int>): seq<int>
    requires |history| > 0
    decreases |amounts|
  {
    if amounts == [] then history
    else RolledAll(Rolled(history, amounts[0]), amounts[1..])
  }

  /** The history is a sliding window: it holds exactly the latest |history| values recorded. */
  lemma {:induction false} RolledAllWindow(history: seq<int>, amounts: seq<int>)
    requires |history| > 0
    ensures RolledAll(history, amounts) == (history + amounts)[|amounts|..]
    decreases |amounts|
  {
    if amounts != [] {
      var next := Rolled(history, amounts[0]);
      RolledAllWindow(next, amounts[1..]);
      assert next + amounts[1..] == (history + amounts)[1..];
    }
  }

  /** Once at least HistoryLength values are recorded, only the latest HistoryLength of them remain. */
  lemma HistoryForgetsOlderValues(history: seq<int>, amounts: seq<int>)
    requires |history| == HistoryLength <= |amounts|
    ensures RolledAll(history, amounts) == amounts[|amounts| - HistoryLength..]
  {
    RolledAllWindow(history, amounts);
    assert (history + amounts)[|amounts|..] == amounts[|amounts| - HistoryLength..];
  }

  class Building {
    const x: int
    const y: int
    const kind: Kind
    var level: Level
    /** Occupancy, used by houses only. */
    var villagers: int
    /** production_buffer, in tenths of a unit. */
    var buffer: int
    /** production_history: tenths produced per tick, or a house's occupancy. */
    var history: History
    var isLaunching: bool
    var launchOffset: int
    var boarded: int
    var gameOverTriggered: bool

    /** The state a building has when it is placed. */
    ghost predicate AsPlaced()
      reads this
    {
      level == 1 && villagers == 0 && buffer == 0 && history == seq(HistoryLength, _ => 0) &&
      !isLaunching && launchOffset == 0 && boarded == 0 && !gameOverTriggered
    }

    constructor (x: int, y: int, kind: Kind)
      ensures this.x == x && this.y == y && this.kind == kind
      ensures AsPlaced()
    {
      this.x, this.y, this.kind := x, y, kind;
      level, villagers, buffer := 1, 0, 0;
      history := seq(HistoryLength, _ => 0);
      isLaunching, launchOffset, boarded, gameOverTriggered := false, 0, 0, false;
    }

    method RecordProduction(amount: int)
      modifies this`history
      ensures history == Rolled(old(history), amount)
    {
      history := history[1..] + [amount];
    }
  }

  /** Tile types of the grid. */
  datatype Tile = Air | Grass | Dirt | Stone

  function Abs(n: int): nat
  {
    if n < 0 then -n else n
  }

  /**
   * The tile `generate` puts at (x, y): below the surface a band around the
   * centre column whose half-width is 75 - 1.8 * depth, compared here exactly
   * as 10 * dist <= 750 - 18 * depth; grass on the surface row, dirt for four
   * rows, stone below; air everywhere else.
   */
  function TerrainAt(width: int, x: int, y: int): Tile
  {
    if y < SurfaceLevel then Air
    else
      var depth := y - SurfaceLevel;
      if 10 * Abs(x - width / 2) <= 750 - 18 * depth then
        if depth == 0 then Grass else if depth < 5 then Dirt else Stone
      else Air
  }

  /** The layers of the island, row by row. */
  lemma TerrainLayers(width: int, x: int, y: int)
    ensures y < SurfaceLevel ==> TerrainAt(width, x, y) == Air
    ensures TerrainAt(width, x, SurfaceLevel) == Grass <==> Abs(x - width / 2) <= 75
    ensures SurfaceLevel < y < SurfaceLevel + 5 ==>
      (TerrainAt(width, x, y) == Dirt <==> 10 * Abs(x - width / 2) <= 750 - 18 * (y - SurfaceLevel))
    ensures y >= SurfaceLevel + 5 ==>
      (TerrainAt(width, x, y) == Stone <==> 10 * Abs(x - width / 2) <= 750 - 18 * (y - SurfaceLevel))
    ensures TerrainAt(width, x, y) == Grass ==> y == SurfaceLevel
  {
  }

  /** The band narrows with depth: a solid tile below the surface has a solid tile above it. */
  lemma TerrainHasNoOverhang(width: int, x: int, y: int)
    requires y > SurfaceLevel && TerrainAt(width, x, y) != Air
    ensures TerrainAt(width, x, y - 1) != Air
  {
  }

  /** The island tapers to a point: nothing is solid more than 41 rows below the surface. */
  lemma TerrainBottom(width: int, x: int, y: int)
    requires y > SurfaceLevel + 41
    ensures TerrainAt(width, x, y) == Air
  {
  }

  type Pos = (int, int)

  /** The positions of `order` other than `p`, in their order (what dict.pop does to the key order). */
  function Removed(order: seq<Pos>, p: Pos): (r: seq<Pos>)
    ensures forall q :: q in r <==> q in order && q != p
    ensures (forall i, j :: 0 <= i < j < |order| ==> order[i] != order[j]) ==>
      (forall i, j :: 0 <= i < j < |r| ==> r[i] != r[j])
    decreases |order|
  {
    if order == [] then []
    else
      var rest := Removed(order[1..], p);
      assert forall q :: q in order <==> q == order[0] || q in order[1..] by {
        assert order == [order[0]] + order[1..];
      }
      if order[0] == p then rest
      else
        assert (forall i, j :: 0 <= i < j < |order| ==> order[i] != order[j]) ==> order[0] !in rest by {
          if forall i, j :: 0 <= i < j < |order| ==> order[i] != order[j] {
            forall k | 0 <= k < |order| - 1 ensures order[1..][k] != order[0] {
              assert order[1..][k] == order[k + 1];
            }
          }
        }
        [order[0]] + rest
  }

  /** Removing the key added last gives back the order as it was before it was added. */
  lemma {:induction false} RemovedAppended(order: seq<Pos>, p: Pos)
    requires p !in order
    ensures Removed(order + [p], p) == order
    decreases |order|
  {
    if order == [] {
      assert Removed([p], p) == Removed([], p);
    } else {
      assert (order + [p])[1..] == order[1..] + [p];
      RemovedAppended(order[1..], p);
      assert order == [order[0]] + order[1..];
    }
  }

  class World {
    const width: nat
    const height: nat
    const grid: array2<Tile>
    /** The buildings, keyed by their position. */
    var buildings: map<Pos, Building>
    /** The insertion order of `buildings`, in which the source iterates it. */
    var order: seq<Pos>

    predicate InBounds(x: int, y: int)
    {
      0 <= x < width && 0 <= y < height
    }

    /** The grid holds the generated terrain. */
    ghost predicate TerrainValid()
      reads grid
    {
      height == WorldHeight && grid.Length0 == width && grid.Length1 == height &&
      forall x, y :: 0 <= x < width && 0 <= y < height ==> grid[x, y] == TerrainAt(width, x, y)
    }

    /** `order` lists every key once, and every building sits, in bounds, at its own key. */
    ghost predicate Keyed()
      reads this
    {
      (forall p :: p in buildings <==> p in order) &&
      (forall i, j :: 0 <= i < j < |order| ==> order[i] != order[j]) &&
      (forall p :: p in buildings ==> buildings[p].x == p.0 && buildings[p].y == p.1 && InBounds(p.0, p.1))
    }

    ghost predicate Valid()
      reads this, grid
    {
      TerrainValid() && Keyed()
    }

    /** `World(width)`: an empty world whose grid is generated at once. */
    constructor (width: nat)
      ensures this.width == width && height == WorldHeight
      ensures buildings == map[] && order == []
      ensures Valid()
      ensures fresh(grid)
    {
      this.width := width;
      height := WorldHeight;
      grid := new Tile[width, WorldHeight];
      buildings := map[];
      order := [];
      new;
      Generate();
    }

    /** generate: fills every column, top to bottom. */
    method Generate()
      requires grid.Length0 == width && grid.Length1 == height == WorldHeight
      modifies grid
      ensures TerrainValid()
    {
      var x := 0;
      while x < width
        invariant 0 <= x <= width
        invariant forall i, j :: 0 <= i < x && 0 <= j < height ==> grid[i, j] == TerrainAt(width, i, j)
      {
        var y := 0;
        while y < height
          invariant 0 <= y <= height
          invariant forall i, j :: 0 <= i < x && 0 <= j < height ==> grid[i, j] == TerrainAt(width, i, j)
          invariant forall j :: 0 <= j < y ==> grid[x, j] == TerrainAt(width, x, j)
        {
          grid[x, y] := TerrainAt(width, x, y);
          y := y + 1;
        }
        x := x + 1;
      }
    }

    /** get_tile: the tile at (x, y), or None exactly when (x, y) is off the grid. */
    function GetTile(x: int, y: int): (t: Option<Tile>)
      requires TerrainValid()
      reads grid
      ensures t.None? <==> !InBounds(x, y)
      ensures t.Some? ==> t.value == TerrainAt(width, x, y)
    {
      if 0 <= x < width && 0 <= y < height then Some(grid[x, y]) else None
    }

    /** get_building_at: the building keyed (x, y), or null. */
    function GetBuildingAt(x: int, y: int): (b: Building?)
      reads this
      ensures b != null <==> (x, y) in buildings
      ensures b != null ==> b == buildings[(x, y)]
    {
      if (x, y) in buildings then buildings[(x, y)] else null
    }

    /** The buildings in iteration order. */
    function InOrder(): (bs: seq<Building>)
      requires Keyed()
      reads this
      ensures |bs| == |order|
      ensures forall i :: 0 <= i < |bs| ==> order[i] in buildings && bs[i] == buildings[order[i]]
    {
      seq(|order|, i requires 0 <= i < |order| && order[i] in buildings reads this => buildings[order[i]])
    }

    /** The iteration order visits each building once, and only the world's buildings. */
    lemma InOrderValid()
      requires Keyed()
      ensures forall i, j :: 0 <= i < j < |InOrder()| ==> InOrder()[i] != InOrder()[j]
      ensures forall i :: 0 <= i < |InOrder()| ==> InOrder()[i] in buildings.Values
    {
      var bs := InOrder();
      forall i, j | 0 <= i < j < |bs| ensures bs[i] != bs[j] {
        assert bs[i].x == order[i].0 && bs[i].y == order[i].1;
        assert bs[j].x == order[j].0 && bs[j].y == order[j].1;
      }
    }

    /** The types of the buildings, in iteration order. */
    function Kinds(): (ks: seq<Kind>)
      requires Keyed()
      reads this
      ensures |ks| == |order|
      ensures forall i :: 0 <= i < |ks| ==> ks[i] == buildings[order[i]].kind
    {
      var bs := InOrder();
      seq(|bs|, i requires 0 <= i < |bs| => bs[i].kind)
    }

    /** Some building has type `k`. */
    ghost predicate Contains(k: Kind)
      reads this
    {
      exists p :: p in buildings && buildings[p].kind == k
    }

    /** A type occurs in the list of types exactly when some building has it. */
    lemma KindsContains(k: Kind)
      requires Keyed()
      ensures k in Kinds() <==> Contains(k)
    {
      var ks := Kinds();
      if k in ks {
        var i :| 0 <= i < |ks| && ks[i] == k;
        assert buildings[order[i]].kind == k;
      }
      if Contains(k) {
        var p :| p in buildings && buildings[p].kind == k;
        var i :| 0 <= i < |order| && order[i] == p;
        assert ks[i] == k;
      }
    }

    /** has_house. */
    function HasHouse(): (r: bool)
      requires Keyed()
      reads this
      ensures r <==> Contains(House)
    {
      KindsContains(House);
      House in Kinds()
    }

    /** has_all_workshops. */
    function HasAllWorkshops(): (r: bool)
      requires Keyed()
      reads this
      ensures r <==> Contains(LoggingWorkshop) && Contains(StoneRefinery) && Contains(Mine)
    {
      KindsContains(LoggingWorkshop);
      KindsContains(StoneRefinery);
      KindsContains(Mine);
      var types := Kinds();
      LoggingWorkshop in types && StoneRefinery in types && Mine in types
    }

    /** place_building: fails off the grid or on an occupied key; otherwise adds one new building. */
    method PlaceBuilding(x: int, y: int, kind: Kind) returns (ok: bool)
      requires Keyed()
      modifies this`buildings, this`order
      ensures Keyed()
      ensures ok <==> InBounds(x, y) && (x, y) !in old(buildings)
      ensures !ok ==> buildings == old(buildings) && order == old(order)
      ensures ok ==> order == old(order) + [(x, y)]
      ensures ok ==> (x, y) in buildings && buildings == old(buildings)[(x, y) := buildings[(x, y)]]
      ensures ok ==> var b := buildings[(x, y)];
        fresh(b) && b.kind == kind && b.AsPlaced()
    {
      if !(0 <= x < width && 0 <= y < height) {
        return false;
      }
      if (x, y) in buildings {
        return false;
      }
      var b := new Building(x, y, kind);
      buildings := buildings[(x, y) := b];
      order := order + [(x, y)];
      return true;
    }

    /** `buildings.pop(p)`: the key and its building go, the other keys keep their order. */
    method RemoveBuilding(p: Pos)
      requires Keyed() && p in buildings
      modifies this`buildings, this`order
      ensures Keyed()
      ensures buildings == old(buildings) - {p}
      ensures order == Removed(old(order), p)
    {
      buildings := buildings - {p};
      order := Removed(order, p);
    }
  }
}
