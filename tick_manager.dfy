/**
 * The one-second simulation tick (src/tick_manager.py): the day/night clock,
 * all-or-nothing staffing of production buildings from one villager pool,
 * the houses' occupancy record and villager spawning.
 *
 * Production amounts are in tenths of a unit, so a building of level `l`
 * produces exactly `l` tenths (0.1 * l) when it is staffed. The source draws
 * its spawn chance from `random.random() < 1/6`; here the outcome of that roll
 * for the building at position `i` of the iteration order is `rolls[i]`
 * (a missing entry is a failed roll).
 */
module Ticks {
  import opened Worlds
  import opened Entities

  /** tick_interval, in milliseconds. */
  const TickInterval := 1000
  /** total_cycle_time, in ticks. */
  const CycleLength := 1200
  /** Villagers one level of a production building needs. */
  const WorkersPerLevel := 3
  /** Villagers one level of a house holds. */
  const HouseCapacityPerLevel := 20

  /** What production and spawning read of one building at the start of a tick. */
  datatype Slot = Slot(kind: Kind, level: int, villagers: int, x: int, y: int)

  /** The slot of one building, as it stands now. */
  function SlotOf(b: Building): Slot
    reads b
  {
    Slot(b.kind, b.level, b.villagers, b.x, b.y)
  }

  /** The slots of `bs`, in order. */
  function Snapshot(bs: seq<Building>): (s: seq<Slot>)
    reads set b | b in bs
    ensures |s| == |bs|
    ensures forall i :: 0 <= i < |bs| ==> s[i] == SlotOf(bs[i])
    decreases |bs|
  {
    if bs == [] then [] else Snapshot(bs[..|bs| - 1]) + [SlotOf(bs[|bs| - 1])]
  }

  // ---------------------------------------------------------------------------
  // Staffing

  /**
   * The villagers that run_production has taken from a pool of `total` once it
   * has processed the first `n` slots: a non-House slot takes 3 * level when
   * that much is still free, and nothing otherwise.
   */
  function Drawn(slots: seq<Slot>, total: int, n: int): int
    requires 0 <= n <= |slots|
    decreases n
  {
    if n == 0 then 0
    else
      var used := Drawn(slots, total, n - 1);
      var s := slots[n - 1];
      if s.kind != House && total - used >= WorkersPerLevel * s.level then used + WorkersPerLevel * s.level
      else used
  }

  /** Slot `i` is a production building and finds its full crew in the pool left by the slots before it. */
  predicate Staffed(slots: seq<Slot>, total: int, i: int)
    requires 0 <= i < |slots|
  {
    slots[i].kind != House && total - Drawn(slots, total, i) >= WorkersPerLevel * slots[i].level
  }

  /** Tenths slot `i` adds to its buffer this tick. */
  function Output(slots: seq<Slot>, total: int, i: int): int
    requires 0 <= i < |slots|
  {
    if Staffed(slots, total, i) then slots[i].level else 0
  }

  /** The history entry slot `i` records this tick: a house its occupancy, any other building its output. */
  function Entry(slots: seq<Slot>, total: int, i: int): int
    requires 0 <= i < |slots|
  {
    if slots[i].kind == House then slots[i].villagers else Output(slots, total, i)
  }

  /** A slot takes exactly 3 * level when staffed and nothing otherwise: there is no partial crew. */
  lemma DrawnStep(slots: seq<Slot>, total: int, i: int)
    requires 0 <= i < |slots|
    ensures Drawn(slots, total, i + 1) ==
      Drawn(slots, total, i) + (if Staffed(slots, total, i) then WorkersPerLevel * slots[i].level else 0)
    ensures Output(slots, total, i) == (if Staffed(slots, total, i) then slots[i].level else 0)
  {
  }

  /** The villagers drawn in one tick never exceed the pool, nor fall below zero. */
  lemma {:induction false} DrawnWithinPool(slots: seq<Slot>, total: int, n: int)
    requires 0 <= n <= |slots|
    requires total >= 0
    requires forall i :: 0 <= i < |slots| ==> slots[i].level >= 0
    ensures 0 <= Drawn(slots, total, n) <= total
    decreases n
  {
    if n > 0 {
      DrawnWithinPool(slots, total, n - 1);
    }
  }

  /** Staffing of the first `n` slots depends on those slots only. */
  lemma {:induction false} DrawnPrefix(a: seq<Slot>, b: seq<Slot>, total: int, n: int)
    requires 0 <= n <= |a| && n <= |b|
    requires a[..n] == b[..n]
    ensures Drawn(a, total, n) == Drawn(b, total, n)
    decreases n
  {
    if n > 0 {
      assert a[..n - 1] == a[..n][..n - 1] && b[..n - 1] == b[..n][..n - 1];
      assert a[n - 1] == a[..n][n - 1];
      assert b[n - 1] == b[..n][n - 1];
      DrawnPrefix(a, b, total, n - 1);
    }
  }

  /** Skipping slot `i` leaves the pool after it as if slot `i` were not there at all. */
  lemma {:induction false} DrawnAfterSkip(slots: seq<Slot>, total: int, i: int, k: int)
    requires 0 <= i < k <= |slots|
    requires !Staffed(slots, total, i)
    ensures Drawn(slots, total, k) == Drawn(slots[..i] + slots[i + 1..], total, k - 1)
    decreases k
  {
    var t := slots[..i] + slots[i + 1..];
    if k == i + 1 {
      assert t[..i] == slots[..i];
      DrawnPrefix(slots, t, total, i);
    } else {
      DrawnAfterSkip(slots, total, i, k - 1);
      assert t[k - 2] == slots[k - 1];
    }
  }

  /**
   * A slot left unstaffed (a house, or a building the pool cannot cover) does
   * not stop later slots: each of them is staffed exactly as it would be if
   * the skipped slot were absent.
   */
  lemma SkippedIsInvisible(slots: seq<Slot>, total: int, i: int, j: int)
    requires 0 <= i < j < |slots|
    requires !Staffed(slots, total, i)
    ensures Staffed(slots, total, j) <==> Staffed(slots[..i] + slots[i + 1..], total, j - 1)
  {
    DrawnAfterSkip(slots, total, i, j);
    assert (slots[..i] + slots[i + 1..])[j - 1] == slots[j];
  }

  // ---------------------------------------------------------------------------
  // Spawning

  /** Slot `i` is a house below its capacity whose spawn roll came up. */
  predicate Grows(slots: seq<Slot>, rolls: seq<bool>, i: int)
    requires 0 <= i < |slots|
  {
    slots[i].kind == House && slots[i].villagers < HouseCapacityPerLevel * slots[i].level &&
    i < |rolls| && rolls[i]
  }

  /** The villagers run_spawning appends, one per growing house, in building order. */
  function Newcomers(slots: seq<Slot>, rolls: seq<bool>): seq<Villager>
    decreases |slots|
  {
    if slots == [] then []
    else
      var n := |slots| - 1;
      Newcomers(slots[..n], rolls) +
        (if Grows(slots, rolls, n) then [NewVillager(slots[n].x, slots[n].y, Unemployed)] else [])
  }

  /** A growing house stays within 20 * level, and only houses grow. */
  lemma SpawningRespectsCapacity(slots: seq<Slot>, rolls: seq<bool>, i: int)
    requires 0 <= i < |slots|
    requires slots[i].villagers <= HouseCapacityPerLevel * slots[i].level
    ensures Grows(slots, rolls, i) ==> slots[i].kind == House
    ensures slots[i].villagers + (if Grows(slots, rolls, i) then 1 else 0) <= HouseCapacityPerLevel * slots[i].level
  {
  }

  /** One more slot appends its newcomer, if it grows. */
  lemma NewcomersStep(slots: seq<Slot>, rolls: seq<bool>, i: int)
    requires 0 <= i < |slots|
    ensures Newcomers(slots[..i + 1], rolls) == Newcomers(slots[..i], rolls) +
      (if Grows(slots, rolls, i) then [NewVillager(slots[i].x, slots[i].y, Unemployed)] else [])
  {
    assert slots[..i + 1][..i] == slots[..i];
  }

  /**
   * The newcomers are exactly the unemployed villagers standing at growing
   * houses, at most one per building.
   */
  lemma {:induction false} NewcomersFromGrowingHouses(slots: seq<Slot>, rolls: seq<bool>)
    ensures |Newcomers(slots, rolls)| <= |slots|
    ensures forall v :: v in Newcomers(slots, rolls) <==>
      exists i :: 0 <= i < |slots| && Grows(slots, rolls, i) && v == NewVillager(slots[i].x, slots[i].y, Unemployed)
    decreases |slots|
  {
    if slots != [] {
      var n := |slots| - 1;
      var init := slots[..n];
      NewcomersFromGrowingHouses(init, rolls);
      forall i | 0 <= i < n ensures Grows(init, rolls, i) == Grows(slots, rolls, i) && init[i] == slots[i] {
      }
      forall v | v in Newcomers(slots, rolls)
        ensures exists i :: 0 <= i < |slots| && Grows(slots, rolls, i) && v == NewVillager(slots[i].x, slots[i].y, Unemployed)
      {
        if v in Newcomers(init, rolls) {
          var i :| 0 <= i < n && Grows(init, rolls, i) && v == NewVillager(init[i].x, init[i].y, Unemployed);
          assert Grows(slots, rolls, i);
        }
      }
      forall v | exists i :: 0 <= i < |slots| && Grows(slots, rolls, i) && v == NewVillager(slots[i].x, slots[i].y, Unemployed)
        ensures v in Newcomers(slots, rolls)
      {
        var i :| 0 <= i < |slots| && Grows(slots, rolls, i) && v == NewVillager(slots[i].x, slots[i].y, Unemployed);
        if i < n {
          assert Grows(init, rolls, i);
        }
      }
    }
  }

  // ---------------------------------------------------------------------------
  // Clock

  /** One tick of the day/night clock. */
  function ClockStep(t: int): (r: int)
    ensures 0 <= r < CycleLength
    ensures 0 <= t < CycleLength - 1 ==> r == t + 1
    ensures t == CycleLength - 1 ==> r == 0
  {
    (t + 1) % CycleLength
  }

  /** The clock after `n` ticks from `t`. */
  function Clock(t: int, n: nat): int
    decreases n
  {
    if n == 0 then t else ClockStep(Clock(t, n - 1))
  }

  predicate IsDayAt(t: int)
  {
    t < CycleLength / 2
  }

  /** The clock counts ticks modulo the cycle length. */
  lemma {:induction false} ClockAfter(t: int, n: nat)
    requires 0 <= t < CycleLength
    ensures Clock(t, n) == (t + n) % CycleLength
    decreases n
  {
    if n > 0 {
      ClockAfter(t, n - 1);
    }
  }

  /** From midnight-zero, the first 600 ticks of every cycle are day and the next 600 are night. */
  lemma DayAndNight(n: nat)
    ensures IsDayAt(Clock(0, n)) <==> n % CycleLength < CycleLength / 2
    ensures Clock(0, n + CycleLength) == Clock(0, n)
  {
    ClockAfter(0, n);
    ClockAfter(0, n + CycleLength);
    var q, r := n / CycleLength, n % CycleLength;
    assert n + CycleLength == (q + 1) * CycleLength + r;
  }

  class TickManager {
    const world: World
    const entities: EntityManager
    /** Time of the last tick, in milliseconds. */
    var lastTick: int
    /** Position in the day/night cycle, in ticks. */
    var currentTime: int

    ghost predicate Valid()
      reads this
    {
      0 <= currentTime < CycleLength
    }

    /** `TickManager(game)`, with the clock reading `now`. */
    constructor (world: World, entities: EntityManager, now: int)
      ensures this.world == world && this.entities == entities
      ensures lastTick == now && currentTime == 0 && Valid()
    {
      this.world, this.entities := world, entities;
      lastTick, currentTime := now, 0;
    }

    /** is_day. */
    function IsDay(): bool
      reads this
    {
      IsDayAt(currentTime)
    }

    /**
     * on_tick: the clock advances, production runs, then spawning runs, both
     * over the buildings and villager pool as they stood when the tick began
     * (a villager spawned in this tick does not work in it). Production and
     * spawning never read the clock, so advancing it after them, as done
     * here, has the same effect.
     */
    method OnTick(rolls: seq<bool>)
      requires Valid() && world.Keyed()
      modifies this`currentTime, world.buildings.Values`history, world.buildings.Values`buffer,
        world.buildings.Values`villagers, entities`villagers
      ensures Valid() && currentTime == ClockStep(old(currentTime)) && lastTick == old(lastTick)
      ensures unchanged(world)
      ensures Ticked(old(world.InOrder()), entities, rolls, old(entities.Count()))
    {
      var bs := world.InOrder();
      ghost var slots := Snapshot(bs);
      world.InOrderValid();
      TickEach(bs, entities, rolls, slots);
      currentTime := (currentTime + 1) % CycleLength;
    }

    /**
     * update: runs one tick, and records `now` as its time, exactly when at
     * least a tick interval has passed since the last one; otherwise nothing
     * changes. `now` stands for pygame's millisecond clock. A tick never reads
     * `lastTick`, so recording it after the tick, as done here, has the same
     * effect as recording it before.
     */
    method Update(now: int, rolls: seq<bool>) returns (ticked: bool)
      requires Valid() && world.Keyed()
      modifies this`lastTick, this`currentTime, world.buildings.Values`history, world.buildings.Values`buffer,
        world.buildings.Values`villagers, entities`villagers
      ensures ticked <==> now - old(lastTick) >= TickInterval
      ensures Valid() && unchanged(world)
      ensures lastTick == if ticked then now else old(lastTick)
      ensures currentTime == if ticked then ClockStep(old(currentTime)) else old(currentTime)
      ensures !ticked ==> Untouched(old(world.InOrder()), entities)
      ensures ticked ==> Ticked(old(world.InOrder()), entities, rolls, old(entities.Count()))
    {
      ticked := now - lastTick >= TickInterval;
      if ticked {
        OnTick(rolls);
        lastTick := now;
      }
    }

    /**
     * run_production: every building, in order, records one history entry;
     * staffed production buildings add `level` tenths to their buffer. The
     * pool is the villager count at the start of the call.
     */
    method RunProduction()
      requires world.Keyed()
      modifies world.buildings.Values`history, world.buildings.Values`buffer
      ensures unchanged(this) && unchanged(world) && unchanged(entities)
      ensures var bs := old(world.InOrder()); var slots := old(Snapshot(bs));
        forall i :: 0 <= i < |bs| ==>
          bs[i].history == Rolled(old(bs[i].history), Entry(slots, old(entities.Count()), i)) &&
          bs[i].buffer == old(bs[i].buffer) + Output(slots, old(entities.Count()), i)
    {
      var bs := world.InOrder();
      ghost var slots := Snapshot(bs);
      world.InOrderValid();
      ProduceEach(bs, entities.Count(), slots);
    }

    /**
     * run_spawning: every house below 20 * level whose roll comes up gains one
     * villager, and a new villager appears at the house.
     */
    method RunSpawning(rolls: seq<bool>)
      requires world.Keyed()
      modifies world.buildings.Values`villagers, entities`villagers
      ensures unchanged(this) && unchanged(world)
      ensures var bs := old(world.InOrder()); var slots := old(Snapshot(bs));
        (forall i :: 0 <= i < |bs| ==>
          bs[i].villagers == old(bs[i].villagers) + (if Grows(slots, rolls, i) then 1 else 0)) &&
        entities.villagers == old(entities.villagers) + Newcomers(slots, rolls)
    {
      var bs := world.InOrder();
      ghost var slots := Snapshot(bs);
      world.InOrderValid();
      SpawnEach(bs, entities, rolls, slots);
    }
  }

  /**
   * What one tick did to the buildings `bs` and to the villager list, given
   * the pool `total` counted when it began: every building recorded its
   * entry and added its output, every growing house gained one villager, and
   * the newcomers were appended in building order.
   */
  twostate predicate Ticked(bs: seq<Building>, entities: EntityManager, rolls: seq<bool>, total: int)
    reads (set b | b in bs)`history, (set b | b in bs)`buffer, (set b | b in bs)`villagers, entities`villagers
  {
    var slots := old(Snapshot(bs));
    (forall i :: 0 <= i < |bs| ==>
      bs[i].history == Rolled(old(bs[i].history), Entry(slots, total, i)) &&
      bs[i].buffer == old(bs[i].buffer) + Output(slots, total, i) &&
      bs[i].villagers == old(bs[i].villagers) + (if Grows(slots, rolls, i) then 1 else 0)) &&
    entities.villagers == old(entities.villagers) + Newcomers(slots, rolls)
  }

  /** Neither the tick fields of the buildings `bs` nor the villager list have changed. */
  twostate predicate Untouched(bs: seq<Building>, entities: EntityManager)
    reads (set b | b in bs)`history, (set b | b in bs)`buffer, (set b | b in bs)`villagers, entities`villagers
  {
    (forall i :: 0 <= i < |bs| ==>
      bs[i].history == old(bs[i].history) && bs[i].buffer == old(bs[i].buffer) &&
      bs[i].villagers == old(bs[i].villagers)) &&
    entities.villagers == old(entities.villagers)
  }

  /**
   * One pass of run_production's loop, for the building at position `i`: a
   * house records its occupancy; any other building records, and adds to its
   * buffer, `level` tenths when the pool still covers its crew of 3 * level,
   * and 0 otherwise. `used` is what the buildings before it have drawn.
   */
  method ProduceOne(b: Building, total: int, used: int, ghost slots: seq<Slot>, ghost i: int) returns (used': int)
    requires 0 <= i < |slots| && used == Drawn(slots, total, i)
    requires slots[i].kind == b.kind && slots[i].level == b.level && slots[i].villagers == b.villagers
    modifies b`history, b`buffer
    ensures used' == Drawn(slots, total, i + 1)
    ensures b.history == Rolled(old(b.history), Entry(slots, total, i))
    ensures b.buffer == old(b.buffer) + Output(slots, total, i)
  {
    DrawnStep(slots, total, i);
    used' := used;
    if b.kind == House {
      b.RecordProduction(b.villagers);
    } else {
      var required := WorkersPerLevel * b.level;
      var produced: int := 0;
      if total - used >= required {
        used' := used + required;
        b.buffer := b.buffer + b.level;
        produced := b.level;
      }
      b.RecordProduction(produced);
    }
  }

  /** The loop of run_production over the buildings `bs`, drawing on a pool of `total` villagers. */
  method ProduceEach(bs: seq<Building>, total: int, ghost slots: seq<Slot>)
    requires forall i, j :: 0 <= i < j < |bs| ==> bs[i] != bs[j]
    requires |slots| == |bs|
    requires forall j :: 0 <= j < |bs| ==> slots[j] == Slot(bs[j].kind, bs[j].level, bs[j].villagers, bs[j].x, bs[j].y)
    modifies (set b | b in bs)`history, (set b | b in bs)`buffer
    ensures forall j :: 0 <= j < |bs| ==>
      bs[j].history == Rolled(old(bs[j].history), Entry(slots, total, j)) &&
      bs[j].buffer == old(bs[j].buffer) + Output(slots, total, j)
  {
    var used := 0;
    var i := 0;
    while i < |bs|
      invariant 0 <= i <= |bs|
      invariant forall j :: 0 <= j < |bs| ==>
        slots[j].kind == bs[j].kind && slots[j].level == bs[j].level && slots[j].villagers == bs[j].villagers
      invariant used == Drawn(slots, total, i)
      invariant forall j :: 0 <= j < |bs| ==>
        bs[j].history == (if j < i then Rolled(old(bs[j].history), Entry(slots, total, j)) else old(bs[j].history)) &&
        bs[j].buffer == old(bs[j].buffer) + (if j < i then Output(slots, total, j) else 0)
    {
      used := ProduceOne(bs[i], total, used, slots, i);
      i := i + 1;
    }
  }

  /**
   * One pass of run_spawning's loop: a house below 20 * level whose spawn
   * roll came up gains a villager, and one villager appears at the house.
   */
  method SpawnOne(b: Building, entities: EntityManager, roll: bool)
    modifies b`villagers, entities`villagers
    ensures var grows := b.kind == House && old(b.villagers) < HouseCapacityPerLevel * b.level && roll;
      b.villagers == old(b.villagers) + (if grows then 1 else 0) &&
      entities.villagers == old(entities.villagers) + (if grows then [NewVillager(b.x, b.y, Unemployed)] else [])
  {
    if b.kind == House && b.villagers < HouseCapacityPerLevel * b.level {
      if roll {
        b.villagers := b.villagers + 1;
        entities.SpawnVillager(b.x, b.y);
      }
    }
  }

  /** Production and then spawning over the buildings `bs`, with the pool counted before either. */
  method TickEach(bs: seq<Building>, entities: EntityManager, rolls: seq<bool>, ghost slots: seq<Slot>)
    requires forall i, j :: 0 <= i < j < |bs| ==> bs[i] != bs[j]
    requires |slots| == |bs|
    requires forall j :: 0 <= j < |bs| ==> slots[j] == Slot(bs[j].kind, bs[j].level, bs[j].villagers, bs[j].x, bs[j].y)
    modifies (set b | b in bs)`history, (set b | b in bs)`buffer, (set b | b in bs)`villagers, entities`villagers
    ensures Ticked(bs, entities, rolls, old(entities.Count()))
  {
    assert Snapshot(bs) == slots;
    ProduceEach(bs, entities.Count(), slots);
    SpawnEach(bs, entities, rolls, slots);
  }

  /** The loop of run_spawning over the buildings `bs`. */
  method SpawnEach(bs: seq<Building>, entities: EntityManager, rolls: seq<bool>, ghost slots: seq<Slot>)
    requires forall i, j :: 0 <= i < j < |bs| ==> bs[i] != bs[j]
    requires |slots| == |bs|
    requires forall j :: 0 <= j < |bs| ==> slots[j] == Slot(bs[j].kind, bs[j].level, bs[j].villagers, bs[j].x, bs[j].y)
    modifies (set b | b in bs)`villagers, entities`villagers
    ensures forall j :: 0 <= j < |bs| ==>
      bs[j].villagers == old(bs[j].villagers) + (if Grows(slots, rolls, j) then 1 else 0)
    ensures entities.villagers == old(entities.villagers) + Newcomers(slots, rolls)
  {
    var i := 0;
    while i < |bs|
      invariant 0 <= i <= |bs|
      invariant forall j :: 0 <= j < |bs| ==> slots[j].kind == bs[j].kind && slots[j].level == bs[j].level
      invariant forall j :: 0 <= j < |bs| ==>
        bs[j].villagers == old(bs[j].villagers) + (if j < i && Grows(slots, rolls, j) then 1 else 0)
      invariant entities.villagers == old(entities.villagers) + Newcomers(slots[..i], rolls)
    {
      NewcomersStep(slots, rolls, i);
      SpawnOne(bs[i], entities, i < |rolls| && rolls[i]);
      i := i + 1;
    }
    assert slots[..i] == slots;
  }
}
