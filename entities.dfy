/**
 * The villager list (src/entities.py): what a newly spawned villager looks
 * like and how the list grows. Villager movement is not modelled.
 */
module Entities {

  /** The villager behaviour states. */
  datatype VillagerState = Idle | Wander

  /** A villager's bookkeeping fields: position, state, wander target, vertical speed and job. */
  datatype Villager = Villager(x: int, y: int, state: VillagerState, targetX: int, vy: int, job: string)

  /** The job a villager gets when none is given. */
  const Unemployed := "Unemployed"

  /** `Villager(x, y, game, job)`: idle, standing still, aiming at its own column. */
  function NewVillager(x: int, y: int, job: string): (v: Villager)
    ensures v.x == x && v.y == y && v.job == job
    ensures v.state == Idle && v.targetX == v.x && v.vy == 0
  {
    Villager(x, y, Idle, x, 0, job)
  }

  class EntityManager {
    var villagers: seq<Villager>

    constructor ()
      ensures villagers == []
    {
      villagers := [];
    }

    /** get_count. */
    function Count(): nat
      reads this
    {
      |villagers|
    }

    /** spawn_villager: one new villager at the end, the others untouched. */
    method SpawnVillager(x: int, y: int, job: string := Unemployed)
      modifies this`villagers
      ensures villagers == old(villagers) + [NewVillager(x, y, job)]
      ensures Count() == old(Count()) + 1
    {
      villagers := villagers + [NewVillager(x, y, job)];
    }
  }
}
