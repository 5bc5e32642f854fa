/**
 * The resource ledger (src/resources.py): a fixed-key inventory with guarded
 * mutation, the list of pinned building costs, the food-efficiency scalar and
 * the redeem-code flag that other components keep on it.
 */
module Resources {

  /** An inventory or a cost: resource name to amount. */
  type Stock = map<string, int>

  /** The eleven keys of a fresh inventory. */
  const ResourceNames: seq<string> :=
    ["wood", "stone", "iron", "food", "oxygen", "robots", "steel", "copper", "gold", "emerald", "diamond"]

  /** The three resources that start at 10 and that most costs are paid in. */
  const BasicNames: set<string> := {"wood", "stone", "iron"}

  /** The inventory a new ledger starts with. */
  function InitialInventory(): (inv: Stock)
    ensures inv.Keys == set n | n in ResourceNames
    ensures forall n :: n in inv ==> inv[n] == (if n in BasicNames then 10 else 0)
  {
    map["wood" := 10, "stone" := 10, "iron" := 10, "food" := 0, "oxygen" := 0,
        "robots" := 0, "steel" := 0, "copper" := 0, "gold" := 0, "emerald" := 0,
        "diamond" := 0]
  }

  lemma InitialInventoryHasElevenKeys()
    ensures |InitialInventory()| == 11
  {
    var first := {"wood", "stone", "iron", "food", "oxygen"};
    var second := {"robots", "steel", "copper", "gold", "emerald", "diamond"};
    assert |first| == 5 && |second| == 6 && first !! second;
    assert InitialInventory().Keys == first + second;
  }

  /** `inventory.get(name, 0)`: a missing key reads as zero. */
  function Get(inv: Stock, name: string): int
  {
    if name in inv then inv[name] else 0
  }

  /** add_resource: only a key already present changes, by exactly `amount`. */
  function Added(inv: Stock, name: string, amount: int): (r: Stock)
    ensures r.Keys == inv.Keys
    ensures forall k :: k in r && k != name ==> r[k] == inv[k]
    ensures name in inv ==> r[name] == inv[name] + amount
  {
    if name in inv then inv[name := inv[name] + amount] else inv
  }

  /** has_resources: every entry of `cost` is covered, a missing key counting as zero. */
  predicate Affordable(inv: Stock, cost: Stock)
  {
    forall k :: k in cost ==> Get(inv, k) >= cost[k]
  }

  /** The inventory after every entry of `cost` is subtracted from it. */
  function Deducted(inv: Stock, cost: Stock): (r: Stock)
    ensures r.Keys == inv.Keys
  {
    map k | k in inv :: inv[k] - Get(cost, k)
  }

  /** The inventory after every entry of `cost` is added back with add_resource. */
  function Refunded(inv: Stock, cost: Stock): (r: Stock)
    ensures r.Keys == inv.Keys
  {
    map k | k in inv :: inv[k] + Get(cost, k)
  }

  /**
   * deduct_resources subtracts with `inventory[res] -= amount`, which raises
   * KeyError for a key the inventory lacks; such a key passes has_resources
   * only with an amount of zero or less. A cost that avoids this is one whose
   * unknown keys all ask for a positive amount.
   */
  predicate NoKeyError(inv: Stock, cost: Stock)
  {
    forall k :: k in cost && k !in inv ==> cost[k] > 0
  }

  /** Every cost the game builds: positive amounts of ledger resources. */
  predicate PositiveCost(cost: Stock)
  {
    forall k :: k in cost ==> k in ResourceNames && cost[k] > 0
  }

  lemma PositiveCostNeverRaises(inv: Stock, cost: Stock)
    requires PositiveCost(cost)
    ensures NoKeyError(inv, cost)
  {
  }

  /** An affordable cost that cannot raise names only keys of the inventory. */
  lemma AffordableCostIsKnown(inv: Stock, cost: Stock)
    requires NoKeyError(inv, cost) && Affordable(inv, cost)
    ensures cost.Keys <= inv.Keys
    ensures forall k :: k in inv ==> Deducted(inv, cost)[k] == inv[k] - Get(cost, k)
  {
    forall k | k in cost ensures k in inv {
      assert Get(inv, k) >= cost[k];
    }
  }

  /** With non-negative stock and non-negative costs, a successful deduct leaves nothing negative. */
  lemma DeductKeepsStockNonNegative(inv: Stock, cost: Stock)
    requires forall k :: k in inv ==> inv[k] >= 0
    requires forall k :: k in cost ==> cost[k] >= 0
    requires Affordable(inv, cost)
    ensures forall k :: k in Deducted(inv, cost) ==> Deducted(inv, cost)[k] >= 0
  {
    forall k | k in Deducted(inv, cost) ensures Deducted(inv, cost)[k] >= 0 {
      if k in cost {
        assert Get(inv, k) == inv[k];
      }
    }
  }

  /** Paying a cost and being refunded the same cost restores the inventory exactly. */
  lemma DeductThenRefund(inv: Stock, cost: Stock)
    ensures Refunded(Deducted(inv, cost), cost) == inv
  {
    var r := Refunded(Deducted(inv, cost), cost);
    assert r.Keys == inv.Keys;
    forall k | k in inv ensures r[k] == inv[k] {
    }
  }

  /** One entry of the pinned-cost list: a building name and its cost. */
  datatype Pin = Pin(name: string, cost: Stock)

  /** True iff some pinned entry carries `name`. */
  predicate IsPinned(pins: seq<Pin>, name: string)
  {
    exists i :: 0 <= i < |pins| && pins[i].name == name
  }

  /** unpin_cost: the list without the entries named `name`, the rest in their order. */
  function Unpinned(pins: seq<Pin>, name: string): (r: seq<Pin>)
    ensures |r| <= |pins|
    ensures |r| == |pins| <==> !IsPinned(pins, name)
    decreases |pins|
  {
    if pins == [] then []
    else (if pins[0].name == name then [] else [pins[0]]) + Unpinned(pins[1..], name)
  }

  /** After unpinning, no entry carries the name and every other entry is still there. */
  lemma {:induction false} UnpinnedRemovesExactlyName(pins: seq<Pin>, name: string)
    ensures !IsPinned(Unpinned(pins, name), name)
    ensures forall p :: p in Unpinned(pins, name) <==> p in pins && p.name != name
    ensures |Unpinned(pins, name)| <= |pins|
    decreases |pins|
  {
    if pins != [] {
      UnpinnedRemovesExactlyName(pins[1..], name);
      var rest := Unpinned(pins[1..], name);
      var r := Unpinned(pins, name);
      assert r == (if pins[0].name == name then [] else [pins[0]]) + rest;
      forall p ensures p in pins <==> p == pins[0] || p in pins[1..] {
        assert pins == [pins[0]] + pins[1..];
      }
      forall i | 0 <= i < |r| ensures r[i].name != name {
        assert r[i] in r;
      }
    }
  }

  /** Unpinning works entry by entry, so it keeps the relative order of what it keeps. */
  lemma {:induction false} UnpinnedAppend(a: seq<Pin>, b: seq<Pin>, name: string)
    ensures Unpinned(a + b, name) == Unpinned(a, name) + Unpinned(b, name)
    decreases |a|
  {
    if a == [] {
      assert a + b == b;
    } else {
      assert (a + b)[1..] == a[1..] + b;
      UnpinnedAppend(a[1..], b, name);
    }
  }

  /** Unpinning a name nobody carries leaves the list as it is. */
  lemma {:induction false} UnpinnedAbsent(pins: seq<Pin>, name: string)
    requires !IsPinned(pins, name)
    ensures Unpinned(pins, name) == pins
    decreases |pins|
  {
    if pins != [] {
      assert pins[0].name != name;
      assert !IsPinned(pins[1..], name) by {
        forall i | 0 <= i < |pins| - 1 ensures pins[1..][i].name != name {
          assert pins[1..][i] == pins[i + 1];
        }
      }
      UnpinnedAbsent(pins[1..], name);
      assert pins == [pins[0]] + pins[1..];
    }
  }

  /** Pinning a name that was not pinned and then unpinning it restores the list. */
  lemma PinThenUnpin(pins: seq<Pin>, name: string, cost: Stock)
    requires !IsPinned(pins, name)
    ensures Unpinned(pins + [Pin(name, cost)], name) == pins
  {
    UnpinnedAppend(pins, [Pin(name, cost)], name);
    UnpinnedAbsent(pins, name);
    assert Unpinned([Pin(name, cost)], name) == [];
  }

  /** food_efficiency is kept in hundredths: 100 stands for 1.0. */
  const FullEfficiency := 100

  class ResourceManager {
    var inventory: Stock
    var pinnedCosts: seq<Pin>
    /** food_efficiency, in hundredths. */
    var foodEfficiency: int
    /** Whether the one-time code has been redeemed (see the Findings in README.md). */
    var codeUsed: bool

    constructor ()
      ensures inventory == InitialInventory()
      ensures pinnedCosts == []
      ensures foodEfficiency == FullEfficiency
      ensures !codeUsed
    {
      inventory := InitialInventory();
      pinnedCosts := [];
      foodEfficiency := FullEfficiency;
      codeUsed := false;
    }

    method AddResource(resource: string, amount: int)
      modifies this`inventory
      ensures inventory == Added(old(inventory), resource, amount)
    {
      if resource in inventory {
        inventory := inventory[resource := inventory[resource] + amount];
      }
    }

    method RemoveResource(resource: string, amount: int) returns (ok: bool)
      modifies this`inventory
      ensures ok <==> resource in old(inventory) && old(inventory)[resource] >= amount
      ensures ok ==> inventory == old(inventory)[resource := old(inventory)[resource] - amount]
      ensures !ok ==> inventory == old(inventory)
    {
      if resource in inventory && inventory[resource] >= amount {
        inventory := inventory[resource := inventory[resource] - amount];
        return true;
      }
      return false;
    }

    /** has_resources: scans the cost entries and stops at the first one not covered. */
    method HasResources(cost: Stock) returns (ok: bool)
      ensures ok == Affordable(inventory, cost)
    {
      var rest := cost.Keys;
      while rest != {}
        invariant rest <= cost.Keys
        invariant forall k :: k in cost && k !in rest ==> Get(inventory, k) >= cost[k]
        decreases |rest|
      {
        var k :| k in rest;
        if Get(inventory, k) < cost[k] {
          return false;
        }
        rest := rest - {k};
      }
      return true;
    }

    /** deduct_resources: all entries are subtracted, or none is. */
    method DeductResources(cost: Stock) returns (ok: bool)
      requires NoKeyError(inventory, cost)
      modifies this`inventory
      ensures ok == Affordable(old(inventory), cost)
      ensures inventory == if ok then Deducted(old(inventory), cost) else old(inventory)
    {
      ok := HasResources(cost);
      if ok {
        AffordableCostIsKnown(inventory, cost);
        var rest := cost.Keys;
        while rest != {}
          invariant rest <= cost.Keys <= inventory.Keys
          invariant inventory.Keys == old(inventory).Keys
          invariant forall k :: k in inventory ==>
            inventory[k] == old(inventory)[k] - (if k in cost && k !in rest then cost[k] else 0)
          decreases |rest|
        {
          var k :| k in rest;
          inventory := inventory[k := inventory[k] - cost[k]];
          rest := rest - {k};
        }
        assert inventory == Deducted(old(inventory), cost);
      }
    }

    method PinCost(name: string, cost: Stock)
      modifies this`pinnedCosts
      ensures pinnedCosts == old(pinnedCosts) + [Pin(name, cost)]
    {
      pinnedCosts := pinnedCosts + [Pin(name, cost)];
    }

    method UnpinCost(name: string)
      modifies this`pinnedCosts
      ensures pinnedCosts == Unpinned(old(pinnedCosts), name)
      ensures !IsPinned(pinnedCosts, name)
    {
      pinnedCosts := Unpinned(pinnedCosts, name);
      UnpinnedRemovesExactlyName(old(pinnedCosts), name);
    }
  }
}
