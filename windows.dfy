/**
 * The player actions behind the game's windows (src/ui/windows.py): the
 * building inspector's collect, upgrade and delete buttons, the code window,
 * the rocket controls, the construction tab and the victory window.
 *
 * Hit-testing is replaced by the event the click or key press amounts to:
 * the button it lands on, or a key. Every window answers an event meant for
 * a button it does not have as it answers a click on empty space.
 */
module Windows {
  import opened Options
  import opened Resources
  import opened Worlds
  import opened Entities
  import opened Input
  import opened Text

  /** A click on a window's button, a key press, or anything else. */
  datatype Event =
    | CloseButton
    | CollectButton | UpgradeButton | DeleteButton
    | BoardOneButton | BoardAllButton | LaunchButton
    | OptionButton(index: int) | Checkbox(index: int)
    | ExitButton
    | Enter | Backspace | Key(text: string)
    | Elsewhere

  /** What a window's handle_input answers; NotHandled is the stack's False when no window is open. */
  datatype Reply = Close | Handled | NoReply | GameOverExit | NotHandled

  // ---------------------------------------------------------------------------
  // Building inspector

  /** The resource a building's buffer is collected into; "" for a type that yields none. */
  function ResourceOf(k: Kind): (r: string)
    ensures r == "" || r in BasicNames
    ensures r != "" <==> k in {LoggingWorkshop, StoneRefinery, Mine}
  {
    match k
    case LoggingWorkshop => "wood"
    case StoneRefinery => "stone"
    case Mine => "iron"
    case _ => ""
  }

  /**
   * Collect on a building of type `kind` holding `buffer` tenths: with at
   * least one whole unit and a collectable type, the whole units move into
   * the inventory and the fraction stays; otherwise nothing changes.
   */
  function Collected(kind: Kind, buffer: int, inv: Stock): (int, Stock)
  {
    var res := ResourceOf(kind);
    if buffer >= 10 && res != "" then (buffer - 10 * (buffer / 10), Added(inv, res, buffer / 10))
    else (buffer, inv)
  }

  /**
   * Collecting loses nothing: counted in tenths, the collected resource plus
   * the buffer is what it was; only that resource changes; what remains is
   * under one unit; a type that yields nothing is left alone.
   */
  lemma CollectMovesWholeUnits(kind: Kind, buffer: int, inv: Stock)
    ensures var (buffer', inv') := Collected(kind, buffer, inv); var res := ResourceOf(kind);
      inv'.Keys == inv.Keys &&
      (forall k :: k in inv && k != res ==> inv'[k] == inv[k]) &&
      (res in inv ==> 10 * inv'[res] + buffer' == 10 * inv[res] + buffer) &&
      (buffer >= 10 && res != "" ==> 0 <= buffer' < 10 && buffer' == buffer % 10) &&
      (buffer < 10 || res == "" ==> buffer' == buffer && inv' == inv)
  {
  }

  /** Highest level the upgrade button reaches. */
  const MaxLevel := 25

  /**
   * Upgrade of a building of type `kind` at `level`: below the cap and with
   * the upgrade cost affordable, the cost is paid and the level goes up by
   * one; otherwise nothing changes.
   */
  function Upgraded(kind: Kind, level: Level, inv: Stock): (Level, Stock)
  {
    var cost := UpgradeCost(kind, level);
    if level < MaxLevel && Affordable(inv, cost) then (level + 1, Deducted(inv, cost)) else (level, inv)
  }

  /**
   * An upgrade raises the level by exactly one, exactly when the building is
   * under the cap and the cost is covered, so the level never passes 25 this
   * way; it never drives a non-negative stock negative.
   */
  lemma UpgradeStaysCapped(kind: Kind, level: Level, inv: Stock)
    ensures var (level', inv') := Upgraded(kind, level, inv);
      (level' == level + 1 <==> level < MaxLevel && Affordable(inv, UpgradeCost(kind, level))) &&
      (level' == level ==> inv' == inv) &&
      (level <= MaxLevel ==> level' <= MaxLevel) &&
      ((forall k :: k in inv ==> inv[k] >= 0) ==> forall k :: k in inv' ==> inv'[k] >= 0)
  {
    var cost := UpgradeCost(kind, level);
    UpgradeCostShape(kind, level);
    if level < MaxLevel && Affordable(inv, cost) && forall k :: k in inv ==> inv[k] >= 0 {
      DeductKeepsStockNonNegative(inv, cost);
    }
  }

  /**
   * Deleting a building right after placing it gives back what placing it
   * took: the price is refunded in full and the key order is as it was.
   */
  lemma DeleteUndoesPlacement(inv: Stock, kind: Kind, order: seq<Pos>, p: Pos)
    requires p !in order
    ensures Refunded(Deducted(inv, BaseCost(kind)), BaseCost(kind)) == inv
    ensures Removed(order + [p], p) == order
  {
    DeductThenRefund(inv, BaseCost(kind));
    RemovedAppended(order, p);
  }

  class BuildingInspector {
    const building: Building
    const rm: ResourceManager
    const world: World

    constructor (building: Building, rm: ResourceManager, world: World)
      ensures this.building == building && this.rm == rm && this.world == world
    {
      this.building, this.rm, this.world := building, rm, world;
    }

    /** What the inspector needs before an event: a keyed world that still holds the building it deletes. */
    ghost predicate Ready(e: Event)
      reads world
    {
      world.Keyed() && (e == DeleteButton ==> (building.x, building.y) in world.buildings)
    }

    /**
     * The inspector's answer `r` to `e` and its effect: the close button
     * answers Close; Collect and Upgrade act as `Collected` and `Upgraded`
     * say and answer Handled; Delete refunds the full price, takes the
     * building's key out of the world and answers Close; anything else
     * changes nothing.
     */
    twostate predicate Answered(e: Event, r: Reply)
      reads building, rm, world
    {
      world.Keyed() &&
      r == (match e
        case CloseButton => Close
        case CollectButton => Handled
        case UpgradeButton => Handled
        case DeleteButton => Close
        case _ => NoReply) &&
      (e == CollectButton ==>
        (building.buffer, rm.inventory) == Collected(building.kind, old(building.buffer), old(rm.inventory))) &&
      (e == UpgradeButton ==>
        (building.level, rm.inventory) == Upgraded(building.kind, old(building.level), old(rm.inventory))) &&
      (e == DeleteButton ==>
        rm.inventory == Refunded(old(rm.inventory), BaseCost(building.kind)) &&
        world.buildings == old(world.buildings) - {(building.x, building.y)} &&
        world.order == Removed(old(world.order), (building.x, building.y))) &&
      (e != CollectButton ==> building.buffer == old(building.buffer)) &&
      (e != UpgradeButton ==> building.level == old(building.level)) &&
      (e !in {CollectButton, UpgradeButton, DeleteButton} ==> rm.inventory == old(rm.inventory)) &&
      (e != DeleteButton ==> world.buildings == old(world.buildings) && world.order == old(world.order))
    }

    /** handle_input, as `Answered` states. */
    method HandleInput(e: Event) returns (r: Reply)
      requires Ready(e)
      modifies building`buffer, building`level, rm`inventory, world`buildings, world`order
      ensures Answered(e, r)
    {
      match e
      case CloseButton =>
        return Close;
      case CollectButton =>
        Collect();
        return Handled;
      case UpgradeButton =>
        Upgrade();
        return Handled;
      case DeleteButton =>
        Delete();
        return Close;
      case _ =>
        return NoReply;
    }

    /** The collect button. */
    method Collect()
      modifies building`buffer, rm`inventory
      ensures (building.buffer, rm.inventory) == Collected(building.kind, old(building.buffer), old(rm.inventory))
    {
      if building.buffer >= 10 {
        var res := ResourceOf(building.kind);
        if res != "" {
          var amount := building.buffer / 10;
          rm.AddResource(res, amount);
          building.buffer := building.buffer - 10 * amount;
        }
      }
    }

    /** The upgrade button. */
    method Upgrade()
      modifies building`level, rm`inventory
      ensures (building.level, rm.inventory) == Upgraded(building.kind, old(building.level), old(rm.inventory))
    {
      if building.level < MaxLevel {
        var cost := UpgradeCost(building.kind, building.level);
        var affordable := rm.HasResources(cost);
        if affordable {
          UpgradeCostShape(building.kind, building.level);
          PositiveCostNeverRaises(rm.inventory, cost);
          var paid := rm.DeductResources(cost);
          building.level := building.level + 1;
        }
      }
    }

    /** The delete button: the price is refunded, then the building's key is popped. */
    method Delete()
      requires world.Keyed() && (building.x, building.y) in world.buildings
      modifies rm`inventory, world`buildings, world`order
      ensures world.Keyed()
      ensures rm.inventory == Refunded(old(rm.inventory), BaseCost(building.kind))
      ensures world.buildings == old(world.buildings) - {(building.x, building.y)}
      ensures world.order == Removed(old(world.order), (building.x, building.y))
    {
      Refund(rm, BaseCost(building.kind));
      world.RemoveBuilding((building.x, building.y));
    }
  }

  /** Adds every entry of `cost` back to the ledger with add_resource, one entry at a time. */
  method Refund(rm: ResourceManager, cost: Stock)
    modifies rm`inventory
    ensures rm.inventory == Refunded(old(rm.inventory), cost)
  {
    var rest := cost.Keys;
    while rest != {}
      invariant rest <= cost.Keys
      invariant rm.inventory.Keys == old(rm.inventory).Keys
      invariant forall k :: k in rm.inventory ==>
        rm.inventory[k] == old(rm.inventory)[k] + (if k in cost && k !in rest then cost[k] else 0)
      decreases |rest|
    {
      var k :| k in rest;
      rm.AddResource(k, cost[k]);
      rest := rest - {k};
    }
  }

  // ---------------------------------------------------------------------------
  // Code window

  /** The one code the window accepts. */
  const SecretCode := "baconwithcherries"
  /** Longest text the field grows to by single-character keys. */
  const MaxCodeLength := 20

  /** What Enter does: refuse a second redemption, redeem the right code, or reject. */
  datatype CodeOutcome = AlreadyUsed | Redeemed | Invalid

  /** Enter with the redeemed flag `used` and the typed `text`. */
  function EnterOutcome(used: bool, text: string): (o: CodeOutcome)
  {
    if used then AlreadyUsed else if text == SecretCode then Redeemed else Invalid
  }

  /** The reward: 1500 each of wood, stone and iron, added one after the other. */
  function Bonus(inv: Stock): Stock
  {
    Added(Added(Added(inv, "wood", 1500), "stone", 1500), "iron", 1500)
  }

  /** The reward adds 1500 to each basic resource the inventory has, and nothing else. */
  lemma BonusAddsBasics(inv: Stock)
    ensures Bonus(inv).Keys == inv.Keys
    ensures forall k :: k in inv ==> Bonus(inv)[k] == inv[k] + (if k in BasicNames then 1500 else 0)
  {
  }

  /** The code can be redeemed only once: with the flag set, Enter never redeems, whatever the text. */
  lemma RedeemOnlyOnce(text: string)
    ensures EnterOutcome(true, text) == AlreadyUsed
    ensures EnterOutcome(false, text) == Redeemed <==> text == SecretCode
  {
  }

  /**
   * The Enter handler as written reads the ledger attribute `code_used`,
   * which the ledger's constructor never creates; `attr` is None while the
   * attribute is missing, and the result is None when the read raises.
   */
  function EnterOutcomeAsWritten(attr: Option<bool>, text: string): (o: Option<CodeOutcome>)
  {
    match attr
    case None => None
    case Some(used) => Some(EnterOutcome(used, text))
  }

  /** On a ledger that has never been saved and loaded, Enter raises even for the right code. */
  lemma NewLedgerCannotRedeem()
    ensures EnterOutcomeAsWritten(None, SecretCode) == None
    ensures EnterOutcome(false, SecretCode) == Redeemed
  {
  }

  /** The code field after a key: Backspace drops the last character, other keys append below 20 characters. */
  function EditCode(text: string, e: Event): string
  {
    match e
    case Backspace => DropLast(text)
    case Key(t) => if |text| < MaxCodeLength then text + t else text
    case _ => text
  }

  /** With keys of at most one character the field never grows past 20 characters. */
  lemma CodeFieldBounded(text: string, e: Event)
    requires |text| <= MaxCodeLength
    requires e.Key? ==> |e.text| <= 1
    ensures |EditCode(text, e)| <= MaxCodeLength
    ensures e == Backspace ==> |EditCode(text, e)| == if text == [] then 0 else |text| - 1
  {
  }

  class CodeWindow {
    const rm: ResourceManager
    var inputText: string
    var message: string

    constructor (rm: ResourceManager)
      ensures this.rm == rm && inputText == "" && message == ""
    {
      this.rm := rm;
      inputText, message := "", "";
    }

    /**
     * The code window's answer `r` to `e` and its effect: the close button
     * answers Close. Enter acts on `EnterOutcome`: a used code or a wrong one
     * only sets a message; the right one adds the reward, sets the flag and
     * answers Close. Other keys edit the field as `EditCode` says.
     */
    twostate predicate Answered(e: Event, r: Reply)
      reads this, rm
    {
      inputText == EditCode(old(inputText), e) &&
      r == (if e == CloseButton || (e == Enter && EnterOutcome(old(rm.codeUsed), old(inputText)) == Redeemed)
        then Close else NoReply) &&
      (e == Enter ==> match EnterOutcome(old(rm.codeUsed), old(inputText))
        case AlreadyUsed =>
          message == "Code already used!" && rm.inventory == old(rm.inventory) && rm.codeUsed == old(rm.codeUsed)
        case Redeemed =>
          message == old(message) && rm.inventory == Bonus(old(rm.inventory)) && rm.codeUsed
        case Invalid =>
          message == "Invalid Code!" && rm.inventory == old(rm.inventory) && rm.codeUsed == old(rm.codeUsed)) &&
      (e != Enter ==>
        message == old(message) && rm.inventory == old(rm.inventory) && rm.codeUsed == old(rm.codeUsed))
    }

    /**
     * handle_input, as `Answered` states. The code pays out only once: once
     * the flag is set it stays set and the inventory no longer changes, and
     * any change to the inventory is the redemption that sets the flag.
     */
    method HandleInput(e: Event) returns (r: Reply)
      modifies this`inputText, this`message, rm`inventory, rm`codeUsed
      ensures Answered(e, r)
      ensures old(rm.codeUsed) ==> rm.codeUsed && rm.inventory == old(rm.inventory)
      ensures rm.inventory != old(rm.inventory) ==> !old(rm.codeUsed) && rm.codeUsed
    {
      match e
      case CloseButton =>
        return Close;
      case Enter =>
        if rm.codeUsed {
          message := "Code already used!";
        } else if inputText == SecretCode {
          rm.AddResource("wood", 1500);
          rm.AddResource("stone", 1500);
          rm.AddResource("iron", 1500);
          rm.codeUsed := true;
          return Close;
        } else {
          message := "Invalid Code!";
        }
        return NoReply;
      case Backspace =>
        inputText := DropLast(inputText);
        return NoReply;
      case Key(t) =>
        if |inputText| < MaxCodeLength {
          inputText := inputText + t;
        }
        return NoReply;
      case _ =>
        return NoReply;
    }
  }

  // ---------------------------------------------------------------------------
  // Rocket controls

  /** The fare for `n` passengers: 10 each of wood, stone and iron per passenger. */
  function Fare(n: int): (c: Stock)
    ensures c.Keys == BasicNames
    ensures forall k :: k in c ==> c[k] == 10 * n
  {
    map["wood" := 10 * n, "stone" := 10 * n, "iron" := 10 * n]
  }

  /** `inv` after paying `cost` `n` times over. */
  function DeductedTimes(inv: Stock, cost: Stock, n: nat): (r: Stock)
    ensures r.Keys == inv.Keys
  {
    if n == 0 then inv else Deducted(DeductedTimes(inv, cost, n - 1), cost)
  }

  /** Boarding passengers one at a time costs exactly what boarding them all at once does. */
  lemma {:induction false} BoardingOneByOneCostsTheSame(inv: Stock, n: nat)
    ensures DeductedTimes(inv, Fare(1), n) == Deducted(inv, Fare(n))
  {
    if n > 0 {
      BoardingOneByOneCostsTheSame(inv, n - 1);
      var r := DeductedTimes(inv, Fare(1), n);
      forall k | k in inv ensures r[k] == Deducted(inv, Fare(n))[k] {
        assert Get(Fare(n), k) == Get(Fare(n - 1), k) + Get(Fare(1), k);
      }
    }
  }

  /**
   * Boarding with `boarded` of `total` villagers on board: Board One takes
   * one more for one fare, Board All takes everyone left for their fares;
   * both need someone left to board and the fare covered.
   */
  function Boarded(e: Event, boarded: int, total: int, inv: Stock): (int, Stock)
  {
    var remaining := total - boarded;
    if e == BoardOneButton && remaining > 0 && Affordable(inv, Fare(1)) then (boarded + 1, Deducted(inv, Fare(1)))
    else if e == BoardAllButton && remaining > 0 && Affordable(inv, Fare(remaining)) then (total, Deducted(inv, Fare(remaining)))
    else (boarded, inv)
  }

  /** Nobody boards twice: the count never falls and never passes the population. */
  lemma BoardingStaysWithinPopulation(e: Event, boarded: int, total: int, inv: Stock)
    requires boarded <= total
    ensures var (boarded', inv') := Boarded(e, boarded, total, inv);
      boarded <= boarded' <= total &&
      (boarded' == boarded ==> inv' == inv) &&
      (boarded' > boarded ==> inv' == Deducted(inv, Fare(boarded' - boarded)))
  {
  }

  /** The launch button works once everyone, and at least one villager, is on board. */
  predicate CanLaunch(boarded: int, total: int)
  {
    boarded >= total && total > 0
  }

  class RocketWindow {
    const building: Building
    const rm: ResourceManager
    const em: EntityManager

    constructor (building: Building, rm: ResourceManager, em: EntityManager)
      ensures this.building == building && this.rm == rm && this.em == em
    {
      this.building, this.rm, this.em := building, rm, em;
    }

    /**
     * The rocket window's answer `r` to `e` and its effect: the close button
     * answers Close; the boarding buttons act as `Boarded` says; Launch starts
     * the launch and answers Close when `CanLaunch` holds. The population is
     * the villager count.
     */
    twostate predicate Answered(e: Event, r: Reply)
      reads building, rm, em
    {
      (building.boarded, rm.inventory) == Boarded(e, old(building.boarded), em.Count(), old(rm.inventory)) &&
      building.isLaunching == (old(building.isLaunching) || (e == LaunchButton && CanLaunch(old(building.boarded), em.Count()))) &&
      r == (if e == CloseButton || (e == LaunchButton && CanLaunch(old(building.boarded), em.Count()))
        then Close else NoReply)
    }

    /** handle_input, as `Answered` states. */
    method HandleInput(e: Event) returns (r: Reply)
      modifies building`boarded, building`isLaunching, rm`inventory
      ensures Answered(e, r)
    {
      r := NoReply;
      var total := em.Count();
      var remaining := total - building.boarded;
      if e == CloseButton {
        r := Close;
      } else if e == BoardOneButton && remaining > 0 {
        var cost := Fare(1);
        var affordable := rm.HasResources(cost);
        if affordable {
          var paid := rm.DeductResources(cost);
          building.boarded := building.boarded + 1;
        }
      } else if e == BoardAllButton && remaining > 0 {
        var cost := Fare(remaining);
        var affordable := rm.HasResources(cost);
        if affordable {
          var paid := rm.DeductResources(cost);
          building.boarded := total;
        }
      } else if e == LaunchButton && building.boarded >= total && total > 0 {
        building.isLaunching := true;
        r := Close;
      }
    }
  }

  // ---------------------------------------------------------------------------
  // Construction tab

  /** The types the tab offers: only House until a house stands, then five types. */
  function TabOptions(hasHouse: bool): (ks: seq<Kind>)
    ensures House in ks
    ensures RocketShip in ks <==> hasHouse
    ensures !hasHouse ==> ks == [House]
    ensures hasHouse ==> ks == [LoggingWorkshop, StoneRefinery, Mine, House, RocketShip]
  {
    if hasHouse then [LoggingWorkshop, StoneRefinery, Mine, House, RocketShip] else [House]
  }

  /** A checkbox click: unpin the type's name when pinned, otherwise pin it with its price. */
  function Toggled(pins: seq<Pin>, kind: Kind): seq<Pin>
  {
    var name := KindName(kind);
    if IsPinned(pins, name) then Unpinned(pins, name) else pins + [Pin(name, BaseCost(kind))]
  }

  /** A checkbox flips whether the type is pinned, and two clicks on an unpinned type restore the list. */
  lemma ToggleFlips(pins: seq<Pin>, kind: Kind)
    ensures IsPinned(Toggled(pins, kind), KindName(kind)) <==> !IsPinned(pins, KindName(kind))
    ensures !IsPinned(pins, KindName(kind)) ==> Toggled(Toggled(pins, kind), kind) == pins
  {
    var name := KindName(kind);
    if IsPinned(pins, name) {
      UnpinnedRemovesExactlyName(pins, name);
    } else {
      var pinned := pins + [Pin(name, BaseCost(kind))];
      assert pinned[|pins|].name == name;
      PinThenUnpin(pins, name, BaseCost(kind));
    }
  }

  class BuildingTab {
    const handler: InputHandler
    const rm: ResourceManager
    const world: World
    const options: seq<Kind>

    /** `BuildingTab(...)`: the options depend on whether a house stands when the tab opens. */
    constructor (handler: InputHandler, rm: ResourceManager, world: World)
      requires world.Keyed()
      ensures this.handler == handler && this.rm == rm && this.world == world
      ensures options == TabOptions(world.Contains(House))
    {
      this.handler, this.rm, this.world := handler, rm, world;
      options := TabOptions(world.HasHouse());
    }

    /**
     * The tab's answer `r` to `e` and its effect: the close button answers
     * Close; an option button selects its type for building and answers
     * Close; a checkbox toggles the pin of its type and answers Handled;
     * anything else changes nothing.
     */
    twostate predicate Answered(e: Event, r: Reply)
      reads handler, rm
    {
      (e.OptionButton? && 0 <= e.index < |options| ==>
        handler.buildModeActive && handler.selectedType == options[e.index] && r == Close) &&
      (e.Checkbox? && 0 <= e.index < |options| ==>
        rm.pinnedCosts == Toggled(old(rm.pinnedCosts), options[e.index]) && r == Handled) &&
      (!(e.OptionButton? && 0 <= e.index < |options|) ==>
        handler.buildModeActive == old(handler.buildModeActive) && handler.selectedType == old(handler.selectedType)) &&
      (!(e.Checkbox? && 0 <= e.index < |options|) ==> rm.pinnedCosts == old(rm.pinnedCosts)) &&
      (e == CloseButton ==> r == Close) &&
      (!(e == CloseButton || ((e.OptionButton? || e.Checkbox?) && 0 <= e.index < |options|)) ==> r == NoReply)
    }

    /** handle_input, as `Answered` states. */
    method HandleInput(e: Event) returns (r: Reply)
      modifies handler`buildModeActive, handler`selectedType, rm`pinnedCosts
      ensures Answered(e, r)
    {
      match e
      case CloseButton =>
        return Close;
      case OptionButton(i) =>
        if 0 <= i < |options| {
          handler.SetBuildMode(options[i]);
          return Close;
        }
        return NoReply;
      case Checkbox(i) =>
        if 0 <= i < |options| {
          var kind := options[i];
          var name := KindName(kind);
          if IsPinned(rm.pinnedCosts, name) {
            rm.UnpinCost(name);
          } else {
            rm.PinCost(name, BaseCost(kind));
          }
          return Handled;
        }
        return NoReply;
      case _ =>
        return NoReply;
    }
  }

  // ---------------------------------------------------------------------------
  // Victory window

  class EndGameWindow {
    constructor ()
    {
    }

    /** The victory window's answer: the exit button answers GameOverExit and every other event gets no reply; it has no working close button. */
    predicate Answered(e: Event, r: Reply)
    {
      r == if e == ExitButton then GameOverExit else NoReply
    }

    /** handle_input, as `Answered` states. */
    method HandleInput(e: Event) returns (r: Reply)
      ensures Answered(e, r)
    {
      if e == ExitButton {
        return GameOverExit;
      }
      return NoReply;
    }
  }
}
