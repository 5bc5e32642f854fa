# Mineraria economy in Dafny

This project models the economy of Mineraria Survival, a 2D colony-building game. It covers the following, with one Dafny module per source file:

- **Resources** (`src/resources.py`): the resource ledger. It holds the inventory, the pinned building costs, the food efficiency and the flag for the redeemed bonus code.
- **Worlds** (`src/world.py`): the world.
  - Buildings have a kind, a level, a production buffer, a 30-entry production history, a house occupancy and rocket launch state.
  - The terrain grid is generated once.
  - Buildings are kept in a map keyed by tile, with their insertion order.
- **Entities** (`src/entities.py`): the villager register.
- **Ticks** (`src/tick_manager.py`): the one-second tick. It covers production under the worker pool, house growth and the day/night clock.
- **Input** (`src/input_handler.py`): build mode and placing a building.
- **Windows** (`src/ui/windows.py`):
  - the building inspector: collect, upgrade, delete with refund;
  - the code window and its one-time bonus;
  - the rocket window: boarding and launching;
  - the construction tab: build options and pinned costs;
  - the victory window.
- **UI** (`src/ui/manager.py`): the window stack. It holds the modelled windows as a datatype with one case per window class, and forwards input to the active one.
- **Games** (`src/game.py`): the per-frame update (food-efficiency decay, rocket climb and victory) and the dispatch of window replies.
- **Title** (`src/ui/title_screen.py`): the title screen that starts a new world.

The game mutates objects in place, so the ledger, world, buildings, villager register, tick manager, window stack, windows, input handler, title screen and game are Dafny classes. Each method states its new state in its `ensures` clause. Each method is specified by pure functions: `Deducted`, `Rolled`, `Drawn`, `Newcomers`, `MinuteStep`, `LaunchStep`, `RemoveFirst`, `Removed` and others. Lemmas then prove what the game promises about those functions.

Units and conventions:

- Quantities that the source keeps as floats are held as exact integers:
  - production buffers in tenths of a unit, since production is 0.1 × level per tick;
  - production histories in tenths of a unit for every building except houses, whose history entry is the villager count (`src/tick_manager.py:37`);
  - food efficiency in hundredths, so 100 is full efficiency;
  - game time in milliseconds.
- The terrain band test `dist <= 75 - 1.8 * depth` is written as `10 * dist <= 750 - 18 * depth`.
- Inputs the game reads from pygame are parameters: the current time, the frame's elapsed time, the random spawn rolls and which button or key an event hit.

## Model

| member | source | states |
|---|---|---|
| Resources.InitialInventory | src/resources.py:3-15 | the new ledger has exactly the eleven resource names; wood, stone and iron start at 10 and every other resource at 0 |
| Resources.InitialInventoryHasElevenKeys | src/resources.py:3-15 | the starting inventory has eleven distinct entries |
| Resources.Added | src/resources.py:38-40 | adding changes only the named resource, by the amount, and keeps the set of resources |
| Resources.Deducted | src/resources.py:54-63 | deduction keeps the set of resources |
| Resources.Refunded | src/ui/windows.py:131-133 | a refund keeps the set of resources |
| Resources.PositiveCostNeverRaises | src/resources.py:48-63 | a cost with only positive amounts can never hit a missing key during deduction |
| Resources.AffordableCostIsKnown | src/resources.py:48-63 | an affordable cost that raises no `KeyError` names only resources the inventory holds |
| Resources.DeductKeepsStockNonNegative | src/resources.py:48-63 | deducting an affordable non-negative cost from a non-negative inventory leaves it non-negative |
| Resources.DeductThenRefund | src/resources.py:54-63 | refunding a deducted cost restores the inventory exactly |
| Resources.Unpinned | src/resources.py:68-69 | never longer than the pin list, and shorter exactly when the name is pinned; Resources.UnpinnedRemovesExactlyName states which pins remain |
| Resources.UnpinnedRemovesExactlyName | src/resources.py:68-69 | unpinning removes every pin with that name and keeps every other pin |
| Resources.UnpinnedAppend | src/resources.py:68-69 | unpinning distributes over concatenation of pin lists |
| Resources.UnpinnedAbsent | src/resources.py:68-69 | unpinning a name that is not pinned changes nothing |
| Resources.PinThenUnpin | src/resources.py:65-69 | pinning a new name and then unpinning it restores the pin list |
| Resources.ResourceManager.constructor | src/resources.py:2-36 | a new ledger has the initial inventory, no pins, full food efficiency and the code not yet redeemed |
| Resources.ResourceManager.AddResource | src/resources.py:38-40 | the inventory becomes `Added` of the old inventory |
| Resources.ResourceManager.RemoveResource | src/resources.py:42-46 | it succeeds iff the resource is known and has at least the amount; on success exactly that entry drops by the amount, otherwise nothing changes |
| Resources.ResourceManager.HasResources | src/resources.py:48-52 | the answer is true iff every cost entry is covered by the inventory, with missing entries counting as 0 |
| Resources.ResourceManager.DeductResources | src/resources.py:54-63 | it reports whether the cost was affordable, and deducts it only then |
| Resources.ResourceManager.PinCost | src/resources.py:65-66 | the pin is appended at the end of the list |
| Resources.ResourceManager.UnpinCost | src/resources.py:68-69 | the list afterwards is the old list without that name's pins, and the name is no longer pinned |
| Text.DropLast | src/ui/title_screen.py:43 | dropping the last character gives a prefix one shorter, or the empty text |
| Text.DropLastUndoesAppend | src/ui/title_screen.py:43-46 | Backspace undoes typing one character |
| Entities.NewVillager | src/entities.py:5-13 | a new villager stands at its spawn point, idle, with no vertical speed and its target at its own position |
| Entities.EntityManager.constructor | src/entities.py:72-74 | the register starts empty |
| Entities.EntityManager.Count | src/entities.py:84-85 | get_count: the number of registered villagers, the pool that production draws from and rocket boarding is bounded by |
| Entities.EntityManager.SpawnVillager | src/entities.py:76-78 | exactly one new villager is appended, and the count grows by one |
| Worlds.KindNameIdentifies | src/world.py:28-38 | between kinds whose name is not a second spelling of a listed type, equal type names mean equal kinds |
| Worlds.BaseCost | src/world.py:28-38 | every build cost is positive and drawn from {5, 10, 15, 20, 1000}; a kind with no cost entry costs nothing and every real kind costs some wood, stone or iron |
| Worlds.UpgradeCost | src/world.py:40-51 | the upgrade cost has the kind's rate keys, each rate multiplied by the level |
| Worlds.UpgradeCostShape | src/world.py:40-51 | at level 1 or more, the upgrade cost is positive and uses only wood, stone and iron; it is empty exactly for gardens, blast furnaces and unknown kinds |
| Worlds.UpgradeCostLinear | src/world.py:40-51 | the upgrade cost at a level is that level times the level-1 cost |
| Worlds.Rolled | src/world.py:24-26 | recording keeps the history length and makes the new amount its last entry |
| Worlds.RolledAllWindow | src/world.py:24-26 | after a series of recordings, the history is the last window of old entries followed by the new amounts |
| Worlds.HistoryForgetsOlderValues | src/world.py:24-26 | after at least 30 recordings, the history holds exactly the last 30 amounts |
| Worlds.Building.constructor | src/world.py:5-22 | a placed building is at level 1 with an empty buffer, a 30-entry zero history, no villagers and no launch |
| Worlds.Building.RecordProduction | src/world.py:24-26 | the history becomes `Rolled` of the old history |
| Worlds.TerrainAt | src/world.py:79-106 | the tile generate_terrain puts at a position; Worlds.TerrainLayers, Worlds.TerrainHasNoOverhang and Worlds.TerrainBottom state its shape |
| Worlds.TerrainLayers | src/world.py:79-106 | air above the surface row; grass on the surface row within 75 tiles of the centre; then dirt for four rows and stone below, inside the band that narrows by 1.8 tiles per row |
| Worlds.TerrainHasNoOverhang | src/world.py:79-106 | every solid tile below the surface has a solid tile directly above it |
| Worlds.TerrainBottom | src/world.py:79-106 | more than 41 rows below the surface everything is air |
| Worlds.Removed | src/ui/windows.py:134 | removing a tile drops exactly that tile from the insertion order and keeps the order duplicate-free |
| Worlds.RemovedAppended | src/world.py:130 | removing the most recently placed tile restores the previous order |
| Worlds.World.constructor | src/world.py:72-77 | a new world has the given width, height 100, no buildings, and a grid of that size already generated |
| Worlds.World.Generate | src/world.py:79-106 | every grid cell holds the tile that `TerrainAt` gives for its position |
| Worlds.World.GetTile | src/world.py:108-111 | no tile outside the grid; inside it, the generated terrain at that position |
| Worlds.World.GetBuildingAt | src/world.py:133-134 | the building at that tile, or null iff there is none |
| Worlds.World.InOrder | src/tick_manager.py:35 | the buildings listed in insertion order, one per tile of the order |
| Worlds.World.InOrderValid | src/world.py:130 | the insertion-order list of buildings has no duplicates and holds only buildings of the world |
| Worlds.World.Kinds | src/world.py:136-144 | the kinds of the buildings in insertion order |
| Worlds.World.KindsContains | src/world.py:136-144 | a kind appears in that list iff some building of the world has it |
| Worlds.World.HasHouse | src/world.py:136-140 | true iff some building is a house |
| Worlds.World.HasAllWorkshops | src/world.py:142-144 | true iff the world has a logging workshop, a stone refinery and a mine |
| Worlds.World.PlaceBuilding | src/world.py:113-131 | placement succeeds iff the tile is inside the world and free; then exactly one fresh level-1 building of that kind is added at the end of the order, otherwise nothing changes |
| Worlds.World.RemoveBuilding | src/ui/windows.py:134 | the tile leaves the building map and the insertion order |
| Ticks.Snapshot | src/tick_manager.py:35-37 | records, per building and in order, the kind, level, occupancy and position a tick reads |
| Ticks.Drawn | src/tick_manager.py:35-44 | the workers the production loop has taken after a number of buildings; Ticks.DrawnWithinPool bounds it and Ticks.DrawnPrefix and Ticks.DrawnAfterSkip state how it grows |
| Ticks.DrawnWithinPool | src/tick_manager.py:40-44 | the workers drawn by production never exceed the villager count |
| Ticks.DrawnPrefix | src/tick_manager.py:35-57 | what the first n buildings draw depends only on those buildings |
| Ticks.DrawnAfterSkip | src/tick_manager.py:43-57 | an unstaffed building does not affect the workers drawn by the rest |
| Ticks.SkippedIsInvisible | src/tick_manager.py:43-57 | an unstaffed building does not change whether any later building is staffed |
| Ticks.SpawningRespectsCapacity | src/tick_manager.py:63-77 | only houses grow, and a house never grows past 20 villagers per level |
| Ticks.Newcomers | src/tick_manager.py:63-77 | the villagers the spawning loop appends; Ticks.NewcomersFromGrowingHouses states that they are one per growing house, in order |
| Ticks.NewcomersStep | src/tick_manager.py:63-77 | each growing house adds one unemployed villager at its position, in building order |
| Ticks.NewcomersFromGrowingHouses | src/tick_manager.py:63-77 | the villagers spawned in a tick are exactly one per growing house, at most one per building |
| Ticks.ClockStep | src/tick_manager.py:21 | the day/night clock advances by one second and wraps from 1199 to 0 |
| Ticks.ClockAfter | src/tick_manager.py:21 | after n ticks the clock reads (start + n) mod 1200 |
| Ticks.DayAndNight | src/tick_manager.py:79-80 | it is day for the first 600 ticks of each 1200-tick cycle, and the clock repeats every 1200 ticks |
| Ticks.TickManager.IsDay | src/tick_manager.py:79-80 | is_day on the manager's clock; Ticks.DayAndNight states the day and night halves |
| Ticks.TickManager.constructor | src/tick_manager.py:4-11 | the manager starts with the last tick at the current time and the clock at 0 |
| Ticks.TickManager.OnTick | src/tick_manager.py:19-27 | the clock steps once, and every building and the register change as one production pass followed by one spawning pass |
| Ticks.TickManager.Update | src/tick_manager.py:13-17 | a tick runs iff at least 1000 ms passed since the last one; then the last tick becomes now and the tick effects hold, otherwise no building or villager changes |
| Ticks.TickManager.RunProduction | src/tick_manager.py:29-57 | each building's history records its entry and its buffer grows by its output, all computed from the start-of-pass snapshot and villager count |
| Ticks.TickManager.RunSpawning | src/tick_manager.py:59-77 | each growing house gains one villager and the register gains the matching newcomers, in order |
| Ticks.ProduceOne | src/tick_manager.py:36-57 | one building's production step: the workers drawn so far advance by `Drawn`, and the history and buffer change as specified |
| Ticks.ProduceEach | src/tick_manager.py:35-57 | the production loop gives every building its specified history and buffer |
| Ticks.SpawnOne | src/tick_manager.py:64-77 | a house under capacity with a successful roll gains one villager and spawns one at its position; otherwise nothing changes |
| Ticks.TickEach | src/tick_manager.py:24-27 | production followed by spawning over the buildings yields the tick effects |
| Ticks.SpawnEach | src/tick_manager.py:63-77 | the spawning loop gives every house its specified occupancy and appends the newcomers |
| Input.IsPlacementValid | src/input_handler.py:47-74 | a tile is valid iff it is inside the world above the surface row and free, and it either sits on the surface row within 75 tiles of the centre or rests on another building |
| Input.InputHandler.constructor | src/input_handler.py:7-12 | build mode starts off with no type selected |
| Input.InputHandler.SetBuildMode | src/input_handler.py:42-44 | build mode is on with the chosen kind |
| Input.InputHandler.TryPlaceBuilding | src/input_handler.py:76-90 | on a valid, affordable tile the cost is deducted, the building is placed and build mode ends; otherwise the inventory, world and mode are unchanged |
| UI.RemoveFirst | src/ui/manager.py:15 | `list.remove`: one window fewer when the window is stacked, the same stack otherwise; UI.RemoveFirstSplits and UI.RemoveFirstDropsOne state which one goes |
| UI.RemoveFirstSplits | src/ui/manager.py:13-19 | closing a window removes its first occurrence and keeps the windows before and after it |
| UI.RemoveFirstDropsOne | src/ui/manager.py:13-19 | closing an open window removes exactly one copy of it from the stack |
| UI.OpenThenClose | src/ui/manager.py:9-19 | opening a window and then closing it restores the stack |
| UI.UIManager.constructor | src/ui/manager.py:4-7 | the stack starts empty with no active window |
| UI.UIManager.OpenWindow | src/ui/manager.py:9-11 | the window goes on top of the stack and becomes active |
| UI.UIManager.CloseWindow | src/ui/manager.py:13-19 | an open window is removed once and the new top becomes active; closing a window that is not open changes nothing |
| UI.UIManager.HandleInput | src/ui/manager.py:35-38 | with no active window the answer is "not handled"; otherwise the answer and the effect are exactly those of the active window's own handler (inspector, code window, rocket window, building tab or victory window), and only that window's objects change |
| Windows.ResourceOf | src/ui/windows.py:109-112 | only logging workshops, stone refineries and mines yield a resource, respectively wood, stone and iron |
| Windows.Collected | src/ui/windows.py:107-118 | the buffer and inventory after Collect; Windows.CollectMovesWholeUnits states what moves |
| Windows.CollectMovesWholeUnits | src/ui/windows.py:107-118 | collecting moves the whole units of the buffer into the inventory, so inventory×10 + buffer is conserved and less than one unit stays; nothing moves below one unit or for kinds without a resource |
| Windows.Upgraded | src/ui/windows.py:120-127 | the level and inventory after Upgrade; Windows.UpgradeStaysCapped states when it applies |
| Windows.UpgradeStaysCapped | src/ui/windows.py:120-127 | the level rises by one iff it is below 25 and the upgrade is affordable; otherwise the inventory is unchanged; the level never passes 25; stocks stay non-negative |
| Windows.DeleteUndoesPlacement | src/ui/windows.py:129-135 | deleting a just-placed building refunds its build cost exactly and restores the insertion order |
| Windows.BuildingInspector.constructor | src/ui/windows.py:34-44 | the inspector shows that building, ledger and world |
| Windows.BuildingInspector.HandleInput | src/ui/windows.py:102-136 | close and delete answer close, and collect and upgrade answer handled; each button changes only its own state as specified |
| Windows.BuildingInspector.Collect | src/ui/windows.py:107-118 | buffer and inventory become `Collected` |
| Windows.BuildingInspector.Upgrade | src/ui/windows.py:120-127 | level and inventory become `Upgraded` |
| Windows.BuildingInspector.Delete | src/ui/windows.py:129-135 | the build cost is refunded and the building leaves the map and the order |
| Windows.Refund | src/ui/windows.py:131-133 | the inventory becomes the old inventory plus the refunded cost |
| Windows.BonusAddsBasics | src/ui/windows.py:186-189 | the bonus adds 1500 to wood, stone and iron and leaves everything else unchanged |
| Windows.EnterOutcome | src/ui/windows.py:183-192 | which of the three Enter branches runs; Windows.CodeWindow.HandleInput states that the ledger pays out at most once |
| Windows.NewLedgerCannotRedeem | src/ui/windows.py:184 | on a ledger that never had the flag set, the handler as written fails even for the right code, while the corrected handler redeems it |
| Windows.EditCode | src/ui/windows.py:193-197 | the code field after a key; Windows.CodeFieldBounded states its bound |
| Windows.CodeFieldBounded | src/ui/windows.py:193-197 | the code field never grows past 20 characters, and Backspace removes one |
| Windows.CodeWindow.constructor | src/ui/windows.py:154-159 | the code field and the message start empty |
| Windows.CodeWindow.HandleInput | src/ui/windows.py:178-198 | Enter sets the already-used or invalid message, or grants the bonus, marks the code used and closes; other keys edit the field; once the code is used the flag stays set and the inventory never changes again, and any change to the inventory is the redemption that sets the flag |
| Windows.Fare | src/ui/windows.py:270-277 | boarding n villagers costs 10×n of each of wood, stone and iron |
| Windows.DeductedTimes | src/ui/windows.py:269-273 | repeated deduction keeps the set of resources |
| Windows.Boarded | src/ui/windows.py:264-281 | the boarded count and inventory after a boarding button; Windows.BoardingStaysWithinPopulation states its bounds and price |
| Windows.BoardingOneByOneCostsTheSame | src/ui/windows.py:269-280 | boarding n villagers one at a time costs exactly what boarding them all at once costs |
| Windows.BoardingStaysWithinPopulation | src/ui/windows.py:264-281 | boarding never exceeds the population, and the inventory pays exactly the fare for the villagers boarded |
| Windows.RocketWindow.constructor | src/ui/windows.py:222-232 | the window controls that rocket with that ledger and register |
| Windows.RocketWindow.HandleInput | src/ui/windows.py:260-287 | boarding follows `Boarded`; launch starts, and the window closes, iff everyone is aboard and there is at least one villager |
| Windows.TabOptions | src/ui/windows.py:296-300 | only the house is offered until a house exists; then logging workshop, stone refinery, mine, house and rocket ship, in that order |
| Windows.Toggled | src/ui/windows.py:338-346 | the pin list after a checkbox click; Windows.ToggleFlips states that it flips the pin |
| Windows.ToggleFlips | src/ui/windows.py:338-346 | ticking a box flips whether that kind is pinned, and ticking it twice restores the pins |
| Windows.BuildingTab.constructor | src/ui/windows.py:290-310 | the options follow whether the world has a house |
| Windows.BuildingTab.HandleInput | src/ui/windows.py:328-347 | an option button selects that kind for building and closes; a checkbox toggles that pin; nothing else changes |
| Windows.EndGameWindow.HandleInput | src/ui/windows.py:215-219 | the exit button answers game-over and every other event gets no reply, so the window cannot be closed any other way |
| Games.MinuteStep | src/game.py:211-217 | a new minute past the third lowers efficiency by at most 5 points and never below 0; repeated or earlier minutes change nothing |
| Games.MinuteStepOncePerMinute | src/game.py:211-217 | efficiency decays at most once per minute |
| Games.EfficiencyAfterClosedForm | src/game.py:211-217 | after m minutes efficiency is max(0, 100 − 5·max(0, m − 3)) |
| Games.EfficiencyExhausted | src/game.py:211-217 | efficiency stays within 0..100 and reaches 0 exactly from minute 23 on |
| Games.MinuteStepKeepsAboveSchedule | src/game.py:209-217 | efficiency never falls below the minute-by-minute schedule |
| Games.Launches | src/game.py:220-224 | the launch state of each building, in building order |
| Games.LaunchStep | src/game.py:221-225 | one frame of a rocket's climb; Games.LaunchOverFrames and Games.EndGameOpensOnce state its course over frames |
| Games.LaunchOverFrames | src/game.py:219-225 | after n frames a launching rocket has climbed 2n, and it triggers victory once, the first time it passes 300 |
| Games.EndGameOpensOnce | src/game.py:223-225 | a rocket opens the victory window at most once |
| Games.LaunchOne | src/game.py:221-225 | one building's climb step; a victory window is opened iff this step triggers |
| Games.LaunchEach | src/game.py:220-225 | every building climbs one step, and one fresh victory window is opened per rocket that triggers |
| Games.Game.constructor | src/game.py:68-91 | a new game is playing, not completed, with an empty world of the chosen width, a fresh ledger, no windows, no villagers, full efficiency, the code not yet redeemed and the clock at 0 |
| Games.Game.TrackTime | src/game.py:209-217 | game time grows by the frame time, and the minute clock takes one `MinuteStep` |
| Games.Game.Simulate | src/game.py:204-217 | the tick runs iff a second has passed, and then buildings and villagers change exactly as Ticks.Ticked states; otherwise they are untouched (Ticks.Untouched); time and efficiency advance as specified; no launch state changes |
| Games.Game.PlayFrame | src/game.py:205-225 | one played frame: the tick runs iff a second has passed, the clock advances, every rocket climbs one step from its state before the frame, and one fresh victory window is opened per rocket that triggers |
| Games.Game.LaunchAll | src/game.py:219-225 | every building of the world climbs one step in dictionary order, and one fresh victory window is appended per rocket that triggers |
| Games.Game.Update | src/game.py:204-225 | nothing happens unless a game is playing; otherwise tick, minute clock and rocket climb advance, with one victory window per triggering rocket |
| Games.Game.OnReply | src/game.py:170-195 | close removes the active window and changes neither play, completion nor the title screen; the game-over reply ends play, marks the world completed, empties the windows and resets the title screen; nothing else changes |
| Title.SizeWidth | src/config.py:23-27 | small, medium and large worlds are 75, 150 and 300 tiles wide |
| Title.EditName | src/ui/title_screen.py:42-46 | the world name after a key on the naming screen; Title.NameFieldStaysValid and Title.TypeThenBackspace state its properties |
| Title.NameFieldStaysValid | src/ui/title_screen.py:38-46 | the world name stays alphanumeric and at most 15 characters |
| Title.TypeThenBackspace | src/ui/title_screen.py:42-46 | Backspace after an accepted character restores the name |
| Title.TitleScreen.constructor | src/ui/title_screen.py:7-27 | the title screen starts in the main menu with an empty name |
| Title.TitleScreen.HandleInput | src/ui/title_screen.py:29-52 | main menu: new goes to naming, exit quits. Naming: Enter with a name goes to the size screen, other keys edit the name. Size screen: a size button starts a game with the name and that size's width. Nothing else changes. |
| Title.TitleScreen.Reset | src/game.py:191-192 | leaving a game returns the title screen to the main menu with an empty name |

## Left out

- Drawing, fonts, music, assets, the camera and particles are not modelled. Neither is how a mouse position maps to a button: events arrive already resolved to the button or key they hit.
- Villager movement, job assignment and the per-frame villager update (`src/entities.py:15-69`, `src/entities.py:80-82`) are not modelled: villagers are records of their spawn data.
- Saving and loading (`src/save_manager.py`) are not modelled, nor is the title screen's load screen (`src/ui/title_screen.py:54-66`): it is never entered, and it reads a save list that is never set.
- The inventory, tutorial and exit-confirmation windows, and the save-and-exit and exit-without-saving replies, are not modelled. They move no resources.
- `src/game.py:150` constructs the building inspector with four arguments, but its constructor takes three. The model builds it with building, ledger and world. The names imported at `src/game.py:9` that the windows module does not define are not modelled.
- The tutorial prompt that a new game opens is not modelled, so a new game starts with no windows.
- `src/game.py:68-91` resets neither `game_time` nor `last_minute_tick`; both are set only when the game object is built (`src/game.py:29-30`). The model starts each game with both at 0. In the source a second game inherits the first game's minutes, so its fresh food efficiency starts decaying at its first new minute.
- `str.isalnum` is modelled on ASCII letters and digits; Unicode letters and digits are not.
- Floating-point rounding is not modelled. Production, efficiency and game time are exact integers in tenths, hundredths and milliseconds.
- The spawn chance `random.random() < 1/6` is a parameter: one roll per building, in building order, with a missing roll read as a failure. Clock readings are parameters too.
- Ticks.TickManager.Update: the source sets `last_tick` before running the tick, while the model runs the tick first. The tick never reads `last_tick`, so the resulting state is the same.
- Resources.ResourceManager.DeductResources: the source raises `KeyError` when an affordable cost names a resource the inventory lacks, which needs an amount of 0 or less. The model requires instead that this cannot happen (`NoKeyError`). Every caller passes positive costs, and `Resources.PositiveCostNeverRaises` proves those never raise.
- Games.Game.Update: states the tick only through the tick manager's last tick and clock. What the tick does to buildings and villagers is stated by Games.Game.Simulate, which it reaches through Games.Game.PlayFrame.
- Games.Game.PlayFrame: states the tick only through the tick manager's last tick and clock, like Games.Game.Update. What the tick does to history, buffer, villagers and the villager register is stated by Games.Game.Simulate, which it calls first; the launch loop after it does not touch those fields.
- Games.Game.OnReply: the game-over branch calls `save_manager.save_game()` (`src/game.py:189`) before the reset. Saving reads `tick_manager.day_counter` (`src/save_manager.py:25`) and `resource_manager.code_used` (`src/save_manager.py:30`), which a new game never sets, so as written the save raises and the reset at `src/game.py:190-195` is not reached. The model skips the save, since saving is not modelled, and performs the reset.
- Worlds.Kind: `Other(name)` stands for a type name outside the cost tables. Nothing stops it carrying a listed name such as "House", which the model would treat as an unlisted type; Worlds.KindNameIdentifies holds only for well-named kinds.
- Games.Game.TrackTime: a frame long enough to cross several minutes applies one decay step, as the source does. It does not catch up on the skipped minutes.
- Title.TitleScreen.HandleInput: requires key events to carry at most one character of text, as a single key press does. Longer text could carry the name past 15 characters.

## Findings

| source | as written | input that shows it | evidently intended | confidence | as-written member | corrected member |
|---|---|---|---|---|---|---|
| src/ui/windows.py:184 | Enter in the code window reads `rm.code_used`, but the ledger constructor (`src/resources.py:29`) creates `used_codes` and never `code_used`, so the read fails | a new game, then Enter with `baconwithcherries` typed | a new ledger starts with the code not yet redeemed (the loader at `src/save_manager.py:87` defaults it to false), so the first correct code grants the bonus | not executed | Windows.NewLedgerCannotRedeem | Windows.CodeWindow.HandleInput |
