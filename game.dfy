/**
 * The in-game frame update (src/game.py): while a game is being played,
 * each frame runs the simulation tick, tracks elapsed play time in whole
 * minutes, lowers food efficiency once per new minute after a grace period,
 * and moves launching rockets upward, opening the victory window the first
 * time a rocket climbs past the launch height.
 *
 * Play time is kept in integer milliseconds (the source accumulates float
 * seconds); `dt` is the frame's millisecond count that pygame's clock
 * reports, and `now` is pygame's millisecond clock.
 */
module Games {
  import opened Options
  import opened Resources
  import opened Worlds
  import opened Entities
  import opened Ticks
  import opened UI
  import opened Windows
  import Title

  /** Milliseconds in one minute of play. */
  const MinuteLength := 60000
  /** Minutes of play before food efficiency starts to drop. */
  const GraceMinutes := 3
  /** Hundredths of efficiency lost per new minute after the grace period (0.05). */
  const EfficiencyDecay := 5
  /** Pixels a launching rocket climbs per frame. */
  const LaunchSpeed := 2
  /** Offset past which a launch ends the game. */
  const LaunchHeight := 300

  function Max(a: int, b: int): int
  {
    if a >= b then a else b
  }

  // ---------------------------------------------------------------------
  // Minute tracking and food-efficiency decay
  // ---------------------------------------------------------------------

  /** The latest minute seen and the food efficiency (hundredths). */
  datatype MinuteClock = MinuteClock(lastMinute: int, efficiency: int)

  /**
   * One frame of minute tracking, seeing play minute `minute`: a minute
   * later than the last one seen becomes the last one seen and, past the
   * grace period, costs one decay step, floored at zero.
   */
  function MinuteStep(minute: int, c: MinuteClock): (r: MinuteClock)
    ensures r.lastMinute == Max(c.lastMinute, minute)
    ensures c.efficiency >= 0 ==> 0 <= r.efficiency <= c.efficiency && c.efficiency - EfficiencyDecay <= r.efficiency
    ensures r.efficiency < c.efficiency ==> c.lastMinute < minute && GraceMinutes < minute
  {
    if minute > c.lastMinute then
      MinuteClock(minute, if minute > GraceMinutes then Max(0, c.efficiency - EfficiencyDecay) else c.efficiency)
    else c
  }

  /** A second frame in the same minute changes nothing: the decay is charged once per minute. */
  lemma MinuteStepOncePerMinute(minute: int, c: MinuteClock)
    ensures MinuteStep(minute, MinuteStep(minute, c)) == MinuteStep(minute, c)
  {
    var r := MinuteStep(minute, c);
    assert r.lastMinute >= minute;
  }

  /** The efficiency after minutes 1, 2, ..., m were each seen by some frame, starting from full. */
  function EfficiencyAfter(m: nat): int
  {
    if m == 0 then FullEfficiency
    else MinuteStep(m, MinuteClock(m - 1, EfficiencyAfter(m - 1))).efficiency
  }

  /** Minute by minute, efficiency stays full for three minutes, then loses 0.05 a minute down to zero. */
  lemma {:induction false} EfficiencyAfterClosedForm(m: nat)
    ensures EfficiencyAfter(m) == Max(0, FullEfficiency - EfficiencyDecay * Max(0, m - GraceMinutes))
  {
    if m > 0 {
      EfficiencyAfterClosedForm(m - 1);
    }
  }

  /** Food efficiency reaches zero exactly from minute 23 on. */
  lemma EfficiencyExhausted(m: nat)
    ensures EfficiencyAfter(m) == 0 <==> m >= 23
    ensures 0 <= EfficiencyAfter(m) <= FullEfficiency
  {
    EfficiencyAfterClosedForm(m);
  }

  /**
   * A frame that skips minutes (a long frame) charges one decay step only,
   * so the efficiency never falls below the minute-by-minute schedule.
   */
  lemma MinuteStepKeepsAboveSchedule(minute: int, c: MinuteClock)
    requires 0 <= c.lastMinute <= minute
    requires EfficiencyAfter(c.lastMinute) <= c.efficiency <= FullEfficiency
    ensures EfficiencyAfter(MinuteStep(minute, c).lastMinute) <= MinuteStep(minute, c).efficiency <= FullEfficiency
  {
    var r := MinuteStep(minute, c);
    EfficiencyAfterClosedForm(c.lastMinute);
    EfficiencyAfterClosedForm(r.lastMinute);
  }

  // ---------------------------------------------------------------------
  // Rocket launch progress
  // ---------------------------------------------------------------------

  /** What the launch logic reads and writes of one building. */
  datatype Launch = Launch(rocket: bool, launching: bool, offset: int, triggered: bool)

  function LaunchOf(b: Building): Launch
    reads b`isLaunching, b`launchOffset, b`gameOverTriggered
  {
    Launch(b.kind == RocketShip, b.isLaunching, b.launchOffset, b.gameOverTriggered)
  }

  function Launches(bs: seq<Building>): (ls: seq<Launch>)
    reads (set b | b in bs)`isLaunching, (set b | b in bs)`launchOffset, (set b | b in bs)`gameOverTriggered
    ensures |ls| == |bs| && forall i :: 0 <= i < |bs| ==> ls[i] == LaunchOf(bs[i])
  {
    if bs == [] then [] else Launches(bs[..|bs| - 1]) + [LaunchOf(bs[|bs| - 1])]
  }

  /** The launch states of `bs` are `ls` when they agree building by building. */
  lemma LaunchesPointwise(bs: seq<Building>, ls: seq<Launch>)
    requires |ls| == |bs| && forall i :: 0 <= i < |bs| ==> LaunchOf(bs[i]) == ls[i]
    ensures Launches(bs) == ls
  {
  }

  /** A Rocket Ship whose launch has begun climbs every frame. */
  predicate Climbs(s: Launch)
  {
    s.rocket && s.launching
  }

  /** This frame's climb takes the rocket past the launch height for the first time. */
  predicate Triggers(s: Launch)
  {
    Climbs(s) && s.offset + LaunchSpeed > LaunchHeight && !s.triggered
  }

  /** One frame of the launch loop for one building. */
  function LaunchStep(s: Launch): Launch
  {
    if Climbs(s) then
      var offset := s.offset + LaunchSpeed;
      s.(offset := offset, triggered := s.triggered || offset > LaunchHeight)
    else s
  }

  /** The launch state after `n` frames. */
  function LaunchAfter(s: Launch, n: nat): Launch
    decreases n
  {
    if n == 0 then s else LaunchAfter(LaunchStep(s), n - 1)
  }

  /** How many of the next `n` frames open a victory window for this building. */
  function TriggerCount(s: Launch, n: nat): nat
    decreases n
  {
    if n == 0 then 0 else (if Triggers(s) then 1 else 0) + TriggerCount(LaunchStep(s), n - 1)
  }

  /**
   * Over any number of frames, a launching rocket climbs two pixels a frame
   * and opens the victory window exactly once, in the first frame that takes
   * it past the launch height, unless it already had; every other building
   * is left alone and never opens one.
   */
  lemma {:induction false} LaunchOverFrames(s: Launch, n: nat)
    ensures LaunchAfter(s, n) == if Climbs(s) then
        s.(offset := s.offset + LaunchSpeed * n, triggered := s.triggered || (n > 0 && s.offset + LaunchSpeed * n > LaunchHeight))
      else s
    ensures TriggerCount(s, n) == if Climbs(s) && !s.triggered && n > 0 && s.offset + LaunchSpeed * n > LaunchHeight then 1 else 0
    decreases n
  {
    if n > 0 {
      LaunchOverFrames(LaunchStep(s), n - 1);
    }
  }

  /** The victory window opens at most once per building, however many frames run. */
  lemma EndGameOpensOnce(s: Launch, n: nat)
    ensures TriggerCount(s, n) <= 1
  {
    LaunchOverFrames(s, n);
  }

  /** How many of the first `n` buildings of `ls` open a victory window this frame. */
  function Fired(ls: seq<Launch>, n: nat): nat
    requires n <= |ls|
  {
    if n == 0 then 0 else Fired(ls, n - 1) + (if Triggers(ls[n - 1]) then 1 else 0)
  }

  /** Every building of `bs` has taken one launch step from its state in `start`. */
  predicate Climbed(bs: seq<Building>, start: seq<Launch>)
    requires |start| == |bs|
    reads (set b | b in bs)`isLaunching, (set b | b in bs)`launchOffset, (set b | b in bs)`gameOverTriggered
  {
    forall i :: 0 <= i < |bs| ==> LaunchOf(bs[i]) == LaunchStep(start[i])
  }

  /**
   * One pass of the launch loop: a launching rocket climbs, and one past the
   * launch height whose flag is not yet set sets it and opens a victory
   * window, which `victories` holds.
   */
  method LaunchOne(b: Building, ui: UIManager) returns (ghost victories: seq<Window>)
    requires ui.Valid()
    modifies b`launchOffset, b`gameOverTriggered, ui`windows, ui`active
    ensures ui.Valid()
    ensures LaunchOf(b) == LaunchStep(old(LaunchOf(b)))
    ensures ui.windows == old(ui.windows) + victories
    ensures |victories| == (if Triggers(old(LaunchOf(b))) then 1 else 0)
    ensures forall k :: 0 <= k < |victories| ==> victories[k].Victory? && fresh(victories[k].victory)
  {
    victories := [];
    if b.kind == RocketShip && b.isLaunching {
      b.launchOffset := b.launchOffset + LaunchSpeed;
      if b.launchOffset > LaunchHeight && !b.gameOverTriggered {
        b.gameOverTriggered := true;
        var w := new EndGameWindow();
        ui.OpenWindow(Victory(w));
        victories := [Victory(w)];
      }
    }
  }

  /** The launch loop of update, over the buildings in dictionary order. */
  method LaunchEach(bs: seq<Building>, ui: UIManager, ghost start: seq<Launch>) returns (ghost victories: seq<Window>)
    requires ui.Valid() && start == Launches(bs)
    requires forall i, j :: 0 <= i < j < |bs| ==> bs[i] != bs[j]
    modifies (set b | b in bs)`launchOffset, (set b | b in bs)`gameOverTriggered, ui`windows, ui`active
    ensures ui.Valid()
    ensures Climbed(bs, start)
    ensures ui.windows == old(ui.windows) + victories
    ensures |victories| == Fired(start, |bs|)
    ensures forall k :: 0 <= k < |victories| ==> victories[k].Victory? && fresh(victories[k].victory)
  {
    victories := [];
    var i := 0;
    while i < |bs|
      invariant 0 <= i <= |bs|
      invariant forall j :: 0 <= j < |bs| ==>
        LaunchOf(bs[j]) == if j < i then LaunchStep(start[j]) else start[j]
      invariant ui.Valid()
      invariant ui.windows == old(ui.windows) + victories
      invariant |victories| == Fired(start, i)
      invariant forall k :: 0 <= k < |victories| ==> victories[k].Victory? && fresh(victories[k].victory)
    {
      assert LaunchOf(bs[i]) == start[i];
      var more := LaunchOne(bs[i], ui);
      victories := victories + more;
      i := i + 1;
    }
  }

  // ---------------------------------------------------------------------
  // The game
  // ---------------------------------------------------------------------

  class Game {
    const world: World
    const rm: ResourceManager
    const ui: UIManager
    const entities: EntityManager
    const ticks: TickManager
    const title: Title.TitleScreen
    /** state == STATE_GAME. */
    var playing: bool
    var isCompleted: bool
    /** game_time, in milliseconds. */
    var gameTime: int
    var lastMinuteTick: int

    /** The minute clock as the pure model sees it. */
    function Clock(): MinuteClock
      reads this, rm`foodEfficiency
    {
      MinuteClock(lastMinuteTick, rm.foodEfficiency)
    }

    /**
     * The last minute seen is the current play minute, and the efficiency
     * lies between the minute-by-minute schedule and full.
     */
    ghost predicate ClockValid()
      reads this, rm`foodEfficiency
    {
      0 <= gameTime && lastMinuteTick == gameTime / MinuteLength &&
      EfficiencyAfter(lastMinuteTick) <= rm.foodEfficiency <= FullEfficiency
    }

    ghost predicate Valid()
      reads this, rm`foodEfficiency, world, ui, ticks
    {
      ticks.world == world && ticks.entities == entities && ticks.Valid() &&
      world.Keyed() && ui.Valid() && ClockValid()
    }

    /** `Game()` followed by start_new_game(name, width), with the clock reading `now`. */
    constructor (width: nat, now: int)
      ensures Valid() && playing && !isCompleted
      ensures gameTime == 0 && rm.foodEfficiency == FullEfficiency
      ensures world.width == width && world.buildings == map[] && world.order == []
      ensures rm.inventory == InitialInventory() && rm.pinnedCosts == []
      ensures ui.windows == [] && entities.villagers == [] && ticks.lastTick == now
      ensures !rm.codeUsed && ticks.currentTime == 0
    {
      var w := new World(width);
      var em := new EntityManager();
      world, entities := w, em;
      rm := new ResourceManager();
      ui := new UIManager();
      ticks := new TickManager(w, em, now);
      title := new Title.TitleScreen();
      playing, isCompleted := true, false;
      gameTime, lastMinuteTick := 0, 0;
    }

    /** The time-tracking part of update: play time grows by `dt` and the minute clock steps. */
    method TrackTime(dt: int)
      requires ClockValid() && dt >= 0
      modifies this`gameTime, this`lastMinuteTick, rm`foodEfficiency
      ensures ClockValid()
      ensures gameTime == old(gameTime) + dt
      ensures Clock() == MinuteStep(gameTime / MinuteLength, old(Clock()))
    {
      gameTime := gameTime + dt;
      var currentMinute := gameTime / MinuteLength;
      MinuteStepKeepsAboveSchedule(currentMinute, Clock());
      if currentMinute > lastMinuteTick {
        lastMinuteTick := currentMinute;
        if currentMinute > GraceMinutes {
          rm.foodEfficiency := Max(0, rm.foodEfficiency - EfficiencyDecay);
        }
      }
    }

    /**
     * The simulation part of update: the tick manager runs (`rolls` are its
     * spawn rolls; its effect on the buildings and the villagers is what
     * TickManager.Update states), then play time advances by `dt` and the
     * minute clock steps.
     */
    method Simulate(now: int, dt: int, rolls: seq<bool>) returns (ticked: bool)
      requires Valid() && dt >= 0
      modifies this`gameTime, this`lastMinuteTick, rm`foodEfficiency, ticks`lastTick, ticks`currentTime,
        world.buildings.Values`history, world.buildings.Values`buffer, world.buildings.Values`villagers,
        entities`villagers
      ensures Valid()
      ensures ticked <==> now - old(ticks.lastTick) >= TickInterval
      ensures ticks.lastTick == (if ticked then now else old(ticks.lastTick))
      ensures ticks.currentTime == (if ticked then ClockStep(old(ticks.currentTime)) else old(ticks.currentTime))
      ensures gameTime == old(gameTime) + dt && Clock() == MinuteStep(gameTime / MinuteLength, old(Clock()))
      ensures ticked ==> Ticked(old(world.InOrder()), entities, rolls, old(entities.Count()))
      ensures !ticked ==> Untouched(old(world.InOrder()), entities)
      ensures forall b :: b in world.buildings.Values ==> LaunchOf(b) == old(LaunchOf(b))
    {
      ghost var bs, total := world.InOrder(), entities.Count();
      ticked := ticks.Update(now, rolls);
      assert forall b :: b in world.buildings.Values ==> LaunchOf(b) == old(LaunchOf(b));
      TrackTime(dt);
      assert ticked ==> Ticked(bs, entities, rolls, total);
      assert !ticked ==> Untouched(bs, entities);
    }

    /** The launch loop of update, over the world's buildings in dictionary order. */
    method LaunchAll() returns (ghost victories: seq<Window>)
      requires Valid()
      modifies world.buildings.Values`launchOffset, world.buildings.Values`gameOverTriggered, ui`windows, ui`active
      ensures Valid()
      ensures Climbed(old(world.InOrder()), old(Launches(world.InOrder())))
      ensures ui.windows == old(ui.windows) + victories
      ensures |victories| == Fired(old(Launches(world.InOrder())), |old(world.InOrder())|)
      ensures forall k :: 0 <= k < |victories| ==> victories[k].Victory? && fresh(victories[k].victory)
    {
      var bs := world.InOrder();
      world.InOrderValid();
      victories := LaunchEach(bs, ui, Launches(bs));
    }

    /** One frame of update while a game is being played: the simulation step, then the launch loop. */
    method PlayFrame(now: int, dt: int, rolls: seq<bool>) returns (ticked: bool, ghost victories: seq<Window>)
      requires Valid() && dt >= 0
      modifies this`gameTime, this`lastMinuteTick, rm`foodEfficiency, ticks`lastTick, ticks`currentTime,
        world.buildings.Values`history, world.buildings.Values`buffer, world.buildings.Values`villagers,
        world.buildings.Values`launchOffset, world.buildings.Values`gameOverTriggered,
        entities`villagers, ui`windows, ui`active
      ensures Valid()
      ensures ticked <==> now - old(ticks.lastTick) >= TickInterval
      ensures ticks.lastTick == (if ticked then now else old(ticks.lastTick))
      ensures ticks.currentTime == (if ticked then ClockStep(old(ticks.currentTime)) else old(ticks.currentTime))
      ensures gameTime == old(gameTime) + dt && Clock() == MinuteStep(gameTime / MinuteLength, old(Clock()))
      ensures Climbed(old(world.InOrder()), old(Launches(world.InOrder())))
      ensures ui.windows == old(ui.windows) + victories
      ensures |victories| == Fired(old(Launches(world.InOrder())), |old(world.InOrder())|)
      ensures forall k :: 0 <= k < |victories| ==> victories[k].Victory? && fresh(victories[k].victory)
    {
      ghost var bs := world.InOrder();
      ghost var start := Launches(bs);
      ticked := Simulate(now, dt, rolls);
      world.InOrderValid();
      LaunchesPointwise(bs, start);
      victories := LaunchAll();
    }

    /**
     * update: only while a game is being played, the tick manager runs
     * (`rolls` are its spawn rolls; its effect on the buildings and the
     * villagers is what TickManager.Update states), play time advances by
     * `dt`, the minute clock steps, and every building takes one launch
     * step; `victories` are the victory windows the launches open.
     */
    method Update(now: int, dt: int, rolls: seq<bool>) returns (ticked: bool, ghost victories: seq<Window>)
      requires Valid() && dt >= 0
      modifies this`gameTime, this`lastMinuteTick, rm`foodEfficiency, ticks`lastTick, ticks`currentTime,
        world.buildings.Values`history, world.buildings.Values`buffer, world.buildings.Values`villagers,
        world.buildings.Values`launchOffset, world.buildings.Values`gameOverTriggered,
        entities`villagers, ui`windows, ui`active
      ensures Valid()
      ensures !old(playing) ==> !ticked && unchanged(this, rm, ui, ticks, entities) && unchanged(world.buildings.Values)
      ensures old(playing) ==> (ticked <==> now - old(ticks.lastTick) >= TickInterval)
      ensures old(playing) ==> ticks.lastTick == (if ticked then now else old(ticks.lastTick))
      ensures old(playing) ==> ticks.currentTime == (if ticked then ClockStep(old(ticks.currentTime)) else old(ticks.currentTime))
      ensures old(playing) ==> gameTime == old(gameTime) + dt && Clock() == MinuteStep(gameTime / MinuteLength, old(Clock()))
      ensures old(playing) ==> Climbed(old(world.InOrder()), old(Launches(world.InOrder())))
      ensures ui.windows == old(ui.windows) + victories
      ensures |victories| == (if old(playing) then Fired(old(Launches(world.InOrder())), |old(world.InOrder())|) else 0)
      ensures forall k :: 0 <= k < |victories| ==> victories[k].Victory? && fresh(victories[k].victory)
    {
      ticked, victories := false, [];
      if playing {
        ticked, victories := PlayFrame(now, dt, rolls);
      }
    }

    /**
     * The reply dispatch of the in-game event handler for the replies the
     * modelled windows give: Close closes the active window; GameOverExit
     * marks the world completed, leaves the game for the title screen's
     * main menu and clears the window stack; any other reply changes nothing.
     */
    method OnReply(r: Reply)
      requires Valid()
      modifies this`playing, this`isCompleted, ui`windows, ui`active, title
      ensures Valid()
      ensures r == Close && old(ui.active).Some? ==> ui.windows == RemoveFirst(old(ui.windows), old(ui.active).value)
      ensures r == Close ==> playing == old(playing) && isCompleted == old(isCompleted) && unchanged(title)
      ensures r == GameOverExit ==> !playing && isCompleted && ui.windows == [] && ui.active == None
      ensures r == GameOverExit ==> title.state == Title.MainMenu && title.nameInput == []
      ensures r != Close && r != GameOverExit ==> unchanged(this, ui, title)
    {
      if r == Close && ui.active.Some? {
        ui.CloseWindow(ui.active.value);
      } else if r == GameOverExit {
        isCompleted, playing := true, false;
        title.Reset();
        ui.windows, ui.active := [], None;
      }
    }
  }
}
