/**
 * The window stack (src/ui/manager.py): windows are opened on top, closed
 * by identity, and input goes to the active window. The stack holds the
 * windows of this model: building inspectors, the code window, rocket
 * windows, building tabs and victory windows.
 */
module UI {
  import opened Options
  import opened Resources
  import opened Worlds
  import opened Input
  import opened Windows

  /** A stacked window; two are the same window exactly when they hold the same object. */
  datatype Window =
    | Inspector(inspector: BuildingInspector)
    | Code(code: CodeWindow)
    | Rocket(rocket: RocketWindow)
    | Tab(tab: BuildingTab)
    | Victory(victory: EndGameWindow)

  /** The objects a window's answer depends on. */
  function Objects(w: Window): set<object>
  {
    match w
    case Inspector(i) => {i.building, i.rm, i.world}
    case Code(c) => {c, c.rm}
    case Rocket(k) => {k.building, k.rm, k.em}
    case Tab(t) => {t.handler, t.rm}
    case Victory(v) => {}
  }

  /** The answer `r` the window `w` gives to `e`, and its effect, as that window's own handle_input states. */
  twostate predicate Answered(w: Window, e: Event, r: Reply)
    reads Objects(w)
  {
    match w
    case Inspector(i) => i.Answered(e, r)
    case Code(c) => c.Answered(e, r)
    case Rocket(k) => k.Answered(e, r)
    case Tab(t) => t.Answered(e, r)
    case Victory(v) => v.Answered(e, r)
  }

  /** The buildings whose fields the active window's handler may change. */
  function BuildingsOf(w: Option<Window>): set<Building>
  {
    match w
    case Some(Inspector(i)) => {i.building}
    case Some(Rocket(k)) => {k.building}
    case _ => {}
  }

  /** The ledgers the active window's handler may change. */
  function LedgersOf(w: Option<Window>): set<ResourceManager>
  {
    match w
    case Some(Inspector(i)) => {i.rm}
    case Some(Code(c)) => {c.rm}
    case Some(Rocket(k)) => {k.rm}
    case Some(Tab(t)) => {t.rm}
    case _ => {}
  }

  /** The world the active window's handler may change: an inspector's, when it deletes. */
  function WorldsOf(w: Option<Window>): set<World>
  {
    match w
    case Some(Inspector(i)) => {i.world}
    case _ => {}
  }

  /** The code window itself, whose field and message its handler edits. */
  function CodeWindowsOf(w: Option<Window>): set<CodeWindow>
  {
    match w
    case Some(Code(c)) => {c}
    case _ => {}
  }

  /** The input handler a building tab's option buttons switch to build mode. */
  function HandlersOf(w: Option<Window>): set<InputHandler>
  {
    match w
    case Some(Tab(t)) => {t.handler}
    case _ => {}
  }

  /** `list.remove(w)`: the list without its first occurrence of `w`. */
  function RemoveFirst(ws: seq<Window>, w: Window): (r: seq<Window>)
    ensures |r| == |ws| - (if w in ws then 1 else 0)
    ensures w !in ws ==> r == ws
    decreases |ws|
  {
    if ws == [] then []
    else if ws[0] == w then ws[1..]
    else [ws[0]] + RemoveFirst(ws[1..], w)
  }

  /** Removing the first occurrence of `w` keeps the windows before it, and those after it in their order. */
  lemma {:induction false} RemoveFirstSplits(ws: seq<Window>, w: Window) returns (i: nat)
    requires w in ws
    ensures i < |ws| && ws[i] == w && w !in ws[..i]
    ensures RemoveFirst(ws, w) == ws[..i] + ws[i + 1..]
    decreases |ws|
  {
    if ws[0] == w {
      i := 0;
    } else {
      var j := RemoveFirstSplits(ws[1..], w);
      i := j + 1;
      assert ws[..i] == [ws[0]] + ws[1..][..j];
      assert ws[i + 1..] == ws[1..][j + 1..];
    }
  }

  /** Removing the first occurrence of a stacked window drops exactly one copy of it and nothing else. */
  lemma RemoveFirstDropsOne(ws: seq<Window>, w: Window)
    requires w in ws
    ensures multiset(RemoveFirst(ws, w)) == multiset(ws) - multiset{w}
  {
    var i := RemoveFirstSplits(ws, w);
    var before, after := ws[..i], ws[i + 1..];
    assert ws == before + [w] + after;
    assert multiset(ws) == multiset(before) + multiset{w} + multiset(after);
    assert multiset(RemoveFirst(ws, w)) == multiset(before) + multiset(after);
  }

  /** Closing a window that was just opened, and was not stacked before, gives back the old stack. */
  lemma {:induction false} OpenThenClose(ws: seq<Window>, w: Window)
    requires w !in ws
    ensures RemoveFirst(ws + [w], w) == ws
    decreases |ws|
  {
    if ws != [] {
      assert (ws + [w])[1..] == ws[1..] + [w];
      OpenThenClose(ws[1..], w);
      assert ws == [ws[0]] + ws[1..];
    }
  }

  class UIManager {
    /** The window stack, bottom first. */
    var windows: seq<Window>
    var active: Option<Window>

    /** The active window is the top of the stack, and there is none when the stack is empty. */
    ghost predicate Valid()
      reads this
    {
      if windows == [] then active == None else active == Some(windows[|windows| - 1])
    }

    constructor ()
      ensures windows == [] && active == None && Valid()
    {
      windows, active := [], None;
    }

    /** open_window: `w` goes on top and becomes active. */
    method OpenWindow(w: Window)
      modifies this`windows, this`active
      ensures windows == old(windows) + [w] && active == Some(w)
      ensures Valid()
    {
      windows := windows + [w];
      active := Some(w);
    }

    /**
     * close_window: when `w` is stacked, its first occurrence goes and the
     * new top, if any, becomes active; otherwise nothing changes.
     */
    method CloseWindow(w: Window)
      modifies this`windows, this`active
      ensures w in old(windows) ==> windows == RemoveFirst(old(windows), w) && Valid()
      ensures w !in old(windows) ==> windows == old(windows) && active == old(active)
      ensures |windows| == |old(windows)| - (if w in old(windows) then 1 else 0)
    {
      if w in windows {
        var i := RemoveFirstSplits(windows, w);
        windows := RemoveFirst(windows, w);
        if windows != [] {
          active := Some(windows[|windows| - 1]);
        } else {
          active := None;
        }
      }
    }

    /**
     * handle_input: the event goes to the active window, whose own handler
     * answers it and acts on its building, ledger, world, field or input
     * handler; with no active window the event is not handled and nothing
     * changes.
     */
    method HandleInput(e: Event) returns (r: Reply)
      requires active.Some? && active.value.Inspector? ==> active.value.inspector.Ready(e)
      modifies BuildingsOf(active)`buffer, BuildingsOf(active)`level,
        BuildingsOf(active)`boarded, BuildingsOf(active)`isLaunching,
        LedgersOf(active)`inventory, LedgersOf(active)`codeUsed, LedgersOf(active)`pinnedCosts,
        WorldsOf(active)`buildings, WorldsOf(active)`order,
        CodeWindowsOf(active)`inputText, CodeWindowsOf(active)`message,
        HandlersOf(active)`buildModeActive, HandlersOf(active)`selectedType
      ensures active.None? ==> r == NotHandled
      ensures active.Some? ==> Answered(active.value, e, r)
    {
      match active
      case None =>
        r := NotHandled;
      case Some(Inspector(i)) =>
        r := i.HandleInput(e);
      case Some(Code(c)) =>
        r := c.HandleInput(e);
      case Some(Rocket(k)) =>
        r := k.HandleInput(e);
      case Some(Tab(t)) =>
        r := t.HandleInput(e);
      case Some(Victory(v)) =>
        r := v.HandleInput(e);
    }
  }
}
