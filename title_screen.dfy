/**
 * The title screen (src/ui/title_screen.py): the main menu, the world-name
 * field and the choice of world size that starts a new game. Clicks are
 * given as the button they hit; a key press carries the text pygame reports
 * for it.
 */
module Title {
  import opened Text

  /** The screens of the title flow that the source can reach. */
  datatype Screen = MainMenu | NewName | NewSize

  /** The three world sizes offered. */
  datatype Size = Small | Medium | Large

  /** WORLD_SIZES: the width, in tiles, of a world of each size. */
  function SizeWidth(s: Size): (w: nat)
    ensures w in {75, 150, 300}
    ensures w == 75 <==> s == Small
    ensures w == 300 <==> s == Large
  {
    match s
    case Small => 75
    case Medium => 150
    case Large => 300
  }

  /** The input events the title screen reacts to. */
  datatype Event =
    | ClickNew | ClickExit | ClickSize(size: Size) | ClickElsewhere
    | Enter | Backspace | Key(text: string)

  /** What the title screen asks of the game. */
  datatype Request = NoRequest | Quit | StartGame(name: string, width: nat)

  /** The longest world name the field accepts. */
  const MaxNameLength := 15

  /**
   * The name field after a key on the naming screen: Backspace drops the
   * last character; another key appends its text when the name is shorter
   * than 15 characters and the text is alphanumeric. (Enter with an empty
   * name reaches the append branch too, with a carriage return, which is not
   * alphanumeric.)
   */
  function EditName(name: string, e: Event): string
  {
    match e
    case Backspace => DropLast(name)
    case Key(t) => if |name| < MaxNameLength && IsAlnum(t) then name + t else name
    case _ => name
  }

  /**
   * The name holds letters and digits only, and, with keys of at most one
   * character, never grows past 15 characters.
   */
  lemma NameFieldStaysValid(name: string, e: Event)
    requires AllAlnum(name) && |name| <= MaxNameLength
    requires e.Key? ==> |e.text| <= 1
    ensures AllAlnum(EditName(name, e)) && |EditName(name, e)| <= MaxNameLength
  {
    var r := EditName(name, e);
    if e.Backspace? {
      assert forall i :: 0 <= i < |r| ==> r[i] == name[i];
    } else if e.Key? && r != name {
      assert forall i :: 0 <= i < |r| ==> r[i] == if i < |name| then name[i] else e.text[i - |name|];
    }
  }

  /** Typing one accepted character and then Backspace restores the name. */
  lemma TypeThenBackspace(name: string, t: string)
    requires |name| < MaxNameLength && IsAlnum(t) && |t| == 1
    ensures EditName(EditName(name, Key(t)), Backspace) == name
  {
    DropLastUndoesAppend(name, t);
  }

  class TitleScreen {
    var state: Screen
    /** world_name_input. */
    var nameInput: string

    /**
     * The name is alphanumeric and within bounds, and the size screen is
     * reached only with a name.
     */
    ghost predicate Valid()
      reads this
    {
      AllAlnum(nameInput) && |nameInput| <= MaxNameLength && (state == NewSize ==> nameInput != [])
    }

    constructor ()
      ensures state == MainMenu && nameInput == [] && Valid()
    {
      state, nameInput := MainMenu, [];
    }

    /**
     * handle_input: in the main menu, "new" opens the naming screen and
     * "exit" quits; on the naming screen Enter with a name moves on to the
     * size screen and other keys edit the name as `EditName` says; on the
     * size screen a size button starts a game with the name and that size's
     * width. Anything else changes nothing.
     */
    method HandleInput(e: Event) returns (r: Request)
      requires Valid()
      requires e.Key? ==> |e.text| <= 1
      modifies this
      ensures Valid()
      ensures state == (match old(state)
        case MainMenu => if e == ClickNew then NewName else MainMenu
        case NewName => if e == Enter && old(nameInput) != [] then NewSize else NewName
        case NewSize => NewSize)
      ensures nameInput == if old(state) == NewName then EditName(old(nameInput), e) else old(nameInput)
      ensures r == Quit <==> old(state) == MainMenu && e == ClickExit
      ensures r.StartGame? <==> old(state) == NewSize && e.ClickSize?
      ensures r.StartGame? ==> r.name == nameInput && IsAlnum(r.name) && r.width == SizeWidth(e.size)
    {
      r := NoRequest;
      match state
      case MainMenu =>
        if e == ClickNew {
          state := NewName;
        } else if e == ClickExit {
          r := Quit;
        }
      case NewName =>
        NameFieldStaysValid(nameInput, e);
        if e == Enter && nameInput != [] {
          state := NewSize;
        } else {
          nameInput := EditName(nameInput, e);
        }
      case NewSize =>
        if e.ClickSize? {
          r := StartGame(nameInput, SizeWidth(e.size));
        }
    }

    /** Leaving a game for the title screen: back to the main menu with an empty name. */
    method Reset()
      modifies this
      ensures state == MainMenu && nameInput == [] && Valid()
    {
      state, nameInput := MainMenu, [];
    }
  }
}
