/** The editable project name in the editor's header: a committed name, an editing
    flag and an edit buffer. Clicking the title starts editing; typing changes the
    buffer; Enter or leaving the field saves (committing the buffer, untrimmed, only
    when it is not blank); Escape abandons the edit. */
module ProjectHeader {
  import opened JsText

  /** The name a fresh header shows. */
  const InitialName: string := "Summer_2025.mp4"

  /** The header's three state cells. */
  datatype HeaderState = HeaderState(projectName: string, isEditing: bool, tempName: string)

  /** What the user can do: click the title area, type into the field (the field's new
      value), leave the field, or press a key in it (the key's name, as in `KeyboardEvent.key`). */
  datatype Event = TitleClick | Input(value: string) | Blur | KeyDown(key: string)

  /** The state on mount: not editing, buffer equal to the name. */
  function Initial(): HeaderState
  {
    HeaderState(InitialName, false, InitialName)
  }

  /** `handleSave`: the buffer becomes the name when `tempName.trim()` is non-empty;
      otherwise the buffer reverts to the name. Either way editing ends. */
  function Saved(s: HeaderState): HeaderState
  {
    if Trim(s.tempName) != "" then s.(projectName := s.tempName, isEditing := false)
    else s.(tempName := s.projectName, isEditing := false)
  }

  /** `handleKeyDown`: Enter saves; Escape reverts the buffer to the name and ends
      editing; any other key does nothing. */
  function KeyPressed(s: HeaderState, key: string): HeaderState
  {
    var afterEnter := if key == "Enter" then Saved(s) else s;
    if key == "Escape" then afterEnter.(tempName := s.projectName, isEditing := false)
    else afterEnter
  }

  /** The title area's click handler: start editing unless already editing. */
  function Clicked(s: HeaderState): HeaderState
  {
    if !s.isEditing then s.(isEditing := true) else s
  }

  /** The field's change handler: the buffer takes the field's value. */
  function Typed(s: HeaderState, value: string): HeaderState
  {
    s.(tempName := value)
  }

  /** One event. The field exists only while editing, so typing, leaving the field and
      key presses reach their handlers only then; a click on the title area always
      reaches its handler. */
  function Step(s: HeaderState, e: Event): (t: HeaderState)
    ensures !s.isEditing && !e.TitleClick? ==> t == s
    ensures e.TitleClick? ==> t == Clicked(s)
    ensures s.isEditing && e.Input? ==> t == Typed(s, e.value)
    ensures s.isEditing && e.Blur? ==> t == Saved(s)
    ensures s.isEditing && e.KeyDown? ==> t == KeyPressed(s, e.key)
  {
    match e
    case TitleClick => Clicked(s)
    case Input(value) => if s.isEditing then Typed(s, value) else s
    case Blur => if s.isEditing then Saved(s) else s
    case KeyDown(key) => if s.isEditing then KeyPressed(s, key) else s
  }

  /** A sequence of events, in order. */
  function Run(s: HeaderState, events: seq<Event>): HeaderState
    decreases |events|
  {
    if events == [] then s else Run(Step(s, events[0]), events[1..])
  }

  /** Outside editing only a click on the title does anything: any run of other
      events leaves the state as it was. */
  lemma {:induction false} IgnoredUntilClick(s: HeaderState, events: seq<Event>)
    requires !s.isEditing
    requires forall i :: 0 <= i < |events| ==> !events[i].TitleClick?
    ensures Run(s, events) == s
    decreases |events|
  {
    if events != [] {
      assert forall i :: 0 <= i < |events[1..]| ==> events[1..][i] == events[i + 1];
      IgnoredUntilClick(Step(s, events[0]), events[1..]);
    }
  }

  /** The header's invariant: the committed name is never blank, and outside editing
      the buffer holds exactly the committed name. */
  predicate Consistent(s: HeaderState)
  {
    !IsBlank(s.projectName) && (!s.isEditing ==> s.tempName == s.projectName)
  }

  /** A save with a non-blank buffer commits it verbatim (surrounding whitespace kept);
      a save with a blank buffer keeps the name and puts it back into the buffer;
      every save ends editing. */
  lemma SaveOutcome(s: HeaderState)
    ensures !IsBlank(s.tempName) ==> Saved(s) == HeaderState(s.tempName, false, s.tempName)
    ensures IsBlank(s.tempName) ==> Saved(s) == HeaderState(s.projectName, false, s.projectName)
    ensures !Saved(s).isEditing
  {
  }

  /** Saving keeps the committed name non-blank. */
  lemma SaveKeepsNameNonBlank(s: HeaderState)
    requires !IsBlank(s.projectName)
    ensures !IsBlank(Saved(s).projectName)
    ensures Consistent(Saved(s))
  {
  }

  /** Saving twice in a row is the same as saving once. */
  lemma SaveIdempotent(s: HeaderState)
    ensures Saved(Saved(s)) == Saved(s)
  {
  }

  /** An instance of `SaveOutcome`: the committed name keeps the spaces the user typed
      around it, so saving "  Trip  " stores "  Trip  ", not its trimmed form "Trip". */
  lemma SaveDoesNotTrim()
    ensures Trim("  Trip  ") == "Trip"
    ensures Saved(HeaderState(InitialName, true, "  Trip  ")).projectName == "  Trip  "
  {
    LeadingSpacesOfExample();
    TrailingSpacesOfExample();
  }

  lemma LeadingSpacesOfExample()
    ensures TrimStart("  Trip  ") == "Trip  "
  {
    assert IsJsWhitespace(' ') && !IsJsWhitespace('T');
    var s := "  Trip  ";
    assert s[0] == ' ' && s[1..] == " Trip  ";
    assert TrimStart(s) == TrimStart(" Trip  ");
    assert " Trip  "[0] == ' ' && " Trip  "[1..] == "Trip  ";
    assert TrimStart(" Trip  ") == TrimStart("Trip  ");
    assert "Trip  "[0] == 'T';
  }

  lemma TrailingSpacesOfExample()
    ensures TrimEnd("Trip  ") == "Trip"
  {
    var s := "Trip  ";
    assert IsJsWhitespace(' ') && !IsJsWhitespace('p');
    assert s[5] == ' ' && s[..5] == "Trip ";
    assert "Trip "[4] == ' ' && "Trip "[..4] == "Trip";
    assert "Trip"[3] == 'p';
  }

  /** An instance of `SaveOutcome`: a whitespace-only buffer is not committed. */
  lemma BlankIsNotCommitted()
    ensures Saved(HeaderState(InitialName, true, " \t ")) == Initial()
  {
    assert IsBlank(" \t ");
  }

  /** Escape restores the buffer and ends editing without touching the name; Enter
      is exactly a save; every other key changes nothing. */
  lemma KeyOutcome(s: HeaderState, key: string)
    ensures key == "Escape" ==> KeyPressed(s, key) == HeaderState(s.projectName, false, s.projectName)
    ensures key == "Enter" ==> KeyPressed(s, key) == Saved(s)
    ensures key != "Enter" && key != "Escape" ==> KeyPressed(s, key) == s
  {
  }

  /** A click starts editing only from the display mode and changes nothing else;
      typing changes only the buffer. */
  lemma ClickAndTypeOutcome(s: HeaderState, value: string)
    ensures !s.isEditing ==> Clicked(s) == HeaderState(s.projectName, true, s.tempName)
    ensures s.isEditing ==> Clicked(s) == s
    ensures Typed(s, value).projectName == s.projectName && Typed(s, value).isEditing == s.isEditing
    ensures Typed(s, value).tempName == value
  {
  }

  /** Every event keeps the invariant. */
  lemma StepKeepsConsistent(s: HeaderState, e: Event)
    requires Consistent(s)
    ensures Consistent(Step(s, e))
  {
    match e
    case TitleClick =>
    case Input(value) =>
    case Blur => SaveKeepsNameNonBlank(s);
    case KeyDown(key) => SaveKeepsNameNonBlank(s);
  }

  /** The initial state is consistent: "Summer_2025.mp4" is not blank. */
  lemma InitialConsistent()
    ensures Consistent(Initial())
  {
    assert !IsJsWhitespace(InitialName[0]);
  }

  /** Whatever the user does from mount on, the committed name is never empty or
      all whitespace, and outside editing the buffer equals it. */
  lemma {:induction false} NameNeverBlank(s: HeaderState, events: seq<Event>)
    requires Consistent(s)
    ensures Consistent(Run(s, events))
    decreases |events|
  {
    if events != [] {
      StepKeepsConsistent(s, events[0]);
      NameNeverBlank(Step(s, events[0]), events[1..]);
    }
  }

  /** The same from the mounted state. */
  lemma NameNeverBlankFromMount(events: seq<Event>)
    ensures !IsBlank(Run(Initial(), events).projectName)
  {
    InitialConsistent();
    NameNeverBlank(Initial(), events);
  }

  /** The header as a React component: its state cells are fields updated in place
      by the event handlers. */
  class Header {
    var projectName: string
    var isEditing: bool
    var tempName: string

    function State(): HeaderState
      reads this
    {
      HeaderState(projectName, isEditing, tempName)
    }

    ghost predicate Valid()
      reads this
    {
      Consistent(State())
    }

    constructor ()
      ensures State() == Initial() && Valid()
    {
      projectName := InitialName;
      isEditing := false;
      tempName := InitialName;
      InitialConsistent();
    }

    method HandleSave()
      requires Valid()
      modifies this
      ensures State() == Saved(old(State()))
      ensures Valid()
    {
      if Trim(tempName) != "" {
        projectName := tempName;
      } else {
        tempName := projectName;
      }
      isEditing := false;
      SaveKeepsNameNonBlank(old(State()));
    }

    method HandleKeyDown(key: string)
      requires Valid()
      modifies this
      ensures State() == KeyPressed(old(State()), key)
      ensures Valid()
    {
      if key == "Enter" {
        HandleSave();
      }
      if key == "Escape" {
        tempName := projectName;
        isEditing := false;
      }
    }

    method HandleClick()
      requires Valid()
      modifies this
      ensures State() == Clicked(old(State()))
      ensures Valid()
    {
      if !isEditing {
        isEditing := true;
      }
    }

    /** Only reachable while editing: the field is rendered only then. */
    method HandleChange(value: string)
      requires Valid() && isEditing
      modifies this
      ensures State() == Typed(old(State()), value)
      ensures Valid()
    {
      tempName := value;
    }
  }
}
