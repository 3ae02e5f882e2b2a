/**
 * The open/close/select state machine of the `CircularMenu` element.
 *
 * The element keeps two transient flags, `isClickedInsideMenu` and
 * `isMenuBeingOpened`, to settle one race: the click that opens the menu
 * also bubbles up to the window, where `onClickOutsideMenu` would close it
 * again. The browser's bubbling order is written out here: one user click
 * runs the handlers on its path, innermost first, and the window handler
 * last, if it is registered at the moment the event reaches the window.
 *
 * The pure functions over `Snapshot` say what each handler and each whole
 * click does; the class `CircularMenu` holds the element's fields and its
 * methods are proved to follow those functions.
 */
module MenuController {
  import SectorLayout
  import opened OptionElements

  /** Everything the state machine reads or writes. */
  datatype Snapshot = Snapshot(
    mounted: bool,           // `menuContainer` (and `button`) exist
    menuVisible: bool,       // `menuContainer.style.display !== "none"`
    clickedInside: bool,     // `isClickedInsideMenu`
    beingOpened: bool,       // `isMenuBeingOpened`
    listenerAttached: bool,  // `onClickOutsideMenu` is registered on the window
    value: Option<string>,   // `_value`
    buttonText: string,           // `button.textContent`
    wedges: seq<SectorLayout.Wedge>)  // the menu items, in option order

  /** A freshly constructed element: nothing mounted, no value. */
  const Initial: Snapshot :=
    Snapshot(false, false, false, false, false, None, "", [])

  // ---------------------------------------------------------------------
  // The handlers, one function each

  /** `onClickOutsideMenu`: without a menu container it does nothing;
      otherwise it hides the menu unless one of the flags is set, and then
      clears both flags. */
  function OutsideHandler(s: Snapshot): (r: Snapshot)
    ensures !s.mounted ==> r == s
    ensures s.mounted ==> !r.clickedInside && !r.beingOpened
    ensures r.menuVisible <==> s.menuVisible && (!s.mounted || s.clickedInside || s.beingOpened)
    ensures r.listenerAttached == s.listenerAttached && r.value == s.value
    ensures r.buttonText == s.buttonText && r.wedges == s.wedges && r.mounted == s.mounted
  {
    if !s.mounted then s
    else if !s.clickedInside && !s.beingOpened then
      s.(menuVisible := false, beingOpened := false, clickedInside := false)
    else
      s.(beingOpened := false, clickedInside := false)
  }

  /** The menu container's own click listener: marks the click as inside. */
  function ContainerHandler(s: Snapshot): (r: Snapshot)
    ensures r.clickedInside
    ensures r.(clickedInside := s.clickedInside) == s
  {
    s.(clickedInside := true)
  }

  /** The button's click listener: toggles the menu. Opening also marks the
      click as the opening one and registers the window listener; closing
      unregisters it. */
  function ButtonHandler(s: Snapshot): (r: Snapshot)
    ensures r.menuVisible == !s.menuVisible
    ensures r.listenerAttached == !s.menuVisible
    ensures r.beingOpened == (s.beingOpened || !s.menuVisible)
    ensures r.clickedInside == s.clickedInside && r.value == s.value && r.buttonText == s.buttonText
    ensures r.wedges == s.wedges && r.mounted == s.mounted
  {
    if !s.menuVisible then
      s.(menuVisible := true, beingOpened := true, listenerAttached := true)
    else
      s.(menuVisible := false, listenerAttached := false)
  }

  /** The `value` setter: stores the value, then writes it into the button's
      label. Before the element is connected there is no button, so the
      label write fails after the value is already stored. */
  function AssignValue(s: Snapshot, v: string): (r: Snapshot)
    ensures r.value == Some(v)
    ensures r.buttonText == (if s.mounted then v else s.buttonText)
    ensures r.(value := s.value, buttonText := s.buttonText) == s
  {
    if s.mounted then s.(value := Some(v), buttonText := v) else s.(value := Some(v))
  }

  /** A wedge's click listener: selects its option's value, hides the menu. */
  function WedgeHandler(s: Snapshot, k: nat): (r: Snapshot)
    requires s.mounted && k < |s.wedges|
    ensures r.value == Some(s.wedges[k].value) && r.buttonText == s.wedges[k].value
    ensures !r.menuVisible
    ensures r.clickedInside == s.clickedInside && r.beingOpened == s.beingOpened
    ensures r.listenerAttached == s.listenerAttached && r.wedges == s.wedges && r.mounted
  {
    AssignValue(s, s.wedges[k].value).(menuVisible := false)
  }

  // ---------------------------------------------------------------------
  // Whole clicks, in bubbling order

  /** The last step of every click: the window listener, if registered. */
  function ReachWindow(s: Snapshot): Snapshot
  {
    if s.listenerAttached then OutsideHandler(s) else s
  }

  /** A click on the button. The button is not inside the menu container,
      so only its own listener runs before the window's. */
  function ButtonClick(s: Snapshot): Snapshot
    requires s.mounted
  {
    ReachWindow(ButtonHandler(s))
  }

  /** A click on wedge `k`: the wedge's listener, the menu container's,
      then the window's. */
  function WedgeClick(s: Snapshot, k: nat): Snapshot
    requires s.mounted && k < |s.wedges|
  {
    ReachWindow(ContainerHandler(WedgeHandler(s, k)))
  }

  /** A click inside the menu container that hits no wedge. */
  function BackgroundClick(s: Snapshot): Snapshot
  {
    ReachWindow(ContainerHandler(s))
  }

  /** A click anywhere else: only the window listener hears it. */
  function OutsideClick(s: Snapshot): Snapshot
  {
    ReachWindow(s)
  }

  /** Where the user clicks. */
  datatype UserClick = OnButton | OnWedge(index: nat) | OnMenuBackground | Elsewhere

  /** One user click. A target that is not on screen (no button before the
      element is connected, nothing of a hidden menu, no such wedge) cannot
      be hit: the click lands elsewhere. */
  function Dispatch(s: Snapshot, click: UserClick): Snapshot
  {
    match click
    case OnButton => if s.mounted then ButtonClick(s) else OutsideClick(s)
    case OnWedge(k) =>
      if s.mounted && s.menuVisible && k < |s.wedges| then WedgeClick(s, k) else OutsideClick(s)
    case OnMenuBackground =>
      if s.mounted && s.menuVisible then BackgroundClick(s) else OutsideClick(s)
    case Elsewhere => OutsideClick(s)
  }

  /** A sequence of user clicks, one after the other. */
  function Run(s: Snapshot, clicks: seq<UserClick>): Snapshot
    decreases |clicks|
  {
    if clicks == [] then s else Run(Dispatch(s, clicks[0]), clicks[1..])
  }

  // ---------------------------------------------------------------------
  // Properties

  /** The state between two clicks: both transient flags are down, a visible
      menu always has its dismissal listener, and before the element is
      connected nothing is shown or registered. */
  predicate AtRest(s: Snapshot)
  {
    && !s.clickedInside && !s.beingOpened
    && (s.menuVisible ==> s.listenerAttached)
    && (!s.mounted ==> !s.menuVisible && !s.listenerAttached && s.wedges == [])
  }

  /** The opening race: a button click on a hidden menu runs the button
      listener and then the window listener in the same dispatch, and the
      menu stays open with both flags cleared; a later outside click then
      closes it. */
  lemma OpeningRace(s: Snapshot)
    requires AtRest(s) && s.mounted && !s.menuVisible
    ensures var shown := ButtonClick(s);
            && shown.menuVisible && shown.listenerAttached
            && !shown.beingOpened && !shown.clickedInside
            && AtRest(shown)
            && !OutsideClick(shown).menuVisible
  {
    var t := ButtonHandler(s);
    assert t.beingOpened && t.listenerAttached;
  }

  /** At rest, a click on the button toggles the menu: it shows a hidden
      menu with the listener registered, and hides a shown one with the
      listener removed. */
  lemma ButtonToggles(s: Snapshot)
    requires AtRest(s) && s.mounted
    ensures Dispatch(s, OnButton).menuVisible == !s.menuVisible
    ensures Dispatch(s, OnButton).listenerAttached == !s.menuVisible
    ensures Dispatch(s, OnButton).value == s.value
  {
  }

  /** Selecting: a wedge click sets the value and the buttonText to that
      option's value, hides the menu, clears both flags and leaves the
      window listener registered. */
  lemma WedgeSelects(s: Snapshot, k: nat)
    requires AtRest(s) && s.mounted && s.menuVisible && k < |s.wedges|
    ensures var r := Dispatch(s, OnWedge(k));
            && r.value == Some(s.wedges[k].value) && r.buttonText == s.wedges[k].value
            && !r.menuVisible && !r.clickedInside && !r.beingOpened
            && r.listenerAttached
  {
    var w := ContainerHandler(WedgeHandler(s, k));
    assert w.listenerAttached;
  }

  /** A click on the menu between the wedges keeps the menu open and
      selects nothing. */
  lemma BackgroundKeepsMenu(s: Snapshot)
    requires AtRest(s) && s.mounted && s.menuVisible
    ensures var r := Dispatch(s, OnMenuBackground);
            r.menuVisible && r.value == s.value && AtRest(r)
  {
  }

  /** At rest, a click outside always leaves the menu hidden. */
  lemma OutsideCloses(s: Snapshot)
    requires AtRest(s)
    ensures !Dispatch(s, Elsewhere).menuVisible
    ensures Dispatch(s, Elsewhere).value == s.value
  {
  }

  /** Every kind of click takes a resting state to a resting state. */
  lemma DispatchKeepsRest(s: Snapshot, click: UserClick)
    requires AtRest(s)
    ensures AtRest(Dispatch(s, click))
    ensures Dispatch(s, click).wedges == s.wedges
    ensures Dispatch(s, click).mounted == s.mounted
  {
    match click
    case OnWedge(k) =>
      if s.mounted && s.menuVisible && k < |s.wedges| {
        WedgeSelects(s, k);
      }
    case _ =>
  }

  /** Over any sequence of clicks the flags never stay raised, a visible
      menu is never left without its dismissal listener, the items do not
      change, and the value is either the one before or some item's value. */
  lemma {:induction false} RunKeepsRest(s: Snapshot, clicks: seq<UserClick>)
    requires AtRest(s)
    ensures AtRest(Run(s, clicks))
    ensures Run(s, clicks).wedges == s.wedges
    ensures Run(s, clicks).value == s.value
            || exists k :: 0 <= k < |s.wedges| && Run(s, clicks).value == Some(s.wedges[k].value)
    decreases |clicks|
  {
    if clicks != [] {
      var next := Dispatch(s, clicks[0]);
      DispatchKeepsRest(s, clicks[0]);
      DispatchValue(s, clicks[0]);
      RunKeepsRest(next, clicks[1..]);
    }
  }

  /** One click leaves the value alone unless it selects an item. */
  lemma DispatchValue(s: Snapshot, click: UserClick)
    ensures Dispatch(s, click).value == s.value
            || exists k :: 0 <= k < |s.wedges| && Dispatch(s, click).value == Some(s.wedges[k].value)
  {
    match click
    case OnWedge(k) =>
      if s.mounted && s.menuVisible && k < |s.wedges| {
        assert Dispatch(s, click).value == Some(s.wedges[k].value);
      }
    case _ =>
  }

  /** Open the menu, then pick the third of four items: the value is that
      item's value and the menu is closed, in two clicks. */
  lemma OpenThenPickThird(s: Snapshot)
    requires AtRest(s) && s.mounted && !s.menuVisible && |s.wedges| == 4
    ensures var r := Run(s, [OnButton, OnWedge(2)]);
            && r.value == Some(s.wedges[2].value) && !r.menuVisible && AtRest(r)
  {
    var shown := Dispatch(s, OnButton);
    OpeningRace(s);
    WedgeSelects(shown, 2);
    assert [OnButton, OnWedge(2)][1..] == [OnWedge(2)];
    assert [OnWedge(2)][1..] == [];
  }

  // ---------------------------------------------------------------------
  // The element

  class CircularMenu {
    var mounted: bool
    var menuVisible: bool
    var isClickedInsideMenu: bool
    var isMenuBeingOpened: bool
    var listenerAttached: bool
    var storedValue: Option<string>
    var buttonLabel: string
    var wedges: seq<SectorLayout.Wedge>

    /** The fields, as one value. */
    function State(): Snapshot
      reads this
    {
      Snapshot(mounted, menuVisible, isClickedInsideMenu, isMenuBeingOpened,
               listenerAttached, storedValue, buttonLabel, wedges)
    }

    /** The `value` getter: the last value the setter stored, `None` (null)
        until the first assignment. */
    function Value(): (v: Option<string>)
      reads this
      ensures v == State().value
    {
      storedValue
    }

    constructor ()
      ensures State() == Initial && AtRest(State())
    {
      mounted, menuVisible := false, false;
      isClickedInsideMenu, isMenuBeingOpened := false, false;
      listenerAttached := false;
      storedValue, buttonLabel := None, "";
      wedges := [];
    }

    /** `connectedCallback`: builds a hidden menu with one wedge per option,
        a button with an empty buttonText, and registers the window listener.
        Connecting twice fails at `attachShadow` and changes nothing. */
    method Connect(options: seq<OptionElement>) returns (ok: bool)
      modifies this
      ensures ok == !old(mounted)
      ensures !ok ==> State() == old(State())
      ensures ok ==> && mounted && !menuVisible && listenerAttached && buttonLabel == ""
                     && isClickedInsideMenu == old(isClickedInsideMenu)
                     && isMenuBeingOpened == old(isMenuBeingOpened)
                     && storedValue == old(storedValue)
                     && |wedges| == |options|
                     && forall i :: 0 <= i < |options| ==> wedges[i] == SectorLayout.WedgeAt(options, i)
      ensures old(AtRest(State())) ==> AtRest(State())
    {
      if mounted {
        return false;
      }
      var built := SectorLayout.Layout(options);
      mounted, menuVisible := true, false;
      listenerAttached := true;
      buttonLabel := "";
      wedges := built;
      return true;
    }

    /** `disconnectCallback`: unregisters the window listener. The platform
        never calls it under this name, so it is only an ordinary method. */
    method Disconnect()
      modifies this
      ensures State() == old(State()).(listenerAttached := false)
    {
      listenerAttached := false;
    }

    /** The `value` setter; `ok` is false when the buttonText write fails. */
    method SetValue(v: string) returns (ok: bool)
      modifies this
      ensures ok == old(mounted)
      ensures State() == AssignValue(old(State()), v)
    {
      storedValue := Some(v);
      if !mounted {
        return false;
      }
      buttonLabel := v;
      return true;
    }

    method OnClickOutsideMenu()
      modifies this
      ensures State() == OutsideHandler(old(State()))
    {
      if !mounted {
        return;
      }
      if !isClickedInsideMenu && !isMenuBeingOpened {
        menuVisible := false;
      }
      isMenuBeingOpened := false;
      isClickedInsideMenu := false;
    }

    method OnMenuContainerClick()
      modifies this
      ensures State() == ContainerHandler(old(State()))
    {
      isClickedInsideMenu := true;
    }

    method OnButtonClick()
      modifies this
      ensures State() == ButtonHandler(old(State()))
    {
      var isMenuOpen := menuVisible;
      if !isMenuOpen {
        menuVisible := true;
        isMenuBeingOpened := true;
        listenerAttached := true;
      } else {
        menuVisible := false;
        listenerAttached := false;
      }
    }

    method OnWedgeClick(k: nat)
      requires mounted && k < |wedges|
      modifies this
      ensures State() == WedgeHandler(old(State()), k)
    {
      var ok := SetValue(wedges[k].value);
      menuVisible := false;
    }

    /** The window listener, if it is registered when the event gets there. */
    method BubbleToWindow()
      modifies this
      ensures State() == ReachWindow(old(State()))
    {
      if listenerAttached {
        OnClickOutsideMenu();
      }
    }

    method ClickButton()
      requires mounted
      modifies this
      ensures State() == ButtonClick(old(State()))
      ensures old(AtRest(State())) ==> AtRest(State()) && menuVisible == !old(menuVisible)
    {
      ghost var before := State();
      OnButtonClick();
      BubbleToWindow();
      if AtRest(before) {
        DispatchKeepsRest(before, OnButton);
        ButtonToggles(before);
      }
    }

    method ClickWedge(k: nat)
      requires mounted && menuVisible && k < |wedges|
      modifies this
      ensures State() == WedgeClick(old(State()), k)
      ensures old(AtRest(State())) ==>
                AtRest(State()) && !menuVisible && storedValue == Some(wedges[k].value)
    {
      ghost var before := State();
      OnWedgeClick(k);
      OnMenuContainerClick();
      BubbleToWindow();
      if AtRest(before) {
        WedgeSelects(before, k);
      }
    }

    method ClickMenuBackground()
      requires mounted && menuVisible
      modifies this
      ensures State() == BackgroundClick(old(State()))
      ensures old(AtRest(State())) ==> AtRest(State()) && menuVisible
    {
      ghost var before := State();
      OnMenuContainerClick();
      BubbleToWindow();
      if AtRest(before) {
        BackgroundKeepsMenu(before);
      }
    }

    method ClickOutside()
      modifies this
      ensures State() == OutsideClick(old(State()))
      ensures old(AtRest(State())) ==> AtRest(State()) && !menuVisible
    {
      ghost var before := State();
      BubbleToWindow();
      if AtRest(before) {
        OutsideCloses(before);
        DispatchKeepsRest(before, Elsewhere);
      }
    }
  }
}
