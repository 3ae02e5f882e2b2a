# Circular menu web component: a Dafny model

`CircularMenu` is a custom HTML element that shows a round button. Clicking
the button opens a ring of wedge-shaped items around it, one item per
`<option>` child. Clicking a wedge selects that option's value and closes
the menu. Clicking anywhere else closes the menu too.

This project models the component's core in four modules:

- `SectorGeometry` (SectorGeometry.dfy) covers `createSectorSvg`. It derives
  the four corners of one annular wedge and its closed SVG outline from
  `radius`, `radialHeight` and the cosine and sine of half the sector angle.
  There is no trigonometry in Dafny, so those two values are parameters `c`
  and `s`. The lemmas that need them to be a real cosine/sine pair require
  `s*s + c*c == 1`.
- `SectorLayout` (SectorLayout.dfy) covers the option loop of
  `connectedCallback`. For `n` options it builds `n` wedges in option order.
  Wedge `i` is rotated by `i * (360 / n)` degrees, and every wedge uses the
  same arguments: outer radius `menuRadius - gap`, radial height
  `menuRadius - (buttonRadius + gap)`, and a `1/n` share of a full turn.
  Dafny has no pi, so the angle passed to `createSectorSvg` (`2*pi/n`
  radians) is kept as that fraction.
- `OptionElements` (OptionElements.dfy) covers the `<option>` children:
  an option's `value` attribute and text, the value the option reports,
  and what is left of it once its content has moved into its wedge.
- `MenuController` (MenuController.dfy) covers the open/close/select state
  machine. The pure functions over `Snapshot` describe each listener and
  each whole click in the browser's bubbling order:
  - a button click runs the button listener, then the window listener;
  - a wedge click runs the wedge listener, the menu container's listener,
    then the window listener;
  - a click on the menu between the wedges runs the container listener,
    then the window listener;
  - any other click runs only the window listener.

  In every case the window listener runs only if it is registered when the
  event reaches the window. The class `CircularMenu` holds the element's
  fields, and each of its methods is proved to follow those functions. The
  lemmas prove the race the two flags exist for: the click that opens the
  menu also reaches the window listener, and the menu must stay open. They
  also prove the resting-state invariant over any sequence of clicks.

What the code does, stated plainly:
- The gap of 2 is taken off the menu radius for the outer arc (98) and off
  the radial height (73). The inner arc keeps the button's radius, 25 (see
  `WedgeRadii`).
- With a single option the sector angle is a full turn, and sin(pi) = 0.
  The wedge therefore has width 0, and both arcs start where they end (see
  `FullTurnWedgeIsDegenerate`).
- The teardown method is named `disconnectCallback`, so the platform never
  calls it. It is modelled as the ordinary method `Disconnect`.
- A wedge's click listener reads its option's `value` only at click time,
  after the option's content has been moved into the wedge. An option
  without a `value` attribute then reports the empty string (see
  "## Findings"). The model keeps each option's value as it was before
  the move, in `OptionElements`.

## Model

| member | source | states |
|---|---|---|
| `SectorGeometry.Shape` | src/circular-menu.mjs:5-20 | bottom radius plus radial height is the radius; the inner corners share the bottom y; bottomLeftX + bottomRightX == width |
| `SectorGeometry.Outline` | src/circular-menu.mjs:35-41 | five commands; starts with `M 0 topY` and ends with `L` back to that same point (closed path) |
| `SectorGeometry.CreateSectorSvg` | src/circular-menu.mjs:5-46 | the path has five commands and closes back on its start (0, radius − radius·c); the outer arc ends at (width, same y); the inner endpoints share the svg's height and their x-coordinates sum to width |
| `SectorGeometry.PathIsClosed` | src/circular-menu.mjs:36-40 | the path starts at (0, topY) and returns there; the outer arc ends at (width, topY), at the same height as it starts |
| `SectorGeometry.InnerEndpointsMirror` | src/circular-menu.mjs:17-20 | the inner corners are at the svg's height, mirror each other about width/2 (sum == width), and are 2·bottomRadius·s apart |
| `SectorGeometry.OuterCornersOnCircle` | src/circular-menu.mjs:9-18 | if s²+c²=1, both outer corners lie on the circle of radius `radius` centred at (width/2, radius) |
| `SectorGeometry.InnerCornersOnCircle` | src/circular-menu.mjs:6-20 | if s²+c²=1, both inner corners lie on the circle of radius `radius − radialHeight` with the same centre |
| `SectorGeometry.HeightAboveChord` | src/circular-menu.mjs:10-14 | height − topY == radialHeight·c, so the inner corners are not above the outer ones when c ≥ 0 and radialHeight ≥ 0 |
| `SectorGeometry.CornersOrdered` | src/circular-menu.mjs:16-20 | for s ≥ 0 and 0 ≤ radialHeight ≤ radius, the corners satisfy 0 ≤ bottomLeftX ≤ bottomRightX ≤ width |
| `SectorGeometry.FullTurnWedgeIsDegenerate` | src/circular-menu.mjs:16-18 | when sin(angle/2) = 0 (one option, a full turn) the wedge has width 0 and each arc ends where it starts |
| `SectorLayout.WedgeArgs` | src/circular-menu.mjs:115-132 | the shared arguments: outer radius menuRadius − gap, inner radius (radius − radialHeight) equal to buttonRadius, and n shares make one turn |
| `SectorLayout.Layout` | src/circular-menu.mjs:120-154 | the loop yields exactly one wedge per option, in option order; wedge i has rotation i·(360/n), the shared arguments and option i's value; all wedges have identical background arguments; no wedges for no options |
| `SectorLayout.RotationInTurn` | src/circular-menu.mjs:122-130 | every rotation lies in [0, 360) |
| `SectorLayout.RotationsIncrease` | src/circular-menu.mjs:122-130 | rotations strictly increase with the index, by exactly (j − i)·(360/n), so index maps one-to-one onto {0, 360/n, 2·360/n, …} |
| `SectorLayout.SectorsFillTurn` | src/circular-menu.mjs:122-130 | the last rotation plus one sector angle is exactly 360 |
| `SectorLayout.WedgeKeepsOptionValue` | src/circular-menu.mjs:127-141 | wedge i carries option i's `value` attribute when it has one, and its label text otherwise |
| `SectorLayout.WedgeRadii` | src/circular-menu.mjs:115-132 | with the source's constants the background has radius 98 and radial height 73, and its inner arc has the button's radius 25 |
| `OptionElements.OptionValue` | src/circular-menu.mjs:141 | an option's value is its `value` attribute when present, otherwise its text |
| `OptionElements.ContentMoved` | src/circular-menu.mjs:147 | appending the option's child nodes to the wedge keeps the attribute and leaves the option with no text |
| `OptionElements.ValueAtClickAsWritten` | src/circular-menu.mjs:141-147 | the value the listener reads at click time is the attribute when present, otherwise the empty string |
| `OptionElements.AttributeSurvivesMove` | src/circular-menu.mjs:141-147 | with a `value` attribute, the click-time reading equals the option's value |
| `OptionElements.LabelOnlyOptionLosesValue` | src/circular-menu.mjs:141-147 | without a `value` attribute, the click-time reading is "" and differs from the option's value whenever it has a label |
| `OptionElements.AppleSelectsEmpty` | src/circular-menu.mjs:141-147 | `<option>Apple</option>` has value "Apple", but the click-time reading is "" |
| `MenuController.OutsideHandler` | src/circular-menu.mjs:70-78 | without a menu container nothing changes; otherwise both flags end false, the menu is hidden iff neither flag was set, and nothing else changes |
| `MenuController.ContainerHandler` | src/circular-menu.mjs:92-94 | sets isClickedInsideMenu and changes nothing else |
| `MenuController.ButtonHandler` | src/circular-menu.mjs:102-113 | toggles visibility; opening sets isMenuBeingOpened and registers the window listener, closing unregisters it |
| `MenuController.AssignValue` | src/circular-menu.mjs:64-68 | the value is always stored; the button label becomes the value only when the element is connected |
| `MenuController.WedgeHandler` | src/circular-menu.mjs:140-143 | value and label become the wedge's option value and the menu is hidden; flags and listener are untouched |
| `MenuController.OpeningRace` | src/circular-menu.mjs:102-108 | a button click on a hidden menu, with the window listener in the same dispatch, leaves it visible, listener registered, both flags false; a later outside click hides it |
| `MenuController.ButtonToggles` | src/circular-menu.mjs:102-113 | at rest, a whole button click flips visibility, leaves the listener registered exactly when the menu is now shown, and keeps the value |
| `MenuController.WedgeSelects` | src/circular-menu.mjs:140-143 | a whole wedge click sets value and label to that option's value, ends hidden with both flags false, and keeps the listener registered |
| `MenuController.BackgroundKeepsMenu` | src/circular-menu.mjs:92-94 | a click on the open menu between wedges keeps it open, leaves the value, and returns to rest |
| `MenuController.OutsideCloses` | src/circular-menu.mjs:70-78 | at rest, a click elsewhere always leaves the menu hidden and the value unchanged |
| `MenuController.DispatchKeepsRest` | src/circular-menu.mjs:70-113 | every kind of click takes a resting state (flags down, visible menu has its listener) to a resting state, keeping the items |
| `MenuController.DispatchValue` | src/circular-menu.mjs:140-143 | one click leaves the value unchanged or sets it to some item's value |
| `MenuController.RunKeepsRest` | src/circular-menu.mjs:70-143 | over any sequence of clicks the resting invariant holds, the items are unchanged, and the value is the old one or some item's value |
| `MenuController.OpenThenPickThird` | src/circular-menu.mjs:102-143 | with four items, opening and then clicking item 2 selects item 2's value and closes the menu |
| `MenuController.CircularMenu.constructor` | src/circular-menu.mjs:49-58 | a new element: not connected, hidden, both flags false, no listener, no value |
| `MenuController.CircularMenu.Value` | src/circular-menu.mjs:60-62 | the getter returns the stored `_value`: None (null) until the first assignment, then the last value the setter stored |
| `MenuController.CircularMenu.Connect` | src/circular-menu.mjs:80-154 | first connection: hidden menu, listener registered, empty label, one wedge per option as the layout gives; a second connection fails and changes nothing |
| `MenuController.CircularMenu.Disconnect` | src/circular-menu.mjs:242-244 | unregisters the window listener and changes nothing else |
| `MenuController.CircularMenu.SetValue` | src/circular-menu.mjs:64-68 | follows `AssignValue`; reports failure exactly when there is no button yet |
| `MenuController.CircularMenu.OnClickOutsideMenu` | src/circular-menu.mjs:70-78 | the fields change as `OutsideHandler` says |
| `MenuController.CircularMenu.OnMenuContainerClick` | src/circular-menu.mjs:92-94 | the fields change as `ContainerHandler` says |
| `MenuController.CircularMenu.OnButtonClick` | src/circular-menu.mjs:102-113 | the fields change as `ButtonHandler` says |
| `MenuController.CircularMenu.OnWedgeClick` | src/circular-menu.mjs:140-143 | the fields change as `WedgeHandler` says, via the value setter |
| `MenuController.CircularMenu.BubbleToWindow` | src/circular-menu.mjs:96-111 | the event reaches `onClickOutsideMenu` exactly when the window listener is registered at that moment; otherwise nothing changes |
| `MenuController.CircularMenu.ClickButton` | src/circular-menu.mjs:102-113 | button listener then window listener; from rest it returns to rest with visibility flipped |
| `MenuController.CircularMenu.ClickWedge` | src/circular-menu.mjs:140-143 | wedge, container, then window listener; from rest it returns to rest, hidden, with the option's value selected |
| `MenuController.CircularMenu.ClickMenuBackground` | src/circular-menu.mjs:92-94 | container then window listener; from rest the menu stays open |
| `MenuController.CircularMenu.ClickOutside` | src/circular-menu.mjs:70-78 | window listener only; from rest the menu ends hidden |

## Left out

- `toDeg`, `toFixed(2)` and every other number-to-string formatting are not modelled. The model computes exact reals; the source's floating-point rounding is not modelled.
- `Math.cos` and `Math.sin` are parameters. Where a lemma needs a true cosine/sine pair, it requires `s*s + c*c == 1`.
- The arc command's x-axis rotation (the sector angle in degrees) is not kept, because it has no effect on a circular arc.
- The `width`, `height` and `viewbox` attributes are not modelled as attributes. The model keeps the width and height values but not the `viewbox` attribute.
- DOM construction is left out: the shadow root, the elements and class names, and the CSS template. None of it changes the modelled state.
- Moving each option's child nodes into its wedge is modelled only by its effect on the option's value (`ContentMoved`). `Connect` takes each option as its `value` attribute and its text, and the wedges select the value the option had before the move. In the source, a label-only option selects the empty string (see "## Findings").
- The whitespace stripping and collapsing that `option.value` applies to the text is not modelled; the text is taken as already normalised.
- The pixel sizes written from `menuItemBackground.width`/`.height` are left out. They read SVG DOM objects, not the computed numbers.
- For zero options the source computes `360 / 0` (Infinity) but never uses it. `Layout` returns no wedges without dividing.
- Window-listener registration is a single boolean. `addEventListener` ignoring a second registration of the same listener is not modelled.
- Which element a click hits (hit-testing, `pointer-events` CSS, `display: none`) is not modelled. It is summarised by the four `UserClick` kinds: a wedge or the menu background can be hit only while the menu is shown.
- Option values and the value setter's argument are strings. Other JavaScript values passed to the setter are not modelled.
- A second `connectedCallback` fails at `attachShadow` before changing anything. It is modelled as `Connect` returning false.
- `Disconnect` does not preserve the resting invariant, because it can leave a shown menu without its listener. The platform never calls it, so the leaked window listener after removal is not modelled as a lifecycle event.

## Findings

| source | as written | input that shows it | evidently intended | confidence | as-written member | corrected member |
|---|---|---|---|---|---|---|
| src/circular-menu.mjs:141-147 | the wedge listener reads `optionElement.value` at click time, after line 147 has moved the option's child nodes into the wedge, so an option without a `value` attribute reports "" | `<option>Apple</option>`: clicking its wedge sets the value and the button label to "" (`AppleSelectsEmpty`, `LabelOnlyOptionLosesValue`) | the option's value as it was before the move ("Apple"), the same for options with or without a `value` attribute | high; not executed | `OptionElements.ValueAtClickAsWritten` | `SectorLayout.WedgeAt` (proved in `SectorLayout.WedgeKeepsOptionValue` and `SectorLayout.Layout`) |
