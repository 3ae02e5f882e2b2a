/**
 * The option loop of `connectedCallback`: one wedge per `<option>` child,
 * in document order, each rotated by its index times the sector angle and
 * all drawn with the same `createSectorSvg` arguments.
 *
 * Angles: the rotation is kept in degrees, as the source writes it into the
 * CSS transform. The sector angle passed to `createSectorSvg` is
 * 2 * pi / n radians; Dafny has no pi, so it is kept as the fraction of a
 * full turn, 1 / n (radians = 2 * pi * fraction).
 */
module SectorLayout {
  import SectorGeometry
  import opened OptionElements

  const ButtonDiameter: real := 50.0
  const MenuDiameter: real := 200.0
  const ButtonRadius: real := ButtonDiameter / 2.0
  const MenuRadius: real := MenuDiameter / 2.0
  /** The fixed clearance: taken off the menu radius for the outer arc, and
      added to the button radius before the radial height is measured, so the
      inner arc keeps the button's radius. */
  const Gap: real := 2.0

  /** The arguments of one `createSectorSvg` call. */
  datatype SectorArgs = SectorArgs(radius: real, radialHeight: real, turnFraction: real)

  /** One menu item: the rotation of its anchor, its background wedge and the
      option value its click handler assigns. */
  datatype Wedge = Wedge(rotationDeg: real, background: SectorArgs, value: string)

  /** `360 / optionElements.length`. */
  function SectorAngleDeg(n: nat): real
    requires n > 0
  {
    360.0 / n as real
  }

  /** The shared wedge arguments: outer radius `menuRadius - gap`, radial
      height `menuRadius - (buttonRadius + gap)`, a 1/n share of the turn. */
  function WedgeArgs(n: nat): (args: SectorArgs)
    requires n > 0
    ensures args.radius == MenuRadius - Gap
    ensures args.radius - args.radialHeight == ButtonRadius
    ensures args.turnFraction * n as real == 1.0
  {
    SectorArgs(MenuRadius - Gap, MenuRadius - (ButtonRadius + Gap), 1.0 / n as real)
  }

  /** The wedge the loop builds for option `i`. Its value is the option's
      value as it is before the option's content moves into the wedge. */
  function WedgeAt(options: seq<OptionElement>, i: nat): Wedge
    requires i < |options|
  {
    Wedge(SectorAngleDeg(|options|) * i as real, WedgeArgs(|options|), OptionValue(options[i]))
  }

  /** The loop of lines 126-154: appends one wedge per option while
      counting `i` up from 0. */
  method Layout(options: seq<OptionElement>) returns (wedges: seq<Wedge>)
    ensures |wedges| == |options|
    ensures forall i :: 0 <= i < |wedges| ==> wedges[i] == WedgeAt(options, i)
    ensures forall i, j :: 0 <= i < |wedges| && 0 <= j < |wedges| ==>
              wedges[i].background == wedges[j].background
    ensures forall i :: 0 <= i < |wedges| ==> wedges[i].value == OptionValue(options[i])
  {
    var n := |options|;
    wedges := [];
    if n == 0 {
      // The source divides by zero here (Infinity), but the loop never runs.
      return;
    }
    var sectorAngleDeg := 360.0 / n as real;
    var args := SectorArgs(MenuRadius - Gap, MenuRadius - (ButtonRadius + Gap), 1.0 / n as real);
    var i := 0;
    while i < n
      invariant 0 <= i <= n
      invariant |wedges| == i
      invariant forall k :: 0 <= k < i ==> wedges[k] == WedgeAt(options, k)
    {
      var value := OptionValue(options[i]);
      wedges := wedges + [Wedge(sectorAngleDeg * i as real, args, value)];
      i := i + 1;
    }
  }

  /** Every rotation lies in [0, 360): the wedges stay within one turn. */
  lemma RotationInTurn(options: seq<OptionElement>, i: nat)
    requires i < |options|
    ensures 0.0 <= WedgeAt(options, i).rotationDeg < 360.0
  {
    var n := |options| as real;
    var step := SectorAngleDeg(|options|);
    assert step * n == 360.0;
    assert 0.0 < step;
    assert step * i as real < step * n by {
      assert (i as real) < n;
    }
  }

  /** Rotations grow strictly with the index, one sector angle per step, so
      index i maps to exactly i * (360 / n) and distinct options never share
      a position. */
  lemma RotationsIncrease(options: seq<OptionElement>, i: nat, j: nat)
    requires i < j < |options|
    ensures WedgeAt(options, i).rotationDeg < WedgeAt(options, j).rotationDeg
    ensures WedgeAt(options, j).rotationDeg - WedgeAt(options, i).rotationDeg
              == (j - i) as real * SectorAngleDeg(|options|)
  {
    var step := SectorAngleDeg(|options|);
    assert 0.0 < step;
    assert step * j as real - step * i as real == (j - i) as real * step;
    assert 0.0 < (j - i) as real * step;
  }

  /** The last wedge ends exactly a full turn from the first: n steps of the
      sector angle make 360 degrees. */
  lemma SectorsFillTurn(options: seq<OptionElement>)
    requires |options| > 0
    ensures WedgeAt(options, |options| - 1).rotationDeg + SectorAngleDeg(|options|) == 360.0
  {
    var n := |options|;
    var step := SectorAngleDeg(n);
    calc {
      step * (n - 1) as real + step;
      step * n as real;
      360.0;
    }
  }

  /** A label-only option keeps its label as its wedge's value, and an
      option with a `value` attribute keeps the attribute. */
  lemma WedgeKeepsOptionValue(options: seq<OptionElement>, i: nat)
    requires i < |options|
    ensures options[i].valueAttribute.None? ==> WedgeAt(options, i).value == options[i].text
    ensures options[i].valueAttribute.Some? ==>
              WedgeAt(options, i).value == options[i].valueAttribute.value
  {
  }

  /** With the source's constants, each background has outer radius 98 and
      inner radius 25, the button's own radius: a wedge's inner arc meets the
      button's rim, and the fixed gap only trims the outer edge. */
  lemma WedgeRadii(options: seq<OptionElement>, i: nat, c: real, s: real)
    requires i < |options|
    ensures var args := WedgeAt(options, i).background;
            var svg := SectorGeometry.CreateSectorSvg(args.radius, args.radialHeight, c, s);
            && args.radius == 98.0 && args.radialHeight == 73.0
            && svg.path[3].ArcTo? && svg.path[3].radius == ButtonRadius
  {
  }
}
