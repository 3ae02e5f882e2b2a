/**
 * The vertex arithmetic of `createSectorSvg`: one annular wedge ("donut
 * slice") of the circular menu, drawn as an SVG path.
 *
 * The wedge is described in the SVG's own coordinates (x to the right, y
 * downwards). The circle both arcs belong to has its centre at
 * (width / 2, radius); the wedge is symmetric about the vertical line
 * x = width / 2 and opens upwards from the inner arc to the outer arc.
 *
 * The source evaluates `Math.cos(angle / 2)` and `Math.sin(angle / 2)`;
 * Dafny has no trigonometry, so both values are parameters here, `c` and
 * `s`, and the lemmas that need them to be a cosine/sine pair require
 * `s * s + c * c == 1`.
 */
module SectorGeometry {

  datatype Point = Point(x: real, y: real)

  /** The three SVG path commands the wedge uses. `ArcTo` leaves out the
      x-axis rotation, which has no effect on a circular arc. */
  datatype PathCommand =
    | MoveTo(to: Point)
    | ArcTo(radius: real, largeArc: bool, sweep: bool, to: Point)
    | LineTo(to: Point)

  /** The numbers `createSectorSvg` derives before building the element. */
  datatype SectorShape = SectorShape(
    radius: real,
    radialHeight: real,
    bottomRadius: real,
    height: real,
    topY: real,
    bottomY: real,
    bottomLeftX: real,
    width: real,
    bottomRightX: real)

  /** The element `createSectorSvg` returns: its size and its path. */
  datatype SectorSvg = SectorSvg(width: real, height: real, path: seq<PathCommand>)

  /** The arithmetic of lines 6-20, with `c` = cos(angle/2), `s` = sin(angle/2). */
  function Shape(radius: real, radialHeight: real, c: real, s: real): (sh: SectorShape)
    ensures sh.radius == radius && sh.radialHeight == radialHeight
    ensures sh.bottomRadius + sh.radialHeight == radius
    ensures sh.bottomY == sh.height
    ensures sh.bottomLeftX + sh.bottomRightX == sh.width
  {
    var bottomRadius := radius - radialHeight;
    var height := radius - bottomRadius * c;
    var topY := radius - radius * c;
    var bottomLeftX := radialHeight * s;
    var width := 2.0 * radius * s;
    SectorShape(radius, radialHeight, bottomRadius, height, topY, height,
                bottomLeftX, width, width - bottomLeftX)
  }

  /** The closed outline of lines 36-40: outer arc left to right, edge down,
      inner arc right to left, edge back up to the start. */
  function Outline(sh: SectorShape): (path: seq<PathCommand>)
    ensures |path| == 5
    ensures path[0] == MoveTo(Point(0.0, sh.topY))
    ensures path[4] == LineTo(path[0].to)
  {
    [ MoveTo(Point(0.0, sh.topY)),
      ArcTo(sh.radius, false, true, Point(sh.width, sh.topY)),
      LineTo(Point(sh.bottomRightX, sh.bottomY)),
      ArcTo(sh.bottomRadius, false, false, Point(sh.bottomLeftX, sh.bottomY)),
      LineTo(Point(0.0, sh.topY)) ]
  }

  /** `createSectorSvg(radius, radialHeight, angle)` with the trigonometric
      values of half the angle given as `c` and `s`. */
  function CreateSectorSvg(radius: real, radialHeight: real, c: real, s: real): (svg: SectorSvg)
    ensures |svg.path| == 5 && svg.path[4] == LineTo(svg.path[0].to)
    ensures svg.path[0].to == Point(0.0, radius - radius * c)
    ensures svg.path[1].to == Point(svg.width, radius - radius * c)
    ensures svg.path[2].to.x + svg.path[3].to.x == svg.width
    ensures svg.path[2].to.y == svg.path[3].to.y == svg.height
  {
    var sh := Shape(radius, radialHeight, c, s);
    SectorSvg(sh.width, sh.height, Outline(sh))
  }

  /** The four corners of the wedge, in the order the outline visits them. */
  function Corners(svg: SectorSvg): (corners: seq<Point>)
    requires |svg.path| == 5
    ensures |corners| == 4
  {
    [svg.path[0].to, svg.path[1].to, svg.path[2].to, svg.path[3].to]
  }

  /** Distance squared from `p` to the centre (cx, cy). */
  function DistSq(p: Point, cx: real, cy: real): real
  {
    (p.x - cx) * (p.x - cx) + (p.y - cy) * (p.y - cy)
  }

  /** The path is closed: it starts and ends at (0, topY), and the outer arc
      runs from x = 0 to x = width at that same height. */
  lemma PathIsClosed(radius: real, radialHeight: real, c: real, s: real)
    ensures var svg := CreateSectorSvg(radius, radialHeight, c, s);
            var topY := radius - radius * c;
            && svg.path[0] == MoveTo(Point(0.0, topY))
            && svg.path[4] == LineTo(Point(0.0, topY))
            && svg.path[1].ArcTo? && svg.path[1].to == Point(svg.width, topY)
  {
  }

  /** The inner endpoints mirror each other about x = width / 2 and are
      2 * bottomRadius * s apart. */
  lemma InnerEndpointsMirror(radius: real, radialHeight: real, c: real, s: real)
    ensures var svg := CreateSectorSvg(radius, radialHeight, c, s);
            var left := svg.path[3].to;
            var right := svg.path[2].to;
            && left.y == right.y == svg.height
            && left.x + right.x == svg.width
            && right.x - left.x == 2.0 * (radius - radialHeight) * s
  {
    var sh := Shape(radius, radialHeight, c, s);
    assert sh.bottomRightX - sh.bottomLeftX == 2.0 * radius * s - 2.0 * radialHeight * s;
  }

  /** Given a cosine/sine pair, the two outer corners lie on the circle of
      radius `radius` centred at (width / 2, radius). */
  lemma OuterCornersOnCircle(radius: real, radialHeight: real, c: real, s: real)
    requires s * s + c * c == 1.0
    ensures var svg := CreateSectorSvg(radius, radialHeight, c, s);
            var corners := Corners(svg);
            && DistSq(corners[0], svg.width / 2.0, radius) == radius * radius
            && DistSq(corners[1], svg.width / 2.0, radius) == radius * radius
  {
    var sh := Shape(radius, radialHeight, c, s);
    var half := sh.width / 2.0;
    assert half == radius * s;
    // Both corners are (half -/+ radius * s, radius - radius * c).
    assert 0.0 - half == -(radius * s) && sh.width - half == radius * s;
    assert sh.topY - radius == -(radius * c);
    SquaresOfScaledPair(radius, c, s);
  }

  /** Given a cosine/sine pair, the two inner corners lie on the circle of
      radius `radius - radialHeight` with the same centre. */
  lemma InnerCornersOnCircle(radius: real, radialHeight: real, c: real, s: real)
    requires s * s + c * c == 1.0
    ensures var svg := CreateSectorSvg(radius, radialHeight, c, s);
            var corners := Corners(svg);
            var bottomRadius := radius - radialHeight;
            && DistSq(corners[2], svg.width / 2.0, radius) == bottomRadius * bottomRadius
            && DistSq(corners[3], svg.width / 2.0, radius) == bottomRadius * bottomRadius
  {
    var sh := Shape(radius, radialHeight, c, s);
    var b := sh.bottomRadius;
    var half := sh.width / 2.0;
    assert half == radius * s;
    // The inner corners are (half -/+ b * s, radius - b * c).
    assert sh.bottomLeftX - half == -(b * s) by {
      calc {
        sh.bottomLeftX - half;
        radialHeight * s - radius * s;
        (radialHeight - radius) * s;
        -(b * s);
      }
    }
    assert sh.bottomRightX - half == b * s;
    assert sh.height - radius == -(b * c);
    SquaresOfScaledPair(b, c, s);
  }

  /** (r*s)^2 + (r*c)^2 == r^2 for a cosine/sine pair. */
  lemma SquaresOfScaledPair(r: real, c: real, s: real)
    requires s * s + c * c == 1.0
    ensures (r * s) * (r * s) + (r * c) * (r * c) == r * r
    ensures (-(r * s)) * (-(r * s)) + (-(r * c)) * (-(r * c)) == r * r
  {
    calc {
      (r * s) * (r * s) + (r * c) * (r * c);
      r * r * (s * s + c * c);
      r * r;
    }
  }

  /** The wedge's radial extent: the gap between the top of the outer arc's
      chord and the inner corners is radialHeight * c, which is not negative
      when both factors are not. */
  lemma HeightAboveChord(radius: real, radialHeight: real, c: real, s: real)
    ensures var svg := CreateSectorSvg(radius, radialHeight, c, s);
            svg.height - svg.path[0].to.y == radialHeight * c
    ensures 0.0 <= c && 0.0 <= radialHeight ==>
            CreateSectorSvg(radius, radialHeight, c, s).path[0].to.y
              <= CreateSectorSvg(radius, radialHeight, c, s).height
  {
    var sh := Shape(radius, radialHeight, c, s);
    calc {
      sh.height - sh.topY;
      (radius - (radius - radialHeight) * c) - (radius - radius * c);
      radialHeight * c;
    }
    if 0.0 <= c && 0.0 <= radialHeight {
      assert 0.0 <= radialHeight * c;
    }
  }

  /** With a non-negative sine and 0 <= radialHeight <= radius, the corners
      keep their left-to-right order and stay inside [0, width]. */
  lemma CornersOrdered(radius: real, radialHeight: real, c: real, s: real)
    requires 0.0 <= s && 0.0 <= radialHeight <= radius
    ensures var corners := Corners(CreateSectorSvg(radius, radialHeight, c, s));
            0.0 == corners[0].x <= corners[3].x <= corners[2].x <= corners[1].x
  {
    var sh := Shape(radius, radialHeight, c, s);
    assert 0.0 <= radialHeight * s;
    assert (radius - radialHeight) * s >= 0.0;
    assert sh.bottomRightX - sh.bottomLeftX == 2.0 * ((radius - radialHeight) * s);
    assert sh.width - sh.bottomRightX == radialHeight * s;
  }

  /** A single option gives a full turn, sin(pi) = 0: the wedge collapses to
      width 0, and both arcs start where they end. */
  lemma FullTurnWedgeIsDegenerate(radius: real, radialHeight: real, c: real)
    ensures var svg := CreateSectorSvg(radius, radialHeight, c, 0.0);
            && svg.width == 0.0
            && svg.path[1].to == svg.path[0].to
            && svg.path[3].to == svg.path[2].to
  {
  }
}
