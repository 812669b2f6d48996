/**
 * The pure arithmetic of the drawer overlay: panel-size resolution, the
 * per-direction open and closed offsets, the reverse-direction table, the
 * responder's capture test, and the offset and backdrop opacity a drag writes.
 */
module DrawerGeometry {
  import opened Common
  import opened Messages

  /** The panel width used whenever the window is in landscape. */
  const MaxWidthOnLandscapeMode: real := 300.0

  /** A configured panel size: absolute pixels or a percentage string such as "80%". */
  datatype Size = Pixels(pixels: real) | Percentage(text: string)

  /**
   * Resolves a configured size against the screen dimension `max`. A string
   * is read with `parse` (JavaScript's parseFloat, None standing for NaN); a
   * NaN or zero reading falls back to 100 percent.
   */
  function ResolveSize(value: Size, max: real, parse: string -> Option<real>): (size: real)
    ensures value.Pixels? ==> size == value.pixels
    ensures value.Percentage? ==>
      var parsed := parse(value.text);
      && (parsed in {None, Some(0.0)} ==> size == max)
      && (parsed.Some? && parsed.value != 0.0 ==> size * 100.0 == max * parsed.value)
      && (parsed.Some? && 0.0 < parsed.value <= 100.0 && 0.0 <= max ==> 0.0 <= size <= max)
  {
    match value
    case Pixels(n) => n
    case Percentage(text) =>
      var percent := match parse(text) case Some(p) => (if p == 0.0 then 100.0 else p) case None => 100.0;
      var fraction := percent / 100.0;
      assert 0.0 <= max && 0.0 < fraction <= 1.0 ==> 0.0 <= max * fraction <= max by {
        if 0.0 <= max && 0.0 < fraction <= 1.0 {
          assert max - max * fraction == max * (1.0 - fraction);
          assert 0.0 <= max * (1.0 - fraction);
        }
      }
      max * fraction
  }

  /** The window is in landscape when it is not taller than it is wide. */
  predicate IsLandscape(windowWidth: real, windowHeight: real)
  {
    windowHeight <= windowWidth
  }

  /** The screen and panel dimensions a drawer captures once, when it is constructed. */
  datatype Geometry = Geometry(screenWidth: real, screenHeight: real, drawerWidth: real, drawerHeight: real)

  /**
   * The construction-time geometry: in landscape the panel width is the
   * constant 300 whatever width was configured; otherwise both sizes are
   * resolved against the window.
   */
  function Measure(width: Size, height: Size, windowWidth: real, windowHeight: real,
                   parse: string -> Option<real>): (g: Geometry)
    ensures g.screenWidth == windowWidth && g.screenHeight == windowHeight
    ensures IsLandscape(windowWidth, windowHeight) ==> g.drawerWidth == MaxWidthOnLandscapeMode
    ensures !IsLandscape(windowWidth, windowHeight) ==> g.drawerWidth == ResolveSize(width, windowWidth, parse)
    ensures g.drawerHeight == ResolveSize(height, windowHeight, parse)
  {
    var drawerWidth := if IsLandscape(windowWidth, windowHeight) then MaxWidthOnLandscapeMode
                       else ResolveSize(width, windowWidth, parse);
    Geometry(windowWidth, windowHeight, drawerWidth, ResolveSize(height, windowHeight, parse))
  }

  /** The offset of a fully open panel (`drawerOpenedValues`). */
  function OpenedValue(d: Direction, g: Geometry): real
  {
    match d
    case Left => 0.0
    case Right => g.screenWidth - g.drawerWidth
    case Top => g.drawerHeight - g.screenHeight
    case Bottom => g.screenHeight - g.drawerHeight
  }

  /** The offset a drawer starts from (`initialValues`). */
  function InitialValue(d: Direction, g: Geometry): real
  {
    match d
    case Left => -g.drawerWidth
    case Right => g.screenWidth
    case Top => -g.screenHeight
    case Bottom => g.screenHeight
  }

  /** The offset a dismissal animates to (`closeValues`). */
  function CloseValue(d: Direction, g: Geometry): real
  {
    match d
    case Left => -g.drawerWidth
    case Right => g.screenWidth
    case Top => -g.screenHeight
    case Bottom => g.screenHeight
  }

  /** Which way, along the drawer's axis, closing moves the panel. */
  function ClosingSign(d: Direction): real
  {
    match d
    case Left => -1.0
    case Top => -1.0
    case Right => 1.0
    case Bottom => 1.0
  }

  /** The panel's size along its axis of travel. */
  function Extent(d: Direction, g: Geometry): real
  {
    match d
    case Left => g.drawerWidth
    case Right => g.drawerWidth
    case Top => g.drawerHeight
    case Bottom => g.drawerHeight
  }

  /**
   * The closed offset is the initial offset, and lies exactly one panel size
   * from the opened offset, on the side of the drawer's edge; so the two
   * differ exactly when the panel has a non-zero size.
   */
  lemma ClosedIsOnePanelFromOpened(d: Direction, g: Geometry)
    ensures InitialValue(d, g) == CloseValue(d, g)
    ensures CloseValue(d, g) - OpenedValue(d, g) == ClosingSign(d) * Extent(d, g)
    ensures OpenedValue(d, g) != CloseValue(d, g) <==> Extent(d, g) != 0.0
  {
  }

  /** The `reverseDirection` table of the SWIPE_END handler. */
  function Reverse(d: Direction): Direction
  {
    match d
    case Left => Right
    case Right => Left
    case Top => Bottom
    case Bottom => Top
  }

  /** The reverse table is an involution without a fixed point. */
  lemma ReverseIsInvolution(d: Direction)
    ensures Reverse(Reverse(d)) == d
    ensures Reverse(d) != d
  {
  }

  function Abs(x: real): real
  {
    if x < 0.0 then -x else x
  }

  /** Whether a direction moves the panel horizontally. */
  predicate IsHorizontal(d: Direction)
  {
    d == Left || d == Right
  }

  /**
   * The drawer's own responder claims a move once it has travelled more than
   * 5 points along the drawer's axis; movement across the axis is ignored.
   */
  function ShouldCapture(d: Direction, dx: real, dy: real): (capture: bool)
    ensures IsHorizontal(d) ==> (capture <==> dx > 5.0 || dx < -5.0)
    ensures !IsHorizontal(d) ==> (capture <==> dy > 5.0 || dy < -5.0)
  {
    if IsHorizontal(d) then Abs(dx) > 5.0 else Abs(dy) > 5.0
  }

  /**
   * `a / b` where the panel size `b` is not zero. JavaScript gives an
   * infinity or NaN for a zero size; the model gives 0 there.
   */
  function Ratio(a: real, b: real): real
  {
    if b == 0.0 then 0.0 else a / b
  }

  /** `Math.min(fraction * fade, fade)`: the backdrop opacity a drag writes. */
  function CappedOpacity(fraction: real, fade: real): (opacity: real)
    ensures opacity <= fade
    ensures opacity == fraction * fade || opacity == fade
    ensures fraction * fade <= fade ==> opacity == fraction * fade
  {
    if fraction * fade < fade then fraction * fade else fade
  }

  /** The two animated values a drag handler sets directly. */
  datatype Write = Write(offset: real, opacity: real)

  /** Whether an offset lies strictly past the opened offset, toward the closed one. */
  predicate PastOpened(d: Direction, g: Geometry, offset: real)
  {
    (offset - OpenedValue(d, g)) * ClosingSign(d) > 0.0
  }

  /**
   * A move while the gesture started at the screen edge. Only a `{moveX, moveY}`
   * value has a `moveX`; a bare number yields `undefined`, every comparison
   * with which is false, so nothing is written. A left drawer follows the
   * finger while it is within one panel width of the left edge, a right
   * drawer while it is within one panel width of the right edge; top and
   * bottom drawers never move here.
   */
  function EdgeDrag(d: Direction, g: Geometry, fade: real, value: MoveValue): (w: Option<Write>)
    ensures w.Some? <==>
      && value.PointValue?
      && ((d == Left && value.point.moveX < g.drawerWidth) ||
          (d == Right && g.screenWidth - value.point.moveX < g.drawerWidth))
    ensures w.Some? && d == Left ==> w.value.offset == value.point.moveX - g.drawerWidth
    ensures w.Some? && d == Right ==> w.value.offset == value.point.moveX
    ensures w.Some? && d == Left ==>
      w.value.opacity == CappedOpacity(Ratio(value.point.moveX, g.drawerWidth), fade)
    ensures w.Some? && d == Right ==>
      w.value.opacity == CappedOpacity(Ratio(g.screenWidth - value.point.moveX, g.drawerWidth), fade)
    ensures w.Some? ==> w.value.opacity <= fade
    ensures w.Some? ==> PastOpened(d, g, w.value.offset)
  {
    match value
    case BareNumber(_) => None
    case PointValue(p) =>
      if d == Left && p.moveX < g.drawerWidth then
        Some(Write(p.moveX - g.drawerWidth, CappedOpacity(Ratio(p.moveX, g.drawerWidth), fade)))
      else if d == Right && g.screenWidth - p.moveX < g.drawerWidth then
        Some(Write(p.moveX, CappedOpacity(Ratio(g.screenWidth - p.moveX, g.drawerWidth), fade)))
      else None
  }

  /** The signed displacement of a normal drag along the swipe's axis. */
  function Aligned(swipe: Direction, start: Point, p: Point): real
  {
    match swipe
    case Left => p.moveX - start.moveX
    case Right => start.moveX - p.moveX
    case Bottom => start.moveY - p.moveY
    case Top => p.moveY - start.moveY
  }

  /** `directionModifier`: right and bottom swipes flip the sign. */
  function Modifier(swipe: Direction): real
  {
    match swipe
    case Left => 1.0
    case Top => 1.0
    case Right => -1.0
    case Bottom => -1.0
  }

  /** The panel dimension a swipe is measured against. */
  function DragDimension(swipe: Direction, g: Geometry): real
  {
    if IsHorizontal(swipe) then g.drawerWidth else g.drawerHeight
  }

  /**
   * A normal drag (not started at the edge). Both values are written only
   * while the displacement is negative; the offset is then the opened offset
   * moved by the displacement, so for a swipe along the drawer's own
   * direction the panel lies past the opened offset. Nothing bounds it on the
   * closed side (see DragCanPassClosedValue). A bare-number value has no
   * `moveX`/`moveY`, the displacement is NaN and nothing is written.
   */
  function NormalDrag(d: Direction, swipe: Direction, g: Geometry, fade: real,
                      start: Point, value: MoveValue): (w: Option<Write>)
    ensures w.Some? <==> value.PointValue? && Aligned(swipe, start, value.point) < 0.0
    ensures w.Some? ==>
      w.value.offset == OpenedValue(d, g) + Aligned(swipe, start, value.point) * Modifier(swipe)
    ensures w.Some? ==>
      var dimension := DragDimension(swipe, g);
      w.value.opacity == CappedOpacity(Ratio(Abs(dimension + Aligned(swipe, start, value.point)), dimension), fade)
    ensures w.Some? ==> w.value.opacity <= fade
    ensures w.Some? && swipe == d ==> PastOpened(d, g, w.value.offset)
  {
    match value
    case BareNumber(_) => None
    case PointValue(p) =>
      var aligned := Aligned(swipe, start, p);
      var dimension := DragDimension(swipe, g);
      var openedPercentage := Ratio(Abs(dimension + aligned), dimension);
      if 0.0 > aligned then
        Some(Write(OpenedValue(d, g) + aligned * Modifier(swipe), CappedOpacity(openedPercentage, fade)))
      else None
  }

  /**
   * While a drag stays between the opened and closed offsets, the backdrop
   * opacity is the open fraction `(dimension + aligned) / dimension` of the
   * fade opacity, and lies between 0 and the fade opacity.
   */
  lemma NormalDragOpacityIsOpenFraction(d: Direction, swipe: Direction, g: Geometry, fade: real,
                                        start: Point, p: Point)
    requires 0.0 < DragDimension(swipe, g) && 0.0 <= fade
    requires -DragDimension(swipe, g) <= Aligned(swipe, start, p) < 0.0
    ensures var w := NormalDrag(d, swipe, g, fade, start, PointValue(p));
      var dimension := DragDimension(swipe, g);
      && w.Some?
      && w.value.opacity == ((dimension + Aligned(swipe, start, p)) / dimension) * fade
      && 0.0 <= w.value.opacity <= fade
  {
    var dimension := DragDimension(swipe, g);
    var fraction := (dimension + Aligned(swipe, start, p)) / dimension;
    FractionBelowOne(dimension + Aligned(swipe, start, p), dimension);
    assert Abs(dimension + Aligned(swipe, start, p)) == dimension + Aligned(swipe, start, p);
    assert 0.0 <= fraction * fade <= fade by {
      assert fade - fraction * fade == (1.0 - fraction) * fade;
    }
  }

  /** A part of a positive whole is a fraction in [0, 1). */
  lemma FractionBelowOne(part: real, whole: real)
    requires 0.0 < whole && 0.0 <= part < whole
    ensures 0.0 <= part / whole < 1.0
  {
    var q := part / whole;
    assert q * whole == part;
    if q >= 1.0 {
      assert (q - 1.0) * whole == part - whole;
      ProductOfNonNegatives(q - 1.0, whole);
    }
    if q < 0.0 {
      assert false;
    }
  }

  lemma ProductOfNonNegatives(a: real, b: real)
    requires 0.0 <= a && 0.0 <= b
    ensures 0.0 <= a * b
  {
  }

  /** A half-open drawer with fade 0.6 gets a backdrop of 0.3. */
  lemma HalfOpenDrawerBackdrop()
    ensures var w := NormalDrag(Left, Left, Geometry(400.0, 800.0, 320.0, 800.0), 0.6,
                                Point(300.0, 10.0), PointValue(Point(140.0, 10.0)));
      w.Some? && w.value.opacity == 0.3
  {
    NormalDragOpacityIsOpenFraction(Left, Left, Geometry(400.0, 800.0, 320.0, 800.0), 0.6,
                                    Point(300.0, 10.0), Point(140.0, 10.0));
  }

  /**
   * Past the closed offset the backdrop darkens again: once the displacement
   * reaches twice the panel size, the open fraction is at least 1 and the
   * backdrop is at the full fade opacity.
   */
  lemma NormalDragOvershootDarkens(d: Direction, swipe: Direction, g: Geometry, fade: real,
                                   start: Point, p: Point)
    requires 0.0 < DragDimension(swipe, g) && 0.0 <= fade
    requires Aligned(swipe, start, p) <= -2.0 * DragDimension(swipe, g)
    ensures var w := NormalDrag(d, swipe, g, fade, start, PointValue(p));
      w.Some? && w.value.opacity == fade
  {
    var dimension := DragDimension(swipe, g);
    var fraction := Abs(dimension + Aligned(swipe, start, p)) / dimension;
    assert Abs(dimension + Aligned(swipe, start, p)) >= dimension;
    assert fraction >= 1.0 by {
      assert fraction * dimension == Abs(dimension + Aligned(swipe, start, p));
    }
    assert fraction * fade >= fade by {
      assert fraction * fade - fade == (fraction - 1.0) * fade;
    }
  }

  /**
   * The drag is bounded on the opened side only: a left drawer 320 wide,
   * dragged 350 points to the left, is written past its closed offset -320.
   */
  lemma DragCanPassClosedValue()
    ensures var g := Geometry(400.0, 800.0, 320.0, 800.0);
      var w := NormalDrag(Left, Left, g, 0.6, Point(350.0, 10.0), PointValue(Point(0.0, 10.0)));
      w.Some? && w.value.offset < CloseValue(Left, g)
  {
  }
}
