/** The two geometric queries: grid snapping and the topmost-shape hit test. */
module Geometry {
  import opened Wrappers
  import opened DiagramTypes

  datatype Point = Point(x: real, y: real)

  /** `f64::round`: to the nearest integer, halfway cases away from zero. */
  function RoundHalfAwayFromZero(v: real): (r: int)
    ensures r as real - v <= 0.5 && v - r as real <= 0.5
    ensures r as real - v == 0.5 ==> v > 0.0
    ensures v - r as real == 0.5 ==> v < 0.0
  {
    if v >= 0.0 then (v + 0.5).Floor else -((-v + 0.5).Floor)
  }

  /** An integer rounds to itself. */
  lemma RoundInteger(n: int)
    ensures RoundHalfAwayFromZero(n as real) == n
  {
  }

  function Abs(v: real): real
  {
    if v < 0.0 then -v else v
  }

  /** One coordinate snapped: `(v / grid).round() * grid`. */
  function SnapAxis(v: real, grid: real): (r: real)
    requires grid != 0.0
    ensures r / grid == (r / grid).Floor as real
    ensures Abs(r - v) <= Abs(grid) / 2.0
  {
    var n := RoundHalfAwayFromZero(v / grid);
    SnapAxisFacts(v, grid, n);
    n as real * grid
  }

  /** `(n * grid) / grid == n` for a nonzero grid. */
  lemma MultipleDivides(n: int, grid: real)
    requires grid != 0.0
    ensures (n as real * grid) / grid == n as real
  {
  }

  lemma MulNonnegative(a: real, b: real)
    requires a >= 0.0 && b >= 0.0
    ensures a * b >= 0.0
  {
  }

  lemma SnapAxisFacts(v: real, grid: real, n: int)
    requires grid != 0.0
    requires n as real - v / grid <= 0.5 && v / grid - n as real <= 0.5
    ensures (n as real * grid) / grid == n as real
    ensures Abs(n as real * grid - v) <= Abs(grid) / 2.0
  {
    MultipleDivides(n, grid);
    var q := v / grid;
    assert v == q * grid;
    var d := n as real - q;
    assert n as real * grid - v == d * grid;
    assert -0.5 <= d <= 0.5;
    if grid > 0.0 {
      MulNonnegative(0.5 - d, grid);
      MulNonnegative(d + 0.5, grid);
    } else {
      MulNonnegative(0.5 - d, -grid);
      MulNonnegative(d + 0.5, -grid);
    }
  }

  /**
   * `snap_to_grid`: both coordinates to the nearest multiple of the grid size
   * when snapping is on, unchanged otherwise. `None` stands for the pair of
   * NaNs a zero grid size produces.
   */
  function Snap(settings: DiagramSettings, x: real, y: real): (r: Option<Point>)
    ensures !settings.snapToGrid ==> r == Some(Point(x, y))
    ensures r.None? <==> settings.snapToGrid && settings.gridSize == 0.0
    ensures settings.snapToGrid && r.Some? ==>
      var g := settings.gridSize;
      && r.value.x / g == (r.value.x / g).Floor as real
      && r.value.y / g == (r.value.y / g).Floor as real
      && Abs(r.value.x - x) <= Abs(g) / 2.0
      && Abs(r.value.y - y) <= Abs(g) / 2.0
  {
    if !settings.snapToGrid then Some(Point(x, y))
    else if settings.gridSize == 0.0 then None
    else Some(Point(SnapAxis(x, settings.gridSize), SnapAxis(y, settings.gridSize)))
  }

  /** A snapped coordinate snaps to itself. */
  lemma SnapAxisIdempotent(v: real, grid: real)
    requires grid != 0.0
    ensures SnapAxis(SnapAxis(v, grid), grid) == SnapAxis(v, grid)
  {
    var n := RoundHalfAwayFromZero(v / grid);
    var r := n as real * grid;
    assert SnapAxis(v, grid) == r;
    MultipleDivides(n, grid);
    RoundInteger(n);
    assert RoundHalfAwayFromZero(r / grid) == n;
  }

  /** Snapping a snapped point again changes nothing. */
  lemma SnapIdempotent(settings: DiagramSettings, x: real, y: real)
    requires Snap(settings, x, y).Some?
    ensures var p := Snap(settings, x, y).value; Snap(settings, p.x, p.y) == Some(p)
  {
    if settings.snapToGrid {
      SnapAxisIdempotent(x, settings.gridSize);
      SnapAxisIdempotent(y, settings.gridSize);
    }
  }

  /** With the default settings (grid 20, snapping on), (25, 33) snaps to (20, 40). */
  lemma SnapDefaultExample()
    ensures Snap(DefaultSettings(), 25.0, 33.0) == Some(Point(20.0, 40.0))
  {
  }

  /** The inclusive, axis-aligned box of a shape contains the point; rotation plays no part. */
  predicate Contains(s: Shape, x: real, y: real): (r: bool)
    ensures r ==> 0.0 <= s.width && 0.0 <= s.height
    ensures (0.0 <= s.width && 0.0 <= s.height &&
             (x == s.x || x == s.x + s.width) && (y == s.y || y == s.y + s.height)) ==> r
  {
    x >= s.x && x <= s.x + s.width && y >= s.y && y <= s.y + s.height
  }

  /** The index of the last shape (the topmost) whose box contains the point. */
  function TopmostHit(shapes: seq<Shape>, x: real, y: real): (r: Option<nat>)
    ensures r.None? <==> forall i :: 0 <= i < |shapes| ==> !Contains(shapes[i], x, y)
    ensures r.Some? ==>
      && r.value < |shapes|
      && Contains(shapes[r.value], x, y)
      && forall j :: r.value < j < |shapes| ==> !Contains(shapes[j], x, y)
    decreases |shapes|
  {
    if shapes == [] then None
    else if Contains(shapes[|shapes| - 1], x, y) then Some(|shapes| - 1)
    else TopmostHit(shapes[..|shapes| - 1], x, y)
  }

  /** The id of the topmost shape at the point, if any: what `find_shape_at` answers. */
  function TopmostShapeId(shapes: seq<Shape>, x: real, y: real): (r: Option<string>)
    ensures r.None? <==> forall i :: 0 <= i < |shapes| ==> !Contains(shapes[i], x, y)
    ensures r.Some? ==> exists i :: 0 <= i < |shapes| && shapes[i].id == r.value && Contains(shapes[i], x, y)
  {
    match TopmostHit(shapes, x, y)
    case Some(i) => Some(shapes[i].id)
    case None => None
  }

  /** A shape added on top wins wherever it contains the point; elsewhere nothing changes. */
  lemma TopmostHitAppend(shapes: seq<Shape>, s: Shape, x: real, y: real)
    ensures Contains(s, x, y) ==> TopmostShapeId(shapes + [s], x, y) == Some(s.id)
    ensures !Contains(s, x, y) ==> TopmostShapeId(shapes + [s], x, y) == TopmostShapeId(shapes, x, y)
  {
  }

  /** Two shapes with the same box, whatever their rotation and style. */
  predicate SameBox(a: Shape, b: Shape)
  {
    a.x == b.x && a.y == b.y && a.width == b.width && a.height == b.height
  }

  /** The hit test sees only the boxes: rotation and styling never change its answer. */
  lemma TopmostHitOnlyBoxes(a: seq<Shape>, b: seq<Shape>, x: real, y: real)
    requires |a| == |b|
    requires forall i :: 0 <= i < |a| ==> SameBox(a[i], b[i])
    ensures TopmostHit(a, x, y) == TopmostHit(b, x, y)
  {
  }
}
