/**
 * The path model: points, the four kinds of path segment the interpreter emits
 * and the geometry their constructors compute.
 *
 * The Euclidean norm (numpy.linalg.norm) and atan2 (math.atan2) are not
 * computed here: they are supplied as a `Numerics` value, of which the model
 * only assumes what `Valid` states.
 */
module Geometry {
  import opened Wrappers

  /** `math.pi`. */
  const PI: real := 3.141592653589793

  datatype Point = Point(x: real, y: real)

  const Origin := Point(0.0, 0.0)

  /** The numeric primitives the geometry is computed with. */
  datatype Numerics = Numerics(norm: (real, real) -> real, atan2: (real, real) -> real) {
    /** A norm is never negative; atan2 lies in (-PI, PI]. */
    ghost predicate Valid() {
      && (forall dx: real, dy: real :: norm(dx, dy) >= 0.0)
      && (forall y: real, x: real :: -PI < atan2(y, x) <= PI)
    }
  }

  /**
   * A path traced by the machine. All four kinds carry the common header
   * (`feedRate`, `length`, `duration`, `startTime`, `spindleOn`, `statement`);
   * `statement` is the index of the statement that emitted the path, or None.
   */
  datatype Path =
    | Line(start: Point, end: Point, rapid: bool,
           feedRate: real, length: real, duration: real,
           startTime: real, spindleOn: bool, statement: Option<nat>)
    | Arc(start: Point, end: Point, center: Point, clockwise: bool,
          radius: real, angle1: real, angle2: real,
          feedRate: real, length: real, duration: real,
          startTime: real, spindleOn: bool, statement: Option<nat>)
    | ToolChange(feedRate: real, length: real, duration: real,
                 startTime: real, spindleOn: bool, statement: Option<nat>)
    | Dwell(feedRate: real, length: real, duration: real,
            startTime: real, spindleOn: bool, statement: Option<nat>)

  function Abs(r: real): real {
    if r < 0.0 then -r else r
  }

  /** An angle in (-PI, PI] moved into [0, 2*PI) without changing its direction. */
  function NormalizeAngle(a: real): (r: real)
    requires -PI < a <= PI
    ensures 0.0 <= r < 2.0 * PI
    ensures r == a || r == a + 2.0 * PI
  {
    if a < 0.0 then a + 2.0 * PI else a
  }

  /**
   * The angle swept between two normalised directions, taking the shorter way
   * round: the smaller of the two arcs that join them, hence at most PI.
   */
  function SweptAngle(a1: real, a2: real): (d: real)
    requires 0.0 <= a1 < 2.0 * PI && 0.0 <= a2 < 2.0 * PI
    ensures 0.0 <= d <= PI
    ensures d <= Abs(a1 - a2) && d <= 2.0 * PI - Abs(a1 - a2)
    ensures d == Abs(a1 - a2) || d == 2.0 * PI - Abs(a1 - a2)
  {
    var diff := Abs(a1 - a2);
    if diff > PI then 2.0 * PI - diff else diff
  }

  /**
   * A segment is well formed when its derived fields are the ones its
   * constructor computes from its defining fields.
   */
  ghost predicate WellFormed(p: Path, num: Numerics) {
    match p
    case Line(start, end, _, feedRate, length, duration, _, _, _) =>
      && feedRate != 0.0
      && length == num.norm(end.x - start.x, end.y - start.y)
      && duration == length / feedRate
    case Arc(start, end, center, _, radius, angle1, angle2, feedRate, length, duration, _, _, _) =>
      ArcShape(start, end, center, radius, angle1, angle2, feedRate, length, duration, num)
    case ToolChange(_, length, duration, _, _, _) => length == 0.0 && duration == 3.0
    case Dwell(_, length, _, _, _, _) => length == 0.0
  }

  /**
   * The derived fields of an arc: the radius is the distance from the centre
   * to the start, the two angles are the normalised directions of the start
   * and the end seen from the centre, the length is the radius times the
   * swept angle and the duration is that length at the feed rate.
   */
  ghost predicate ArcShape(start: Point, end: Point, center: Point, radius: real, angle1: real, angle2: real,
                           feedRate: real, length: real, duration: real, num: Numerics) {
    && feedRate != 0.0
    && radius == num.norm(start.x - center.x, start.y - center.y)
    && -PI < num.atan2(start.y - center.y, start.x - center.x) <= PI
    && -PI < num.atan2(end.y - center.y, end.x - center.x) <= PI
    && angle1 == NormalizeAngle(num.atan2(start.y - center.y, start.x - center.x))
    && angle2 == NormalizeAngle(num.atan2(end.y - center.y, end.x - center.x))
    && length == radius * SweptAngle(angle1, angle2)
    && duration == length / feedRate
  }

  /**
   * `Line(start, end, feedRate)`: a straight segment whose length is the
   * distance between its ends and whose duration is that length at the feed rate.
   * The other header fields keep their class defaults.
   */
  function NewLine(start: Point, end: Point, feedRate: real, num: Numerics): (p: Path)
    requires num.Valid()
    requires feedRate != 0.0
    ensures p.Line? && p.start == start && p.end == end && p.feedRate == feedRate
    ensures WellFormed(p, num)
    ensures p.length >= 0.0 && p.duration * feedRate == p.length
    ensures !p.rapid && p.startTime == 0.0 && !p.spindleOn && p.statement == None
  {
    var length := num.norm(end.x - start.x, end.y - start.y);
    Line(start, end, false, feedRate, length, length / feedRate, 0.0, false, None)
  }

  /**
   * `Arc(start, end, center, feedRate, clockwise)`: the radius is the distance
   * from the centre to the start; the length is the radius times the shorter
   * angle between the normalised start and end directions.
   */
  function NewArc(start: Point, end: Point, center: Point, feedRate: real, clockwise: bool, num: Numerics): (p: Path)
    requires num.Valid()
    requires feedRate != 0.0
    ensures p.Arc? && p.start == start && p.end == end && p.center == center
    ensures p.feedRate == feedRate && p.clockwise == clockwise
    ensures WellFormed(p, num)
    ensures ArcShape(start, end, center, p.radius, p.angle1, p.angle2, feedRate, p.length, p.duration, num)
    ensures p.radius >= 0.0 && 0.0 <= p.length <= p.radius * PI
    ensures p.duration * feedRate == p.length
    ensures p.startTime == 0.0 && !p.spindleOn && p.statement == None
  {
    var radius := num.norm(start.x - center.x, start.y - center.y);
    var angle1 := NormalizeAngle(num.atan2(start.y - center.y, start.x - center.x));
    var angle2 := NormalizeAngle(num.atan2(end.y - center.y, end.x - center.x));
    var length := ArcLength(radius, angle1, angle2);
    var duration := length / feedRate;
    QuotientTimesDivisor(length, feedRate);
    assert ArcShape(start, end, center, radius, angle1, angle2, feedRate, length, duration, num);
    Arc(start, end, center, clockwise, radius, angle1, angle2,
        feedRate, length, duration, 0.0, false, None)
  }

  /** The radius times the swept angle: at most half the circumference. */
  function ArcLength(radius: real, angle1: real, angle2: real): (l: real)
    requires radius >= 0.0
    requires 0.0 <= angle1 < 2.0 * PI && 0.0 <= angle2 < 2.0 * PI
    ensures l == radius * SweptAngle(angle1, angle2)
    ensures 0.0 <= l <= radius * PI
  {
    var sweep := SweptAngle(angle1, angle2);
    var l := radius * sweep;
    ScaleBound(radius, sweep, PI, l);
    l
  }

  lemma ScaleBound(a: real, b: real, c: real, ab: real)
    requires a >= 0.0 && 0.0 <= b <= c && ab == a * b
    ensures 0.0 <= ab <= a * c
  {
    assert a * c - ab == a * (c - b);
  }

  lemma QuotientTimesDivisor(l: real, f: real)
    requires f != 0.0
    ensures (l / f) * f == l
  {
  }

  /** A well-formed arc is never longer than half the circle it lies on. */
  lemma ArcLengthBound(p: Path, num: Numerics)
    requires num.Valid() && p.Arc? && WellFormed(p, num)
    ensures p.radius >= 0.0 && 0.0 <= p.length <= p.radius * PI
  {
    assert ArcShape(p.start, p.end, p.center, p.radius, p.angle1, p.angle2, p.feedRate, p.length, p.duration, num);
    var l := ArcLength(p.radius, p.angle1, p.angle2);
    assert l == p.length;
  }

  /** A well-formed segment with a positive feed rate takes non-negative time. */
  lemma DurationNonNegative(p: Path, num: Numerics)
    requires num.Valid() && (p.Line? || p.Arc?) && WellFormed(p, num)
    requires p.feedRate > 0.0
    ensures p.duration >= 0.0 && p.duration * p.feedRate == p.length
  {
    if p.Arc? {
      ArcLengthBound(p, num);
    }
  }

  /**
   * `distance_from_point_to_line(pt, p1, p2) > tolerance`. The distance is
   * |cross| / norm(p2 - p1); when the norm is zero the quotient is +inf
   * (which exceeds any tolerance) if cross is non-zero and NaN (which exceeds
   * none) if it is zero.
   */
  function Exceeds(pt: Point, p1: Point, p2: Point, tolerance: real, num: Numerics): (b: bool)
    ensures var cross := (p2.x - p1.x) * (p1.y - pt.y) - (p1.x - pt.x) * (p2.y - p1.y);
            tolerance >= 0.0 && b ==> cross != 0.0
    ensures var cross := (p2.x - p1.x) * (p1.y - pt.y) - (p1.x - pt.x) * (p2.y - p1.y);
            var n := num.norm(p2.x - p1.x, p2.y - p1.y);
            n > 0.0 ==> (b <==> Abs(cross) > tolerance * n)
  {
    var cross := (p2.x - p1.x) * (p1.y - pt.y) - (p1.x - pt.x) * (p2.y - p1.y);
    var n := num.norm(p2.x - p1.x, p2.y - p1.y);
    if n == 0.0 then cross != 0.0
    else
      var d := Abs(cross) / n;
      assert n > 0.0 ==> (d > tolerance <==> Abs(cross) > tolerance * n) by {
        if n > 0.0 { assert d * n == Abs(cross); }
      }
      d > tolerance
  }

  /** A point on the chord itself never exceeds a non-negative tolerance. */
  lemma EndpointWithinTolerance(p1: Point, p2: Point, tolerance: real, num: Numerics)
    requires num.Valid() && tolerance >= 0.0
    ensures !Exceeds(p2, p1, p2, tolerance, num)
    ensures !Exceeds(p1, p1, p2, tolerance, num)
  {
  }
}
