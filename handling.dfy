/**
 * The machine simulator (`State`): it executes statements one at a time,
 * moving the tool, keeping the clock and recording the paths it traces.
 *
 * `Machine` is the simulator's state as a value and `Handle` what
 * `handle_statement` does to it; the class `State` holds the same fields and
 * updates them in place, and its methods are proved to agree with `Handle`.
 * A statement that raises in the source yields `Fail`; whatever it changed
 * before raising (only ever the feed rate) stays changed.
 */
module Handling {
  import opened Wrappers
  import opened Strings
  import opened Geometry
  import opened Expressions
  import opened Parser

  /** `RAPID_SPEED_MM`: the rapid speed, in mm/s. */
  const RAPID_SPEED_MM: real := 25.0

  /** The rapid speed in inches per second, the default units. */
  const RAPID_SPEED_IN: real := RAPID_SPEED_MM / 25.4

  datatype Units = Inches | Millimetres

  function RapidSpeed(u: Units): (r: real)
    ensures r > 0.0
    ensures u == Millimetres ==> r == RAPID_SPEED_MM
    ensures u == Inches ==> r * 25.4 == RAPID_SPEED_MM
  {
    if u == Inches then RAPID_SPEED_IN else RAPID_SPEED_MM
  }

  /** Why a statement raised. */
  datatype Error =
    | EvalFailed(cause: EvalError)                 // an expression could not be evaluated
    | BadParameters(failed: map<char, EvalError>)  // `eval_params` raised
    | MissingParameter(letter: char)               // a KeyError on `params[letter]`
    | ZeroFeedRate                                 // a segment would be traced at rate 0
    | BadAssignment                                // `(name, exp) = st.args` could not unpack
    | NoStatement                                  // `step` past the last statement (IndexError)

  /** The fields of `State` that `handle_statement` reads and writes. */
  datatype Machine = Machine(
    pos: Point,
    feedRate: real,
    spindleOn: bool,
    units: Units,
    rapidSpeed: real,
    variables: map<string, real>,
    time: real,
    paths: seq<Path>,
    unknownCodes: seq<string>,
    finished: bool)

  /** A fresh `State`: at the origin, spindle on, inches, nothing traced. */
  function Initial(): (m: Machine)
    ensures m.paths == [] && m.time == 0.0 && m.pos == Origin
    ensures m.spindleOn && m.units == Inches && m.rapidSpeed == RapidSpeed(m.units)
    ensures m.feedRate == 1.0 && m.variables == map[] && m.unknownCodes == [] && !m.finished
  {
    Machine(Origin, 1.0, true, Inches, RAPID_SPEED_IN, map[], 0.0, [], [], false)
  }

  /** `get_run_length`: the total duration of the paths. */
  function SumDurations(paths: seq<Path>): (r: real)
    ensures (forall i :: 0 <= i < |paths| ==> paths[i].duration >= 0.0) ==> r >= 0.0
    ensures |paths| == 1 ==> r == paths[0].duration
  {
    if paths == [] then 0.0 else SumDurations(paths[..|paths| - 1]) + paths[|paths| - 1].duration
  }

  lemma SumDurationsSnoc(paths: seq<Path>, p: Path)
    ensures SumDurations(paths + [p]) == SumDurations(paths) + p.duration
  {
    assert (paths + [p])[..|paths|] == paths;
  }

  /**
   * The invariant of the simulator: the clock is the run length so far, each
   * path starts when the ones before it end and has the derived fields its
   * constructor computes, no unknown code is recorded twice, and the rapid
   * speed is the one of the current units.
   */
  ghost predicate Inv(m: Machine, num: Numerics) {
    && m.time == SumDurations(m.paths)
    && (forall i :: 0 <= i < |m.paths| ==> WellFormed(m.paths[i], num))
    && (forall i :: 0 <= i < |m.paths| ==> m.paths[i].startTime == SumDurations(m.paths[..i]))
    && (forall i, j :: 0 <= i < j < |m.unknownCodes| ==> m.unknownCodes[i] != m.unknownCodes[j])
    && m.rapidSpeed == RapidSpeed(m.units)
  }

  lemma InitialInv(num: Numerics)
    ensures Inv(Initial(), num)
  {
  }

  /** A path appended while the machine was in state `m`, leaving it in `m2`. */
  ghost predicate Traced(m: Machine, m2: Machine, p: Path, num: Numerics) {
    && p.startTime == m.time
    && m2.time == m.time + p.duration
    && WellFormed(p, num)
    && p.statement.Some?
    && ((p.Line? || p.Arc?) ==> p.start == m.pos && p.end == m2.pos)
  }

  /**
   * What one statement may do to the record of paths: leave it (and the
   * clock) as it was, or append one path that starts at the current time and
   * moves the clock by its duration. Earlier paths are never touched.
   */
  ghost predicate Extends(m: Machine, m2: Machine, num: Numerics) {
    || (m2.paths == m.paths && m2.time == m.time)
    || (&& |m2.paths| == |m.paths| + 1
        && m2.paths[..|m.paths|] == m.paths
        && Traced(m, m2, m2.paths[|m.paths|], num))
  }

  /**
   * What a statement does to the machine's settings: only G21 changes the
   * units (and with them the rapid speed), only M03 and M05 switch the
   * spindle, only an assignment binds variables, and an unknown code is
   * recorded at most once.
   */
  ghost predicate Settings(m: Machine, st: Statement, m2: Machine) {
    && m2.units == (if st.code == "G21" then Millimetres else m.units)
    && m2.rapidSpeed == (if st.code == "G21" then RAPID_SPEED_MM else m.rapidSpeed)
    && m2.spindleOn == (if st.code == "M03" then true else if st.code == "M05" then false else m.spindleOn)
    && (m2.variables == m.variables || st.code == "=")
    && (m2.feedRate == m.feedRate || st.code in {"G00", "G01", "G02", "G03"} || StartsWith(st.code, 'F'))
    && (m2.paths == m.paths || st.code in {"G00", "G01", "G02", "G03", "M06", "G04"})
    && (|| m2.unknownCodes == m.unknownCodes
        || (st.code !in m.unknownCodes && m2.unknownCodes == m.unknownCodes + [st.code]))
  }

  /** A statement that raised changed nothing but, possibly, the feed rate. */
  ghost predicate FailedAfterFeed(m: Machine, r: (Machine, Outcome<Error>)) {
    r.1.Fail? ==> r.0 == m.(feedRate := r.0.feedRate)
  }

  // ---- the statements ----

  /** The `(name, exp)` an assignment unpacks: a parsed `#` line, or a two-token tail. */
  function AssignTarget(args: Args): (r: Option<(string, string)>)
    ensures args.Assignment? ==> r == Some((args.name, args.exp))
    ensures args.NoArgs? ==> r.None?
    ensures args.Words? ==> (r.Some? <==> |args.words| == 2)
    ensures args.Words? && r.Some? ==> r.value == (args.words[0], args.words[1])
  {
    match args
    case NoArgs => None
    case Assignment(name, exp) => Some((name, exp))
    case Words(w) => if |w| == 2 then Some((w[0], w[1])) else None
  }

  /** `=`: bind a variable to the value of an expression. */
  function Assign(m: Machine, st: Statement): (r: (Machine, Outcome<Error>))
    ensures r.1.Pass? <==> AssignTarget(st.args).Some? && Eval(AssignTarget(st.args).value.1, m.variables).Ok?
    ensures r.1.Pass? ==> r.0 == m.(variables := m.variables[AssignTarget(st.args).value.0 := Eval(AssignTarget(st.args).value.1, m.variables).value])
    ensures r.1.Fail? ==> r.0 == m
  {
    match AssignTarget(st.args)
    case None => (m, Fail(BadAssignment))
    case Some((name, exp)) =>
      match Eval(exp, m.variables)
      case Err(e) => (m, Fail(EvalFailed(e)))
      case Ok(v) => (m.(variables := m.variables[name := v]), Pass)
  }

  /** The feed rate after a move's `F` parameter, given per minute. */
  function FeedFrom(m: Machine, params: map<char, real>): (r: Machine)
    ensures r == m.(feedRate := r.feedRate)
    ensures r.feedRate == if 'F' in params then params['F'] / 60.0 else m.feedRate
  {
    if 'F' in params then m.(feedRate := params['F'] / 60.0) else m
  }

  /** Record `p`, traced from the current position to `to`, and advance the clock by its duration. */
  function Append(m: Machine, p: Path, to: Point, num: Numerics): (r: Machine)
    requires WellFormed(p, num) && p.startTime == m.time && p.statement.Some?
    requires (p.Line? || p.Arc?) ==> p.start == m.pos && p.end == to
    ensures r == m.(paths := m.paths + [p], time := m.time + p.duration, pos := to)
    ensures Extends(m, r, num)
  {
    var r := m.(paths := m.paths + [p], time := m.time + p.duration, pos := to);
    assert r.paths[..|m.paths|] == m.paths;
    r
  }

  /** The straight segment a move traces from the current position to `to`. */
  function LineTo(m: Machine, to: Point, rate: real, st: Statement, num: Numerics): (p: Path)
    requires num.Valid() && rate != 0.0
    ensures p.Line? && p.start == m.pos && p.end == to && p.feedRate == rate
    ensures p.rapid == (st.code == "G00") && p.spindleOn == m.spindleOn
    ensures WellFormed(p, num) && p.startTime == m.time && p.statement == Some(st.lineNumber)
  {
    var l := NewLine(m.pos, to, rate, num);
    Line(l.start, l.end, st.code == "G00", l.feedRate, l.length, l.duration, m.time, m.spindleOn, Some(st.lineNumber))
  }

  /** The arc a circular move traces from the current position to `to` around `center`. */
  function ArcTo(m: Machine, to: Point, center: Point, st: Statement, num: Numerics): (p: Path)
    requires num.Valid() && m.feedRate != 0.0
    ensures p.Arc? && p.start == m.pos && p.end == to && p.center == center && p.feedRate == m.feedRate
    ensures p.clockwise == (st.code == "G02") && p.spindleOn == m.spindleOn
    ensures WellFormed(p, num) && p.startTime == m.time && p.statement == Some(st.lineNumber)
    ensures ArcShape(m.pos, to, center, p.radius, p.angle1, p.angle2, m.feedRate, p.length, p.duration, num)
  {
    var a := NewArc(m.pos, to, center, m.feedRate, st.code == "G02", num);
    Arc(a.start, a.end, a.center, a.clockwise, a.radius, a.angle1, a.angle2,
        a.feedRate, a.length, a.duration, m.time, m.spindleOn, Some(st.lineNumber))
  }

  /** The target of a straight move: each axis given, or kept. */
  function Target(m: Machine, params: map<char, real>): (r: Point)
    ensures 'X' in params && 'Y' in params ==> r == Point(params['X'], params['Y'])
    ensures 'X' !in params && 'Y' !in params ==> r == m.pos
    ensures r.x == m.pos.x || ('X' in params && r.x == params['X'])
    ensures r.y == m.pos.y || ('Y' in params && r.y == params['Y'])
  {
    Point(if 'X' in params then params['X'] else m.pos.x, if 'Y' in params then params['Y'] else m.pos.y)
  }

  /** A straight move once its parameters are evaluated and the feed rate set. */
  function LinearMove(m: Machine, params: map<char, real>, st: Statement, num: Numerics): (r: (Machine, Outcome<Error>))
    requires num.Valid()
    ensures Extends(m, r.0, num)
    ensures r.1.Fail? ==> r.0 == m
    ensures r.0 == m || r.0 == m.(paths := r.0.paths, time := r.0.time, pos := r.0.pos)
    ensures !('X' in params || 'Y' in params) ==> r == (m, Pass)
    ensures r.1.Fail? <==> && ('X' in params || 'Y' in params)
                           && ('X' !in params || 'Y' !in params || (if m.spindleOn then m.feedRate else m.rapidSpeed) == 0.0)
    ensures r.1.Pass? && 'X' in params && 'Y' in params ==>
              r.0.pos == Point(params['X'], params['Y']) && |r.0.paths| == |m.paths| + 1
  {
    if !('X' in params || 'Y' in params) then (m, Pass)
    else
      var to := Target(m, params);
      var rate := if m.spindleOn then m.feedRate else m.rapidSpeed;
      if 'X' !in params then (m, Fail(MissingParameter('X')))
      else if 'Y' !in params then (m, Fail(MissingParameter('Y')))
      else if rate == 0.0 then (m, Fail(ZeroFeedRate))
      else (Append(m, LineTo(m, to, rate, st, num), to, num), Pass)
  }

  /**
   * G00 / G01: a straight move to (X, Y) at the feed rate, or at the rapid
   * speed when the spindle is off. A move naming neither axis only updates
   * the feed rate; one naming a single axis raises when the line's
   * coordinates are read back.
   */
  function Move(m: Machine, st: Statement, num: Numerics): (r: (Machine, Outcome<Error>))
    requires num.Valid()
    ensures Extends(m, r.0, num) && FailedAfterFeed(m, r)
    ensures r.0 == m.(feedRate := r.0.feedRate, paths := r.0.paths, time := r.0.time, pos := r.0.pos)
  {
    match EvalAll(st.params, m.variables)
    case Err(failed) => (m, Fail(BadParameters(failed)))
    case Ok(params) => LinearMove(FeedFrom(m, params), params, st, num)
  }

  /** A circular move once its parameters are evaluated and the feed rate set. */
  function CircularMove(m: Machine, params: map<char, real>, st: Statement, num: Numerics): (r: (Machine, Outcome<Error>))
    requires num.Valid()
    ensures Extends(m, r.0, num)
    ensures r.1.Fail? ==> r.0 == m
    ensures r.0 == m.(paths := r.0.paths, time := r.0.time, pos := r.0.pos)
    ensures r.1.Fail? <==> || 'X' !in params || 'Y' !in params
                           || (m.spindleOn && ('I' !in params || 'J' !in params || m.feedRate == 0.0))
    ensures r.1.Pass? ==> r.0.pos == Point(params['X'], params['Y'])
    ensures r.1.Pass? ==> (|r.0.paths| == |m.paths| + 1 <==> m.spindleOn)
  {
    if 'X' !in params then (m, Fail(MissingParameter('X')))
    else if 'Y' !in params then (m, Fail(MissingParameter('Y')))
    else
      var to := Point(params['X'], params['Y']);
      if !m.spindleOn then (m.(pos := to), Pass)
      else if 'I' !in params then (m, Fail(MissingParameter('I')))
      else if 'J' !in params then (m, Fail(MissingParameter('J')))
      else if m.feedRate == 0.0 then (m, Fail(ZeroFeedRate))
      else
        var center := Point(m.pos.x + params['I'], m.pos.y + params['J']);
        (Append(m, ArcTo(m, to, center, st, num), to, num), Pass)
  }

  /**
   * G02 / G03: an arc to (X, Y) around the current position offset by (I, J),
   * clockwise for G02. With the spindle off no arc is traced, I and J are not
   * needed, and the tool still moves to (X, Y).
   */
  function Circle(m: Machine, st: Statement, num: Numerics): (r: (Machine, Outcome<Error>))
    requires num.Valid()
    ensures Extends(m, r.0, num) && FailedAfterFeed(m, r)
    ensures r.0 == m.(feedRate := r.0.feedRate, paths := r.0.paths, time := r.0.time, pos := r.0.pos)
  {
    match EvalAll(st.params, m.variables)
    case Err(failed) => (m, Fail(BadParameters(failed)))
    case Ok(params) => CircularMove(FeedFrom(m, params), params, st, num)
  }

  /** `F…`: the rest of the code is an expression giving the feed rate, taken as is. */
  function SetFeed(m: Machine, st: Statement): (r: (Machine, Outcome<Error>))
    requires StartsWith(st.code, 'F')
    ensures r.1.Pass? <==> Eval(st.code[1..], m.variables).Ok?
    ensures r.1.Pass? ==> r.0 == m.(feedRate := Eval(st.code[1..], m.variables).value)
    ensures r.1.Fail? ==> r.0 == m
  {
    match Eval(st.code[1..], m.variables)
    case Err(e) => (m, Fail(EvalFailed(e)))
    case Ok(v) => (m.(feedRate := v), Pass)
  }

  /** M06: a tool change takes three seconds. */
  function ChangeTool(m: Machine, st: Statement): (r: Machine)
    ensures |r.paths| == |m.paths| + 1 && r.paths[..|m.paths|] == m.paths
    ensures r.paths[|m.paths|].ToolChange? && r.paths[|m.paths|].duration == 3.0
    ensures r.time == m.time + 3.0
    ensures r == m.(paths := r.paths, time := r.time)
  {
    var change := ToolChange(1.0, 0.0, 3.0, m.time, false, Some(st.lineNumber));
    var r := m.(paths := m.paths + [change], time := m.time + change.duration);
    assert r.paths[..|m.paths|] == m.paths;
    r
  }

  /** G04: a dwell for P seconds, or none when P is absent. */
  function DwellFor(m: Machine, st: Statement): (r: (Machine, Outcome<Error>))
    ensures r.1.Pass? <==> EvalAll(st.params, m.variables).Ok?
    ensures r.1.Fail? ==> r.0 == m
    ensures r.1.Pass? ==> r.0 == Dwelled(m, EvalAll(st.params, m.variables).value, st)
  {
    match EvalAll(st.params, m.variables)
    case Err(failed) => (m, Fail(BadParameters(failed)))
    case Ok(params) => (Dwelled(m, params, st), Pass)
  }

  /** The machine after a dwell whose parameters evaluated to `params`. */
  function Dwelled(m: Machine, params: map<char, real>, st: Statement): (r: Machine)
    ensures |r.paths| == |m.paths| + 1 && r.paths[..|m.paths|] == m.paths
    ensures r.paths[|m.paths|].Dwell?
    ensures r.paths[|m.paths|].duration == (if 'P' in params then params['P'] else 0.0)
    ensures r.time == m.time + r.paths[|m.paths|].duration
    ensures r == m.(paths := r.paths, time := r.time)
  {
    var dwell := Dwell(1.0, 0.0, if 'P' in params then params['P'] else 0.0, m.time, false, Some(st.lineNumber));
    var r := m.(paths := m.paths + [dwell], time := m.time + dwell.duration);
    assert r.paths[..|m.paths|] == m.paths;
    r
  }

  /** Any other code is reported and remembered, once. */
  function NoteUnknown(m: Machine, code: string): (r: Machine)
    ensures code in r.unknownCodes
    ensures r == m.(unknownCodes := r.unknownCodes)
    ensures code in m.unknownCodes ==> r.unknownCodes == m.unknownCodes
    ensures code !in m.unknownCodes ==> r.unknownCodes == m.unknownCodes + [code]
  {
    if code in m.unknownCodes then m else m.(unknownCodes := m.unknownCodes + [code])
  }

  /** The codes that only set a mode: end of program, spindle, units and the no-ops. */
  function Modal(m: Machine, code: string): (r: Machine)
    requires code in {"M02", "M03", "M05", "G96", "G21", "G90", "G17"}
    ensures r.finished == (m.finished || code == "M02")
    ensures r.units == (if code == "G21" then Millimetres else m.units)
    ensures r.rapidSpeed == (if code == "G21" then RAPID_SPEED_MM else m.rapidSpeed)
    ensures r.spindleOn == (if code == "M03" then true else if code == "M05" then false else m.spindleOn)
    ensures r == m.(finished := r.finished, units := r.units, rapidSpeed := r.rapidSpeed, spindleOn := r.spindleOn)
  {
    if code == "M02" then m.(finished := true)
    else if code == "M03" then m.(spindleOn := true)
    else if code == "M05" then m.(spindleOn := false)
    else if code == "G96" then m
    else if code == "G21" then m.(units := Millimetres, rapidSpeed := RAPID_SPEED_MM)
    else if code == "G90" then m
    else m
  }

  /**
   * `handle_statement` for every code but the four moves, in the source's
   * order (the move codes come between `=` and `M02` there; no code matches
   * two branches, so grouping them makes no difference).
   */
  function Control(m: Machine, st: Statement, num: Numerics): (r: (Machine, Outcome<Error>))
    ensures Extends(m, r.0, num)
    ensures FailedAfterFeed(m, r)
    ensures r.0.pos == m.pos
    ensures r.0.finished == (m.finished || st.code == "M02")
    ensures Settings(m, st, r.0)
  {
    var code := st.code;
    if code == "" || code == "%" then (m, Pass)
    else if code == "=" then Assign(m, st)
    else if code in {"M02", "M03", "M05", "G96", "G21", "G90", "G17"} then (Modal(m, code), Pass)
    else if StartsWith(code, 'F') then SetFeed(m, st)
    else if code == "M06" then (ChangeTool(m, st), Pass)
    else if StartsWith(code, 'T') then (m, Pass)
    else if code == "G04" then DwellFor(m, st)
    else (NoteUnknown(m, code), Pass)
  }

  /** `handle_statement`: dispatch on the statement's code. */
  function Handle(m: Machine, st: Statement, num: Numerics): (r: (Machine, Outcome<Error>))
    requires num.Valid()
    ensures Extends(m, r.0, num)
    ensures FailedAfterFeed(m, r)
    ensures r.0.pos != m.pos ==> st.code in {"G00", "G01", "G02", "G03"}
    ensures r.0.finished == (m.finished || st.code == "M02")
    ensures Settings(m, st, r.0)
  {
    if st.code == "G01" || st.code == "G00" then Move(m, st, num)
    else if st.code == "G02" || st.code == "G03" then Circle(m, st, num)
    else Control(m, st, num)
  }

  // ---- properties of handle_statement ----

  /** One more path leaves the clock equal to the run length and keeps the start times. */
  lemma ExtendsKeepsTimeline(m: Machine, m2: Machine, num: Numerics)
    requires Inv(m, num) && Extends(m, m2, num)
    ensures m2.time == SumDurations(m2.paths)
    ensures forall i :: 0 <= i < |m2.paths| ==> WellFormed(m2.paths[i], num)
    ensures forall i :: 0 <= i < |m2.paths| ==> m2.paths[i].startTime == SumDurations(m2.paths[..i])
  {
    if m2.paths != m.paths || m2.time != m.time {
      var p := ExtendsByOne(m, m2, num);
      AppendKeepsTimeline(m.paths, p, num);
    }
  }

  /** A statement that changed the record of paths appended exactly one traced path. */
  lemma ExtendsByOne(m: Machine, m2: Machine, num: Numerics) returns (p: Path)
    requires Extends(m, m2, num) && (m2.paths != m.paths || m2.time != m.time)
    ensures m2.paths == m.paths + [p] && Traced(m, m2, p, num)
  {
    p := m2.paths[|m.paths|];
    assert m2.paths[..|m.paths|] == m.paths;
  }

  /** A path that starts when the others end extends a contiguous, well-formed timeline. */
  lemma AppendKeepsTimeline(paths: seq<Path>, p: Path, num: Numerics)
    requires forall i :: 0 <= i < |paths| ==> WellFormed(paths[i], num)
    requires forall i :: 0 <= i < |paths| ==> paths[i].startTime == SumDurations(paths[..i])
    requires WellFormed(p, num) && p.startTime == SumDurations(paths)
    ensures SumDurations(paths + [p]) == SumDurations(paths) + p.duration
    ensures forall i :: 0 <= i < |paths + [p]| ==> WellFormed((paths + [p])[i], num)
    ensures forall i :: 0 <= i < |paths + [p]| ==> (paths + [p])[i].startTime == SumDurations((paths + [p])[..i])
  {
    SumDurationsSnoc(paths, p);
    SnocWellFormed(paths, p, num);
    SnocStartTimes(paths, p);
  }

  lemma SnocWellFormed(paths: seq<Path>, p: Path, num: Numerics)
    requires forall i :: 0 <= i < |paths| ==> WellFormed(paths[i], num)
    requires WellFormed(p, num)
    ensures forall i :: 0 <= i < |paths + [p]| ==> WellFormed((paths + [p])[i], num)
  {
    forall i | 0 <= i < |paths + [p]|
      ensures WellFormed((paths + [p])[i], num)
    {
      SnocAt(paths, p, i);
    }
  }

  lemma SnocStartTimes(paths: seq<Path>, p: Path)
    requires forall i :: 0 <= i < |paths| ==> paths[i].startTime == SumDurations(paths[..i])
    requires p.startTime == SumDurations(paths)
    ensures forall i :: 0 <= i < |paths + [p]| ==> (paths + [p])[i].startTime == SumDurations((paths + [p])[..i])
  {
    forall i | 0 <= i < |paths + [p]|
      ensures (paths + [p])[i].startTime == SumDurations((paths + [p])[..i])
    {
      SnocAt(paths, p, i);
    }
  }

  /** An element of `paths + [p]` and the prefix before it. */
  lemma SnocAt(paths: seq<Path>, p: Path, i: nat)
    requires i <= |paths|
    ensures i < |paths| ==> (paths + [p])[i] == paths[i] && (paths + [p])[..i] == paths[..i]
    ensures i == |paths| ==> (paths + [p])[i] == p && (paths + [p])[..i] == paths
  {
    if i < |paths| {
      assert (paths + [p])[..i] == paths[..i];
    } else {
      assert (paths + [p])[..i] == paths;
    }
  }

  /** Every statement keeps the simulator's invariant, whether it passes or raises. */
  lemma HandlePreservesInv(m: Machine, st: Statement, num: Numerics)
    requires num.Valid() && Inv(m, num)
    ensures Inv(Handle(m, st, num).0, num)
  {
    var m2 := Handle(m, st, num).0;
    ExtendsKeepsTimeline(m, m2, num);
    assert Settings(m, st, m2);
    var u := m2.unknownCodes;
    if u != m.unknownCodes {
      assert u == m.unknownCodes + [st.code] && st.code !in m.unknownCodes;
      forall i, j | 0 <= i < j < |u| ensures u[i] != u[j] {
        if j == |m.unknownCodes| {
          assert u[i] in m.unknownCodes;
        }
      }
    }
  }

  /**
   * G00 / G01 naming both axes: the feed rate becomes F/60 when F is given,
   * and a line is traced from the current position to (X, Y) at that rate,
   * or at the rapid speed with the spindle off; it is rapid exactly for G00,
   * and the clock advances by its duration. Nothing else changes.
   */
  lemma MoveTracesLine(m: Machine, st: Statement, num: Numerics, params: map<char, real>)
    requires num.Valid()
    requires st.code == "G00" || st.code == "G01"
    requires EvalAll(st.params, m.variables) == Ok(params)
    requires 'X' in params && 'Y' in params
    ensures var feed := if 'F' in params then params['F'] / 60.0 else m.feedRate;
            var rate := if m.spindleOn then feed else m.rapidSpeed;
            var r := Handle(m, st, num);
            var to := Point(params['X'], params['Y']);
            if rate == 0.0 then r == (m.(feedRate := feed), Fail(ZeroFeedRate))
            else
              && r.1 == Pass
              && r.0 == m.(feedRate := feed, pos := to, paths := r.0.paths, time := r.0.time)
              && |r.0.paths| == |m.paths| + 1 && r.0.paths[..|m.paths|] == m.paths
              && var p := r.0.paths[|m.paths|];
                 && p.Line? && p.start == m.pos && p.end == to && p.feedRate == rate
                 && p.rapid == (st.code == "G00") && p.spindleOn == m.spindleOn
                 && p.startTime == m.time && r.0.time == m.time + p.duration
                 && WellFormed(p, num) && p.statement == Some(st.lineNumber)
  {
    var m1 := FeedFrom(m, params);
    var r := Handle(m, st, num);
    assert r == LinearMove(m1, params, st, num);
    var rate := if m.spindleOn then m1.feedRate else m.rapidSpeed;
    if rate != 0.0 {
      var to := Point(params['X'], params['Y']);
      var p := LineTo(m1, to, rate, st, num);
      assert r.0 == Append(m1, p, to, num);
    }
  }

  /** G00 / G01 naming neither axis only sets the feed rate. */
  lemma MoveWithoutAxes(m: Machine, st: Statement, num: Numerics, params: map<char, real>)
    requires num.Valid()
    requires st.code == "G00" || st.code == "G01"
    requires EvalAll(st.params, m.variables) == Ok(params)
    requires 'X' !in params && 'Y' !in params
    ensures Handle(m, st, num) == (FeedFrom(m, params), Pass)
  {
  }

  /**
   * G00 / G01 naming one axis only: the line is built, but reading the
   * missing coordinate back raises, so the move is lost (the feed rate was
   * already set).
   */
  lemma MoveWithOneAxis(m: Machine, st: Statement, num: Numerics, params: map<char, real>)
    requires num.Valid()
    requires st.code == "G00" || st.code == "G01"
    requires EvalAll(st.params, m.variables) == Ok(params)
    requires ('X' in params) != ('Y' in params)
    ensures Handle(m, st, num) ==
            (FeedFrom(m, params), Fail(MissingParameter(if 'X' in params then 'Y' else 'X')))
  {
  }

  /** A move or an arc whose parameters do not evaluate raises before anything changes. */
  lemma MoveWithBadParameters(m: Machine, st: Statement, num: Numerics, failed: map<char, EvalError>)
    requires num.Valid()
    requires st.code in {"G00", "G01", "G02", "G03"}
    requires EvalAll(st.params, m.variables) == Err(failed)
    ensures Handle(m, st, num) == (m, Fail(BadParameters(failed)))
    ensures failed != map[] && (forall k :: k in failed ==> k in st.params)
  {
  }

  /** G02 / G03 with the spindle off: the tool moves to (X, Y) and no arc is traced. */
  lemma ArcWithSpindleOff(m: Machine, st: Statement, num: Numerics, params: map<char, real>)
    requires num.Valid()
    requires st.code == "G02" || st.code == "G03"
    requires EvalAll(st.params, m.variables) == Ok(params)
    requires 'X' in params && 'Y' in params && !m.spindleOn
    ensures Handle(m, st, num) == (FeedFrom(m, params).(pos := Point(params['X'], params['Y'])), Pass)
  {
  }

  /**
   * G02 / G03 with the spindle on: an arc from the current position to
   * (X, Y) around the current position offset by (I, J), clockwise exactly
   * for G02, at the feed rate; the clock advances by its duration.
   */
  lemma ArcTraced(m: Machine, st: Statement, num: Numerics, params: map<char, real>)
    requires num.Valid()
    requires st.code == "G02" || st.code == "G03"
    requires EvalAll(st.params, m.variables) == Ok(params)
    requires 'X' in params && 'Y' in params && 'I' in params && 'J' in params && m.spindleOn
    requires FeedFrom(m, params).feedRate != 0.0
    ensures var feed := FeedFrom(m, params).feedRate;
            var r := Handle(m, st, num);
            var to := Point(params['X'], params['Y']);
            && r.1 == Pass
            && r.0 == m.(feedRate := feed, pos := to, paths := r.0.paths, time := r.0.time)
            && |r.0.paths| == |m.paths| + 1 && r.0.paths[..|m.paths|] == m.paths
            && var p := r.0.paths[|m.paths|];
               && p.Arc? && p.start == m.pos && p.end == to && p.feedRate == feed
               && p.center == Point(m.pos.x + params['I'], m.pos.y + params['J'])
               && p.clockwise == (st.code == "G02") && p.spindleOn
               && p.startTime == m.time && r.0.time == m.time + p.duration
               && WellFormed(p, num) && p.statement == Some(st.lineNumber)
               && ArcShape(m.pos, to, p.center, p.radius, p.angle1, p.angle2, feed, p.length, p.duration, num)
  {
    var m1 := FeedFrom(m, params);
    var r := Handle(m, st, num);
    assert r == CircularMove(m1, params, st, num);
    var to := Point(params['X'], params['Y']);
    var center := Point(m.pos.x + params['I'], m.pos.y + params['J']);
    CircularMoveTraces(m1, params, st, num);
  }

  /** The arc branch of a circular move, once the parameters are known to be there. */
  lemma CircularMoveTraces(m: Machine, params: map<char, real>, st: Statement, num: Numerics)
    requires num.Valid()
    requires 'X' in params && 'Y' in params && 'I' in params && 'J' in params && m.spindleOn && m.feedRate != 0.0
    ensures var to := Point(params['X'], params['Y']);
            CircularMove(m, params, st, num)
            == (Append(m, ArcTo(m, to, Point(m.pos.x + params['I'], m.pos.y + params['J']), st, num), to, num), Pass)
  {
  }

  /** `F…` sets the feed rate to the expression's value as is, not divided by 60. */
  lemma FeedCodeSetsRate(m: Machine, st: Statement, num: Numerics, v: real)
    requires num.Valid()
    requires StartsWith(st.code, 'F') && Eval(st.code[1..], m.variables) == Ok(v)
    ensures Handle(m, st, num) == (m.(feedRate := v), Pass)
  {
    assert st.code[0] == 'F';
    assert Handle(m, st, num) == Control(m, st, num);
    assert Control(m, st, num) == SetFeed(m, st);
  }

  /** An assignment binds the variable to the expression's value. */
  lemma AssignmentBinds(m: Machine, st: Statement, num: Numerics, name: string, exp: string, v: real)
    requires num.Valid()
    requires st.code == "=" && st.args == Assignment(name, exp) && Eval(exp, m.variables) == Ok(v)
    ensures Handle(m, st, num) == (m.(variables := m.variables[name := v]), Pass)
  {
  }

  /** M06 appends a three-second tool change. */
  lemma ToolChangeTakesThreeSeconds(m: Machine, st: Statement, num: Numerics)
    requires num.Valid() && st.code == "M06"
    ensures var r := Handle(m, st, num);
            && r.1 == Pass && r.0.time == m.time + 3.0
            && r.0.paths == m.paths + [ToolChange(1.0, 0.0, 3.0, m.time, false, Some(st.lineNumber))]
  {
  }

  /** G04 appends a dwell of P seconds, or of none without P. */
  lemma DwellTakesP(m: Machine, st: Statement, num: Numerics, params: map<char, real>)
    requires num.Valid() && st.code == "G04"
    requires EvalAll(st.params, m.variables) == Ok(params)
    ensures var d := if 'P' in params then params['P'] else 0.0;
            var r := Handle(m, st, num);
            && r.1 == Pass && r.0.time == m.time + d
            && r.0.paths == m.paths + [Dwell(1.0, 0.0, d, m.time, false, Some(st.lineNumber))]
  {
    assert Handle(m, st, num) == DwellFor(m, st);
    assert DwellFor(m, st) == (Dwelled(m, params, st), Pass);
  }

  /** The codes that do nothing at all: an empty line, `%`, a tool selection and the mode codes G96, G90, G17. */
  lemma NoOpCodes(m: Machine, st: Statement, num: Numerics)
    requires num.Valid()
    requires st.code in {"", "%", "G96", "G90", "G17"} || StartsWith(st.code, 'T')
    ensures Handle(m, st, num) == (m, Pass)
  {
  }

  /** G02 / G03 without X or Y raises on reading the end point, after the feed rate is set. */
  lemma ArcMissingAxis(m: Machine, st: Statement, num: Numerics, params: map<char, real>)
    requires num.Valid()
    requires st.code == "G02" || st.code == "G03"
    requires EvalAll(st.params, m.variables) == Ok(params)
    requires 'X' !in params || 'Y' !in params
    ensures Handle(m, st, num) == (FeedFrom(m, params), Fail(MissingParameter(if 'X' !in params then 'X' else 'Y')))
  {
  }

  /** G02 / G03 with the spindle on but without I or J raises on reading the centre. */
  lemma ArcMissingCentre(m: Machine, st: Statement, num: Numerics, params: map<char, real>)
    requires num.Valid()
    requires st.code == "G02" || st.code == "G03"
    requires EvalAll(st.params, m.variables) == Ok(params)
    requires 'X' in params && 'Y' in params && m.spindleOn
    requires 'I' !in params || 'J' !in params
    ensures Handle(m, st, num) == (FeedFrom(m, params), Fail(MissingParameter(if 'I' !in params then 'I' else 'J')))
  {
  }

  /** G02 / G03 with the spindle on at a zero feed rate traces nothing and fails. */
  lemma ArcZeroRate(m: Machine, st: Statement, num: Numerics, params: map<char, real>)
    requires num.Valid()
    requires st.code == "G02" || st.code == "G03"
    requires EvalAll(st.params, m.variables) == Ok(params)
    requires 'X' in params && 'Y' in params && 'I' in params && 'J' in params && m.spindleOn
    requires FeedFrom(m, params).feedRate == 0.0
    ensures Handle(m, st, num) == (FeedFrom(m, params), Fail(ZeroFeedRate))
  {
  }

  /** The codes `handle_statement` knows. */
  predicate Known(code: string) {
    || code in {"", "%", "=", "G00", "G01", "G02", "G03", "M02", "M03", "M05", "G96", "G21", "G90", "G17", "M06", "G04"}
    || StartsWith(code, 'F') || StartsWith(code, 'T')
  }

  /** A code `handle_statement` knows is never recorded as unknown. */
  lemma KnownCodeNotRecorded(m: Machine, st: Statement, num: Numerics)
    requires num.Valid() && Known(st.code)
    ensures Handle(m, st, num).0.unknownCodes == m.unknownCodes
  {
  }

  /** Any other code is appended to the unknown codes unless already there, and nothing else changes. */
  lemma UnknownCodeRecorded(m: Machine, st: Statement, num: Numerics)
    requires num.Valid() && !Known(st.code)
    ensures var r := Handle(m, st, num);
            && r.1 == Pass
            && r.0 == m.(unknownCodes := r.0.unknownCodes)
            && r.0.unknownCodes == if st.code in m.unknownCodes then m.unknownCodes else m.unknownCodes + [st.code]
  {
  }
}
