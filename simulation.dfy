/**
 * The simulator object (`State`): it holds the program, the index of the next
 * statement, the machine's fields and the bounding box of the positions
 * visited, and updates them in place one statement at a time.
 *
 * Each method is proved to leave the fields as the corresponding function of
 * `Handling` says, so the properties proved there carry over.
 */
module Simulation {
  import opened Wrappers
  import opened Strings
  import opened Geometry
  import opened Expressions
  import opened Parser
  import opened Handling

  function Min(a: real, b: real): real { if a <= b then a else b }
  function Max(a: real, b: real): real { if a >= b then a else b }

  /** The lower corner after visiting `p`: `p` itself the first time, else the per-axis minimum. */
  function Lower(corner: Option<Point>, p: Point): (r: Point)
    ensures r.x <= p.x && r.y <= p.y
    ensures corner.Some? ==> r.x <= corner.value.x && r.y <= corner.value.y
    ensures r.x == p.x || (corner.Some? && r.x == corner.value.x)
    ensures r.y == p.y || (corner.Some? && r.y == corner.value.y)
  {
    match corner
    case None => p
    case Some(c) => Point(Min(p.x, c.x), Min(p.y, c.y))
  }

  /** The upper corner after visiting `p`. */
  function Upper(corner: Option<Point>, p: Point): (r: Point)
    ensures r.x >= p.x && r.y >= p.y
    ensures corner.Some? ==> r.x >= corner.value.x && r.y >= corner.value.y
    ensures r.x == p.x || (corner.Some? && r.x == corner.value.x)
    ensures r.y == p.y || (corner.Some? && r.y == corner.value.y)
  {
    match corner
    case None => p
    case Some(c) => Point(Max(p.x, c.x), Max(p.y, c.y))
  }

  predicate InBox(p: Point, lo: Point, hi: Point) {
    lo.x <= p.x <= hi.x && lo.y <= p.y <= hi.y
  }

  /**
   * The bounding box covers what was traced: before the first step there is
   * no box, nothing traced and the tool is at the origin; afterwards the
   * current position and every segment's end lie in the box, and every
   * segment's start does too, except that the very first one may start at
   * the origin, which is never added to the box.
   */
  ghost predicate Covers(minPos: Option<Point>, maxPos: Option<Point>, pos: Point, paths: seq<Path>) {
    && (minPos.None? <==> maxPos.None?)
    && (minPos.None? ==> paths == [] && pos == Origin)
    && (minPos.Some? ==>
          && InBox(pos, minPos.value, maxPos.value)
          && (forall i :: 0 <= i < |paths| && (paths[i].Line? || paths[i].Arc?) ==>
                InBox(paths[i].end, minPos.value, maxPos.value))
          && (forall i :: 0 <= i < |paths| && (paths[i].Line? || paths[i].Arc?) ==>
                InBox(paths[i].start, minPos.value, maxPos.value) || paths[i].start == Origin))
  }

  /**
   * Taking one more position into the box keeps it covering what was traced,
   * whether or not the statement appended a segment.
   */
  lemma CoversAfterStatement(minPos: Option<Point>, maxPos: Option<Point>, m: Machine, m2: Machine, num: Numerics)
    requires Covers(minPos, maxPos, m.pos, m.paths) && Extends(m, m2, num)
    ensures Covers(Some(Lower(minPos, m2.pos)), Some(Upper(maxPos, m2.pos)), m2.pos, m2.paths)
  {
    var lo, hi := Lower(minPos, m2.pos), Upper(maxPos, m2.pos);
    forall q | minPos.Some? && InBox(q, minPos.value, maxPos.value)
      ensures InBox(q, lo, hi)
    {
    }
    var n := |m.paths|;
    forall i | 0 <= i < |m2.paths| && (m2.paths[i].Line? || m2.paths[i].Arc?)
      ensures InBox(m2.paths[i].end, lo, hi)
      ensures InBox(m2.paths[i].start, lo, hi) || m2.paths[i].start == Origin
    {
      if i < n {
        assert m2.paths[i] == m.paths[i];
      } else {
        assert m2.paths[i].start == m.pos && m2.paths[i].end == m2.pos;
      }
    }
  }

  lemma InvIgnoresFinished(m: Machine, finished: bool, num: Numerics)
    requires Inv(m, num)
    ensures Inv(m.(finished := finished), num)
  {
  }

  class State {
    const program: Program
    const num: Numerics
    var lineno: nat
    var pos: Point
    var feedRate: real
    var spindleOn: bool
    var units: Units
    var rapidSpeed: real
    var variables: map<string, real>
    var time: real
    var paths: seq<Path>
    var unknownCodes: seq<string>
    var finished: bool
    var minPos: Option<Point>
    var maxPos: Option<Point>

    /** The machine fields as a value. */
    function Snapshot(): Machine
      reads this
    {
      Machine(pos, feedRate, spindleOn, units, rapidSpeed, variables, time, paths, unknownCodes, finished)
    }

    ghost predicate Valid()
      reads this
    {
      && num.Valid()
      && Inv(Snapshot(), num)
      && lineno <= |program.statements|
      && Covers(minPos, maxPos, pos, paths)
    }

    constructor(program: Program, num: Numerics)
      requires num.Valid()
      ensures this.program == program && this.num == num
      ensures Snapshot() == Initial() && lineno == 0 && minPos.None? && maxPos.None?
      ensures Valid()
    {
      this.program := program;
      this.num := num;
      lineno := 0;
      pos := Origin;
      feedRate := 1.0;
      spindleOn := true;
      units := Inches;
      rapidSpeed := RAPID_SPEED_IN;
      variables := map[];
      time := 0.0;
      paths := [];
      unknownCodes := [];
      finished := false;
      minPos := None;
      maxPos := None;
      InitialInv(num);
    }

    /** `get_run_length`: the durations of the paths, added up in order; the clock, when valid. */
    method RunLength() returns (total: real)
      ensures total == SumDurations(paths)
      ensures Valid() ==> total == time
    {
      total := 0.0;
      for i := 0 to |paths|
        invariant total == SumDurations(paths[..i])
      {
        assert paths[..i + 1] == paths[..i] + [paths[i]];
        SumDurationsSnoc(paths[..i], paths[i]);
        total := total + paths[i].duration;
      }
      assert paths[..|paths|] == paths;
    }

    /** Record a traced segment ending at `to` and advance the clock by its duration. */
    method Record(p: Path, to: Point)
      requires WellFormed(p, num) && p.startTime == time && p.statement.Some?
      requires (p.Line? || p.Arc?) ==> p.start == pos && p.end == to
      modifies this
      ensures Snapshot() == Append(old(Snapshot()), p, to, num)
      ensures lineno == old(lineno) && minPos == old(minPos) && maxPos == old(maxPos)
    {
      paths := paths + [p];
      time := time + p.duration;
      pos := to;
    }

    /** The rest of G00 / G01 once the parameters are evaluated and the feed rate set. */
    method StraightTo(st: Statement, params: map<char, real>) returns (o: Outcome<Error>)
      requires num.Valid()
      modifies this
      ensures (Snapshot(), o) == Handling.LinearMove(old(Snapshot()), params, st, num)
      ensures lineno == old(lineno) && minPos == old(minPos) && maxPos == old(maxPos)
    {
      if 'X' in params || 'Y' in params {
        if 'X' !in params {
          return Fail(MissingParameter('X'));
        }
        if 'Y' !in params {
          return Fail(MissingParameter('Y'));
        }
        var newpos := Point(params['X'], params['Y']);
        var rate := if spindleOn then feedRate else rapidSpeed;
        if rate == 0.0 {
          return Fail(ZeroFeedRate);
        }
        var line := LineTo(Snapshot(), newpos, rate, st, num);
        Record(line, newpos);
      }
      o := Pass;
    }

    /** G00 / G01: evaluate the parameters, take the feed rate from F, then move. */
    method Straight(st: Statement) returns (o: Outcome<Error>)
      requires num.Valid()
      modifies this
      ensures (Snapshot(), o) == Move(old(Snapshot()), st, num)
      ensures lineno == old(lineno) && minPos == old(minPos) && maxPos == old(maxPos)
    {
      ghost var m := Snapshot();
      var evaluated := EvalParams(st.params, variables);
      if evaluated.Err? {
        return Fail(BadParameters(evaluated.error));
      }
      var params := evaluated.value;
      if 'F' in params {
        feedRate := params['F'] / 60.0;
      }
      assert Snapshot() == FeedFrom(m, params);
      o := StraightTo(st, params);
    }

    /** The rest of G02 / G03 once the parameters are evaluated and the feed rate set. */
    method CircleTo(st: Statement, params: map<char, real>) returns (o: Outcome<Error>)
      requires num.Valid()
      modifies this
      ensures (Snapshot(), o) == Handling.CircularMove(old(Snapshot()), params, st, num)
      ensures lineno == old(lineno) && minPos == old(minPos) && maxPos == old(maxPos)
    {
      if 'X' !in params {
        return Fail(MissingParameter('X'));
      }
      if 'Y' !in params {
        return Fail(MissingParameter('Y'));
      }
      var end := Point(params['X'], params['Y']);
      if spindleOn {
        o := ArcAround(st, params, end);
      } else {
        pos := end;
        o := Pass;
      }
    }

    /** The arc of G02 / G03 with the spindle on, centred at the current position offset by (I, J). */
    method ArcAround(st: Statement, params: map<char, real>, end: Point) returns (o: Outcome<Error>)
      requires num.Valid() && spindleOn
      requires 'X' in params && 'Y' in params && end == Point(params['X'], params['Y'])
      modifies this
      ensures (Snapshot(), o) == Handling.CircularMove(old(Snapshot()), params, st, num)
      ensures lineno == old(lineno) && minPos == old(minPos) && maxPos == old(maxPos)
    {
      if 'I' !in params {
        return Fail(MissingParameter('I'));
      }
      if 'J' !in params {
        return Fail(MissingParameter('J'));
      }
      if feedRate == 0.0 {
        return Fail(ZeroFeedRate);
      }
      var center := Point(pos.x + params['I'], pos.y + params['J']);
      var arc := ArcTo(Snapshot(), end, center, st, num);
      Record(arc, end);
      o := Pass;
    }

    /** G02 / G03: evaluate the parameters, take the feed rate from F, then move. */
    method Circular(st: Statement) returns (o: Outcome<Error>)
      requires num.Valid()
      modifies this
      ensures (Snapshot(), o) == Circle(old(Snapshot()), st, num)
      ensures lineno == old(lineno) && minPos == old(minPos) && maxPos == old(maxPos)
    {
      ghost var m := Snapshot();
      var evaluated := EvalParams(st.params, variables);
      if evaluated.Err? {
        return Fail(BadParameters(evaluated.error));
      }
      var params := evaluated.value;
      if 'F' in params {
        feedRate := params['F'] / 60.0;
      }
      assert Snapshot() == FeedFrom(m, params);
      o := CircleTo(st, params);
    }

    /** An assignment `name = exp`. */
    method Bind(st: Statement) returns (o: Outcome<Error>)
      modifies this
      ensures (Snapshot(), o) == Assign(old(Snapshot()), st)
      ensures lineno == old(lineno) && minPos == old(minPos) && maxPos == old(maxPos)
    {
      match AssignTarget(st.args)
      case None =>
        o := Fail(BadAssignment);
      case Some((name, exp)) =>
        match Eval(exp, variables)
        case Err(e) =>
          o := Fail(EvalFailed(e));
        case Ok(v) =>
          variables := variables[name := v];
          o := Pass;
    }

    /** The codes that only set a mode. */
    method SetMode(code: string)
      requires code in {"M02", "M03", "M05", "G96", "G21", "G90", "G17"}
      modifies this
      ensures Snapshot() == Modal(old(Snapshot()), code)
      ensures lineno == old(lineno) && minPos == old(minPos) && maxPos == old(maxPos)
    {
      if code == "M02" {
        finished := true;
      } else if code == "M03" {
        spindleOn := true;
      } else if code == "M05" {
        spindleOn := false;
      } else if code == "G21" {
        units := Millimetres;
        rapidSpeed := RAPID_SPEED_MM;
      }
    }

    /** `F…`: the feed rate, as is. */
    method Feed(st: Statement) returns (o: Outcome<Error>)
      requires StartsWith(st.code, 'F')
      modifies this
      ensures (Snapshot(), o) == SetFeed(old(Snapshot()), st)
      ensures lineno == old(lineno) && minPos == old(minPos) && maxPos == old(maxPos)
    {
      match Eval(st.code[1..], variables)
      case Err(e) =>
        o := Fail(EvalFailed(e));
      case Ok(rate) =>
        feedRate := rate;
        o := Pass;
    }

    /** M06: a three-second tool change. */
    method Tool(st: Statement)
      modifies this
      ensures Snapshot() == ChangeTool(old(Snapshot()), st)
      ensures lineno == old(lineno) && minPos == old(minPos) && maxPos == old(maxPos)
    {
      var change := ToolChange(1.0, 0.0, 3.0, time, false, Some(st.lineNumber));
      paths := paths + [change];
      time := time + change.duration;
    }

    /** G04: a dwell of P seconds. */
    method Pause(st: Statement) returns (o: Outcome<Error>)
      modifies this
      ensures (Snapshot(), o) == DwellFor(old(Snapshot()), st)
      ensures lineno == old(lineno) && minPos == old(minPos) && maxPos == old(maxPos)
    {
      var evaluated := EvalParams(st.params, variables);
      if evaluated.Err? {
        return Fail(BadParameters(evaluated.error));
      }
      var params := evaluated.value;
      ghost var m := Dwelled(Snapshot(), params, st);
      var dwell := Dwell(1.0, 0.0, if 'P' in params then params['P'] else 0.0, time, false, Some(st.lineNumber));
      paths := paths + [dwell];
      time := time + dwell.duration;
      assert Snapshot() == m;
      o := Pass;
    }

    /** Any other code: remembered unless already known to be unknown. */
    method Unknown(code: string)
      modifies this
      ensures Snapshot() == NoteUnknown(old(Snapshot()), code)
      ensures lineno == old(lineno) && minPos == old(minPos) && maxPos == old(maxPos)
    {
      if code !in unknownCodes {
        unknownCodes := unknownCodes + [code];
      }
    }

    /** Every code but the moves, in the order `handle_statement` tests them. */
    method Other(st: Statement) returns (o: Outcome<Error>)
      modifies this
      ensures (Snapshot(), o) == Control(old(Snapshot()), st, num)
      ensures lineno == old(lineno) && minPos == old(minPos) && maxPos == old(maxPos)
    {
      var code := st.code;
      o := Pass;
      if code == "" || code == "%" {
      } else if code == "=" {
        o := Bind(st);
      } else if code in {"M02", "M03", "M05", "G96", "G21", "G90", "G17"} {
        SetMode(code);
      } else if StartsWith(code, 'F') {
        o := Feed(st);
      } else if code == "M06" {
        Tool(st);
      } else if StartsWith(code, 'T') {
      } else if code == "G04" {
        o := Pause(st);
      } else {
        Unknown(code);
      }
    }

    /**
     * `step`: execute the statement at `lineno`, then move on to the next
     * one, finishing after the last, and widen the bounding box to take in
     * the new position. A statement that raises leaves `lineno` and the box
     * as they were; there is no statement past the last one.
     */
    method Step() returns (o: Outcome<Error>)
      requires Valid()
      modifies this
      ensures Valid()
      ensures old(lineno) == |program.statements| ==>
                && o == Fail(NoStatement) && Snapshot() == old(Snapshot())
                && lineno == old(lineno) && minPos == old(minPos) && maxPos == old(maxPos)
      ensures old(lineno) < |program.statements| ==>
                var r := Handle(old(Snapshot()), program.statements[old(lineno)], num);
                && o == r.1
                && (o.Fail? ==> && Snapshot() == r.0
                                && lineno == old(lineno) && minPos == old(minPos) && maxPos == old(maxPos))
                && (o.Pass? ==> && Snapshot() == r.0.(finished := finished)
                                && finished == (r.0.finished || lineno == |program.statements|)
                                && lineno == old(lineno) + 1
                                && minPos == Some(Lower(old(minPos), pos))
                                && maxPos == Some(Upper(old(maxPos), pos)))
      ensures o.Pass? ==> finished == (old(finished) || program.statements[old(lineno)].code == "M02"
                                       || lineno == |program.statements|)
      ensures o.Pass? && old(minPos).Some? ==>
                && minPos.value.x <= old(minPos).value.x && minPos.value.y <= old(minPos).value.y
                && maxPos.value.x >= old(maxPos).value.x && maxPos.value.y >= old(maxPos).value.y
    {
      if lineno >= |program.statements| {
        return Fail(NoStatement);
      }
      ghost var m := Snapshot();
      var st := program.statements[lineno];
      o := HandleStatement(st);
      HandlePreservesInv(m, st, num);
      if o.Pass? {
        Advance(m);
      }
    }

    /** The second half of `step`: the next statement, the end of the program and the box. */
    method Advance(ghost m: Machine)
      requires num.Valid() && Inv(Snapshot(), num) && lineno < |program.statements|
      requires Covers(minPos, maxPos, m.pos, m.paths) && Extends(m, Snapshot(), num)
      modifies this
      ensures Valid()
      ensures Snapshot() == old(Snapshot()).(finished := finished)
      ensures finished == (old(finished) || lineno == |program.statements|)
      ensures lineno == old(lineno) + 1
      ensures minPos == Some(Lower(old(minPos), pos)) && maxPos == Some(Upper(old(maxPos), pos))
    {
      ghost var m2 := Snapshot();
      lineno := lineno + 1;
      if lineno >= |program.statements| {
        finished := true;
      }
      Widen(m);
      assert Snapshot() == m2.(finished := finished);
      InvIgnoresFinished(m2, finished, num);
    }

    /** Take the current position into the bounding box. */
    method Widen(ghost m: Machine)
      requires Covers(minPos, maxPos, m.pos, m.paths) && Extends(m, Snapshot(), num)
      modifies this
      ensures Covers(minPos, maxPos, pos, paths)
      ensures minPos == Some(Lower(old(minPos), pos)) && maxPos == Some(Upper(old(maxPos), pos))
      ensures Snapshot() == old(Snapshot()) && lineno == old(lineno)
    {
      CoversAfterStatement(minPos, maxPos, m, Snapshot(), num);
      minPos := Some(Lower(minPos, pos));
      maxPos := Some(Upper(maxPos, pos));
    }

    /** `handle_statement`. */
    method HandleStatement(st: Statement) returns (o: Outcome<Error>)
      requires num.Valid()
      modifies this
      ensures (Snapshot(), o) == Handle(old(Snapshot()), st, num)
      ensures lineno == old(lineno) && minPos == old(minPos) && maxPos == old(maxPos)
    {
      if st.code == "G01" || st.code == "G00" {
        o := Straight(st);
      } else if st.code == "G02" || st.code == "G03" {
        o := Circular(st);
      } else {
        o := Other(st);
      }
    }
  }
}
