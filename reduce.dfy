/**
 * `reduce_paths`: a single pass over the traced paths that tries to merge
 * runs of straight lines into one line within a distance tolerance.
 *
 * The pass keeps a buffer of pending lines (`running`) and an output list.
 * As written, the buffer never holds more than one line: a line that falls
 * within tolerance of the pending one is dropped rather than appended, and a
 * pending line is emitted only when a line out of tolerance or a path of
 * another kind arrives, never at the end of the input.
 */
module Reduce {
  import opened Wrappers
  import opened Geometry

  /** The pass's state: what has been emitted, and the pending lines. */
  datatype Acc = Acc(out: seq<Path>, running: seq<Path>)

  /** The lines the pass may buffer: lines whose feed rate a new line can be built with. */
  predicate Mergeable(p: Path) {
    p.Line? && p.feedRate != 0.0
  }

  /** Every line in `paths` is mergeable. */
  predicate LinesMergeable(paths: seq<Path>) {
    forall i :: 0 <= i < |paths| && paths[i].Line? ==> Mergeable(paths[i])
  }

  /** A pending run is a non-empty sequence of mergeable lines, or nothing. */
  predicate RunOk(running: seq<Path>) {
    forall i :: 0 <= i < |running| ==> Mergeable(running[i])
  }

  /**
   * The line that replaces a pending run: from the start of its first line
   * to the end of its last, at the first line's feed rate.
   */
  function Flush(running: seq<Path>, num: Numerics): (p: Path)
    requires num.Valid() && running != [] && RunOk(running)
    ensures p.Line? && p.start == running[0].start && p.end == running[|running| - 1].end
    ensures p.feedRate == running[0].feedRate && WellFormed(p, num)
  {
    NewLine(running[0].start, running[|running| - 1].end, running[0].feedRate, num)
  }

  /** Some pending line ends farther than the tolerance from the chord from `start` to `end`. */
  predicate AnyExceeds(running: seq<Path>, start: Point, end: Point, tolerance: real, num: Numerics)
    requires RunOk(running)
  {
    exists i :: 0 <= i < |running| && Exceeds(running[i].end, start, end, tolerance, num)
  }

  /** One iteration of the pass, on `path`. */
  function Visit(acc: Acc, path: Path, tolerance: real, num: Numerics): (r: Acc)
    requires num.Valid() && RunOk(acc.running) && (path.Line? ==> Mergeable(path))
    ensures RunOk(r.running)
  {
    if path.Line? then
      if acc.running != [] then
        if AnyExceeds(acc.running, acc.running[0].start, path.end, tolerance, num) then
          Acc(acc.out + [Flush(acc.running, num)], [path])
        else acc
      else Acc(acc.out, acc.running + [path])
    else if acc.running != [] then
      Acc(acc.out + [Flush(acc.running, num)] + [path], [])
    else Acc(acc.out + [path], [])
  }

  /** The pass over `paths`, one path at a time. */
  function Fold(paths: seq<Path>, tolerance: real, num: Numerics): (r: Acc)
    requires num.Valid() && LinesMergeable(paths)
    ensures RunOk(r.running)
  {
    if paths == [] then Acc([], [])
    else Visit(Fold(paths[..|paths| - 1], tolerance, num), paths[|paths| - 1], tolerance, num)
  }

  /** `reduce_paths(paths, tolerance)`. */
  method ReducePaths(paths: seq<Path>, tolerance: real, num: Numerics) returns (lst: seq<Path>)
    requires num.Valid() && LinesMergeable(paths)
    ensures lst == Fold(paths, tolerance, num).out
  {
    lst := [];
    var running: seq<Path> := [];
    for k := 0 to |paths|
      invariant Acc(lst, running) == Fold(paths[..k], tolerance, num)
    {
      assert paths[..k + 1][..k] == paths[..k];
      var path := paths[k];
      if path.Line? {
        if running != [] {
          var start := running[0].start;
          var end := path.end;
          var run := running;
          var i := 0;
          while i < |run|
            invariant 0 <= i <= |run| && running == run
            invariant forall j :: 0 <= j < i ==> !Exceeds(run[j].end, start, end, tolerance, num)
          {
            if Exceeds(run[i].end, start, end, tolerance, num) {
              lst := lst + [Flush(run, num)];
              running := [path];
              break;
            }
            i := i + 1;
          }
        } else {
          running := running + [path];
        }
      } else {
        if running != [] {
          lst := lst + [Flush(running, num)];
          running := [];
        }
        lst := lst + [path];
      }
    }
    assert paths[..|paths|] == paths;
  }

  // ---- properties ----

  /** The pending run never holds more than one line. */
  lemma {:induction false} RunningAtMostOne(paths: seq<Path>, tolerance: real, num: Numerics)
    requires num.Valid() && LinesMergeable(paths)
    ensures |Fold(paths, tolerance, num).running| <= 1
  {
    if paths != [] {
      RunningAtMostOne(paths[..|paths| - 1], tolerance, num);
    }
  }

  /** Each path visited adds at most one to the output and the pending run together. */
  lemma {:induction false} NoLonger(paths: seq<Path>, tolerance: real, num: Numerics)
    requires num.Valid() && LinesMergeable(paths)
    ensures |Fold(paths, tolerance, num).out| + |Fold(paths, tolerance, num).running| <= |paths|
  {
    if paths != [] {
      NoLonger(paths[..|paths| - 1], tolerance, num);
      RunningAtMostOne(paths[..|paths| - 1], tolerance, num);
    }
  }

  /** The output is never longer than the input. */
  lemma OutputNoLonger(paths: seq<Path>, tolerance: real, num: Numerics)
    requires num.Valid() && LinesMergeable(paths)
    ensures |Fold(paths, tolerance, num).out| <= |paths|
  {
    NoLonger(paths, tolerance, num);
  }

  /** The paths in `s` that are not lines, in order. */
  function NonLines(s: seq<Path>): seq<Path> {
    if s == [] then []
    else NonLines(s[..|s| - 1]) + (if s[|s| - 1].Line? then [] else [s[|s| - 1]])
  }

  lemma {:induction false} NonLinesConcat(a: seq<Path>, b: seq<Path>)
    ensures NonLines(a + b) == NonLines(a) + NonLines(b)
  {
    if b != [] {
      var front := b[..|b| - 1];
      var last := b[|b| - 1];
      var tail := if last.Line? then [] else [last];
      assert (a + b)[..|a + b| - 1] == a + front && (a + b)[|a + b| - 1] == last;
      NonLinesConcat(a, front);
    } else {
      assert a + b == a;
    }
  }

  lemma NonLinesSingle(p: Path)
    ensures NonLines([p]) == if p.Line? then [] else [p]
  {
    assert [p][..0] == [];
  }

  /** One visit emits the non-line it visits, if any, and no other non-line. */
  lemma VisitKeepsNonLines(acc: Acc, path: Path, tolerance: real, num: Numerics)
    requires num.Valid() && RunOk(acc.running) && (path.Line? ==> Mergeable(path))
    ensures NonLines(Visit(acc, path, tolerance, num).out) == NonLines(acc.out) + NonLines([path])
  {
    NonLinesSingle(path);
    var out := Visit(acc, path, tolerance, num).out;
    if acc.running != [] && (!path.Line? || AnyExceeds(acc.running, acc.running[0].start, path.end, tolerance, num)) {
      var f := Flush(acc.running, num);
      NonLinesSingle(f);
      NonLinesConcat(acc.out, [f]);
      if path.Line? {
        assert out == acc.out + [f];
      } else {
        assert out == (acc.out + [f]) + [path];
        NonLinesConcat(acc.out + [f], [path]);
      }
    } else if path.Line? {
      assert out == acc.out;
    } else {
      assert out == acc.out + [path];
      NonLinesConcat(acc.out, [path]);
    }
  }

  /** Every path that is not a line comes out, in its original order, and nothing else but lines. */
  lemma {:induction false} NonLinesKept(paths: seq<Path>, tolerance: real, num: Numerics)
    requires num.Valid() && LinesMergeable(paths)
    ensures NonLines(Fold(paths, tolerance, num).out) == NonLines(paths)
  {
    if paths != [] {
      var front := paths[..|paths| - 1];
      var last := paths[|paths| - 1];
      assert paths == front + [last];
      assert LinesMergeable(front) by {
        forall i | 0 <= i < |front| && front[i].Line? ensures Mergeable(front[i]) {
          assert front[i] == paths[i];
        }
      }
      assert Fold(paths, tolerance, num) == Visit(Fold(front, tolerance, num), last, tolerance, num);
      NonLinesKept(front, tolerance, num);
      VisitKeepsNonLines(Fold(front, tolerance, num), last, tolerance, num);
      NonLinesConcat(front, [last]);
    }
  }

  /** `Line(l.start, l.end, l.feedRate)`: a line rebuilt from another, header fields reset. */
  function Copy(l: Path, num: Numerics): (p: Path)
    requires num.Valid() && Mergeable(l)
    ensures p.Line? && p.start == l.start && p.end == l.end && p.feedRate == l.feedRate
  {
    NewLine(l.start, l.end, l.feedRate, num)
  }

  /** Every line of `out` is a copy of a line of `paths`, and every pending line is a line of `paths`. */
  ghost predicate FromInput(acc: Acc, paths: seq<Path>, num: Numerics)
    requires num.Valid()
  {
    && (forall j :: 0 <= j < |acc.out| && acc.out[j].Line? ==>
          exists l :: l in paths && Mergeable(l) && acc.out[j] == Copy(l, num))
    && (forall j :: 0 <= j < |acc.running| ==> acc.running[j] in paths)
  }

  /** Visiting a path of the input keeps everything emitted or pending drawn from the input. */
  lemma VisitFromInput(acc: Acc, path: Path, paths: seq<Path>, tolerance: real, num: Numerics)
    requires num.Valid() && RunOk(acc.running) && (path.Line? ==> Mergeable(path))
    requires FromInput(acc, paths, num) && path in paths && |acc.running| <= 1
    ensures FromInput(Visit(acc, path, tolerance, num), paths, num)
  {
    var r := Visit(acc, path, tolerance, num);
    if acc.running != [] && (!path.Line? || AnyExceeds(acc.running, acc.running[0].start, path.end, tolerance, num)) {
      var l := acc.running[0];
      assert Flush(acc.running, num) == Copy(l, num);
      assert l in paths;
    }
  }

  /** A pass over a prefix of the input draws only on that prefix, hence on the whole input. */
  lemma FromInputPrefix(acc: Acc, front: seq<Path>, paths: seq<Path>, num: Numerics)
    requires num.Valid() && FromInput(acc, front, num) && front <= paths
    ensures FromInput(acc, paths, num)
  {
    forall l | l in front ensures l in paths {
      var i :| 0 <= i < |front| && front[i] == l;
      assert paths[i] == l;
    }
  }

  /**
   * Every line the pass emits is a copy of one input line (start, end and
   * feed rate of the pending line), and the pending run is made of input lines.
   */
  lemma {:induction false} FlushedLinesCopyInput(paths: seq<Path>, tolerance: real, num: Numerics)
    requires num.Valid() && LinesMergeable(paths)
    ensures FromInput(Fold(paths, tolerance, num), paths, num)
  {
    if paths != [] {
      var front := paths[..|paths| - 1];
      var last := paths[|paths| - 1];
      FlushedLinesCopyInput(front, tolerance, num);
      RunningAtMostOne(front, tolerance, num);
      FromInputPrefix(Fold(front, tolerance, num), front, paths, num);
      VisitFromInput(Fold(front, tolerance, num), last, paths, tolerance, num);
    }
  }

  /** A line arriving while another is pending and within tolerance of it is dropped. */
  lemma LineWithinToleranceDropped(acc: Acc, path: Path, tolerance: real, num: Numerics)
    requires num.Valid() && RunOk(acc.running) && Mergeable(path)
    requires |acc.running| == 1
    requires !Exceeds(acc.running[0].end, acc.running[0].start, path.end, tolerance, num)
    ensures Visit(acc, path, tolerance, num) == acc
  {
  }

  /** Input ending in a line leaves a line pending, which the pass never emits. */
  lemma {:induction false} TrailingRunNotFlushed(paths: seq<Path>, tolerance: real, num: Numerics)
    requires num.Valid() && LinesMergeable(paths)
    requires paths != [] && paths[|paths| - 1].Line?
    ensures |Fold(paths, tolerance, num).running| == 1
  {
    RunningAtMostOne(paths, tolerance, num);
  }

  /** A lone line disappears altogether. */
  lemma LoneLineLost(l: Path, tolerance: real, num: Numerics)
    requires num.Valid() && Mergeable(l)
    ensures Fold([l], tolerance, num).out == []
  {
    assert [l][..0] == [];
  }
}
