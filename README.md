# gsim G-code simulator: a verified model

gsim reads a G-code program for a laser cutter, parses it line by line into
statements, and runs the statements on a simulated machine. The machine keeps
the tool position, the feed rate, the spindle state, the units, a table of
`#` variables and a clock. Each move it makes is recorded as a path segment:
a line, an arc, a tool change or a dwell. It also keeps the bounding box of
the positions visited and the codes it does not know. A separate pass,
`reduce_paths`, tries to merge runs of straight lines within a tolerance.

The model has these modules:

- `Strings` (`strings.dfy`): the parts of Python's `str.strip`, `str.split`,
  `str.index`, `int()`, `float()` and `"%02d"` that the parser and the
  evaluator rely on.
- `Parser` (`parser.dfy`): `parse_program`, for one line at a time. It
  covers comment splitting, `#` assignments, the G/M code normalisation
  (`M2` becomes `M02`) and the parameter loop.
- `Expressions` (`expressions.dfy`): `eval_expression`, which splits at the
  first `*`, else the first `/`, else `+`, else `-`, with no precedence. Also
  `eval_params`, written as an imperative loop.
- `Geometry` (`geometry.dfy`): the `Line` and `Arc` constructors, with the
  norm and `atan2` passed in as a `Numerics` value.
- `Handling` (`handling.dfy`): `handle_statement` as a function on a
  `Machine` value. It covers every code branch and the invariant of the
  clock, the paths and the unknown codes.
- `Simulation` (`simulation.dfy`): the `State` class. Its fields are updated in
  place by `HandleStatement`, `Step` and their helpers. Each method is proved
  to agree with the corresponding `Handling` function. `Step` also keeps
  the bounding-box invariant.
- `Reduce` (`reduce.dfy`): `reduce_paths`, modelled exactly as written. It
  has an imperative loop, a specification fold, and lemmas that show what
  the pass keeps and what it loses.

A statement that raises an exception in the source yields `Fail(error)` in
the model. Such a statement leaves the machine as it was, except for a feed
rate already taken from `F`, since the source assigns that before raising.

Where the code and its design description disagree, the model follows the code:

- A G00/G01 that names only one of X and Y first builds its line with the
  missing coordinate kept. It then raises a `KeyError` when it reads
  `params["X"], params["Y"]` back (gsim/gcode.py:405). So such a move is
  lost. The model reports `MissingParameter` for it, and the feed rate stays
  updated.
- A standalone `F` code sets the feed rate without dividing by 60.
- The bounding box is first set after the first step that does not fail. It
  is set to wherever the tool is at that point: the origin, if that step did
  not move the tool. A path's start is therefore covered by the box only if
  the tool was there when the box was set or widened. The one exception
  `Covers` allows is a start at the origin, which is uncovered when the
  first successful step moved the tool away from it.

## Model

| member | source | states |
|---|---|---|
| Strings.SpaceRun | gsim/gcode.py:54 | the leading whitespace run of a line: all whitespace, followed by a non-space or the end |
| Strings.ContentEnd | gsim/gcode.py:54 | the trailing whitespace run: all whitespace, preceded by a non-space or the start |
| Strings.Strip | gsim/gcode.py:54 | `strip()`: the line is its leading whitespace run, then the result, then only whitespace; the result neither starts nor ends with whitespace, and is empty exactly when the line is all whitespace |
| Strings.StripDecomposes | gsim/gcode.py:54 | the line is exactly its leading whitespace run, then what `strip()` returns, then the rest (all whitespace) |
| Strings.TokenEnd | gsim/gcode.py:64 | the first token of a string runs up to the first whitespace |
| Strings.Split | gsim/gcode.py:64 | `split()`: every token is non-empty and has no whitespace; no tokens exactly when the line is blank |
| Strings.SplitCons | gsim/gcode.py:64 | whitespace, a token, then whitespace or the end: the token comes first, followed by the tokens of the rest, so the tokens are exactly the maximal non-whitespace runs in order |
| Strings.IndexOf | gsim/gcode.py:57 | `index(c)`: the position of the first occurrence of `c`; None exactly when `c` does not occur |
| Strings.IndexOfAfter | gsim/gcode.py:57 | the first occurrence of `c` is found after a prefix that has none |
| Strings.DigitChar | gsim/gcode.py:106 | a decimal digit character with the given value |
| Strings.Digits | gsim/gcode.py:106 | the decimal rendering of a natural number: non-empty digits spelling that number, with no leading zero |
| Strings.LeadingZero | gsim/gcode.py:106 | a zero prefix does not change a digit string's value |
| Strings.ParseInt | gsim/gcode.py:102 | `int(s)` succeeds exactly on digits, or a sign followed by digits, and gives their value, negated after `-` |
| Strings.Format02 | gsim/gcode.py:106 | `"%02d"`: a non-negative number as its digits with no leading zero beyond the one that pads it to two characters; a negative one as `-` and its digits |
| Strings.FormatThenParse | gsim/gcode.py:102-106 | `int()` reads back exactly the number `"%02d"` wrote |
| Strings.Pow10 | gsim/gcode.py:341 | powers of ten used by `float()` are at least 1 |
| Strings.DigitRun | gsim/gcode.py:341 | the leading digit run of a literal: all digits, followed by a non-digit or the end |
| Strings.FloatOfDigits | gsim/gcode.py:341 | `float()` reads the decimal rendering of a natural number as that number |
| Strings.ParseFloat | gsim/gcode.py:341 | `float(s)` accepts only text starting with a digit, a sign or a point; a digit string is read as the number it spells, and `-` followed by digits as its negation |
| Strings.FloatOfDecimal | gsim/gcode.py:341 | `float()` reads `whole.fraction` as the whole part plus the fraction divided by ten to the power of its length |
| Strings.OneDecimal | gsim/gcode.py:341 | `float()` reads a digit, a point and a digit (such as "1.5") as the first digit plus a tenth of the second |
| Strings.ParseUnsigned | gsim/gcode.py:341 | `float()` after the sign: only text starting with a digit or a point; a digit string is its value |
| Parser.NormalizeCode | gsim/gcode.py:98-106 | a G or M code is valid exactly when `int()` reads the rest, and becomes its letter followed by that number written `%02d`: canonical digits padded to two for a non-negative number, a minus sign and the unpadded canonical digits for a negative one ("G-5" stays "G-5"); other codes are kept as they are |
| Parser.NormalizeIdempotent | gsim/gcode.py:98-106 | normalising a normalised code changes nothing |
| Parser.SameNumberSameCode | gsim/gcode.py:98-106 | two G (or M) codes whose numbers `int()` reads as the same value normalise to the same code |
| Parser.NormalizePadsShortNumber | gsim/gcode.py:98-106 | `M2` is normalised to `M02` |
| Parser.NormalizeKeepsNegative | gsim/gcode.py:98-106 | `G-5` stays `G-5`: `%02d` pads only non-negative numbers |
| Parser.NormalizeDropsLeadingZeros | gsim/gcode.py:98-106 | `G001` is normalised to `G01` |
| Parser.NormalizeRejectsFraction | gsim/gcode.py:98-106 | `G1.5` is not a valid code, since `int()` rejects it |
| Parser.Pairs | gsim/gcode.py:113-130 | the (key, value) pairs of the parameter loop: no more pairs than tokens, and the first key is the first token's letter |
| Parser.MapOf | gsim/gcode.py:130 | the parameter dictionary has exactly the keys that occur among the pairs |
| Parser.Params | gsim/gcode.py:113-130 | `statement.params`: every key is the first letter of a token, the first token's letter is always a key, and no tokens give an empty dictionary |
| Parser.LastWins | gsim/gcode.py:130 | a key repeated in one statement keeps the value of its last occurrence |
| Parser.FusedTokens | gsim/gcode.py:126-129 | tokens of two or more characters each give (first letter, rest) |
| Parser.SeparatedValue | gsim/gcode.py:118-125 | a one-letter token takes the next token as its value |
| Parser.PairsStep | gsim/gcode.py:114-130 | one round of the parameter loop: a lone letter consumes two tokens (the value is `""` at the end), a fused token one |
| Parser.MapOfSnoc | gsim/gcode.py:130 | storing one more pair overrides the key's earlier value |
| Parser.ParseParams | gsim/gcode.py:113-130 | the `while n < len(args)` loop builds exactly the dictionary of the pairs |
| Parser.SplitComment | gsim/gcode.py:56-62 | without `(` there is no comment and the code part is the line; otherwise the comment is the line from its first `(` to the end and the code part is the stripped text before it |
| Parser.ParseAssignment | gsim/gcode.py:69-90 | a `#` line without exactly three tokens is invalid; three tokens whose middle is not `=` are dropped silently; otherwise an `=` statement with the first token as name and the third as expression, and no parameters |
| Parser.ParseCode | gsim/gcode.py:95-109 | a code whose G/M number does not parse makes the line invalid; otherwise the statement's arguments are the tokens after the code and its parameters are their dictionary |
| Parser.ParseLine | gsim/gcode.py:54-133 | of the code part before the first `(`: a `#` line is invalid unless it has three tokens, dropped when the middle one is not `=`, else an assignment of the first to the third; a blank code part is an empty statement; any other is never dropped, invalid exactly when its code does not normalise, else a statement of the normalised code with the remaining tokens as arguments and their parameters; the statement keeps the line number, comment and command |
| Parser.ParseBody | gsim/gcode.py:64-133 | the code part of a line: the same cases as `ParseLine`, keeping the comment and the command text; invalid lines report the code part |
| Parser.AssignmentBody | gsim/gcode.py:69-90 | a `#` code part: invalid exactly without three tokens, dropped exactly when the middle token is not `=`, otherwise the statement `=` binding the first token to the third, with no parameters |
| Parser.CodeBody | gsim/gcode.py:92-133 | any other non-blank code part: never dropped, invalid exactly when its first token does not normalise, otherwise the statement of the normalised code with the other tokens as arguments and their parameters |
| Parser.SplitFirstToken | gsim/gcode.py:96-97 | the first token of a line starts with the line's first character |
| Parser.SplitTokens | gsim/gcode.py:64 | tokens and the tokens after the code are all non-empty |
| Parser.Read | gsim/gcode.py:56-133 | reading one line keeps the statements and invalid lines read so far as a prefix and appends exactly that line's outcome: a statement numbered by the count so far, an invalid line, or nothing when dropped |
| Parser.Record | gsim/gcode.py:131-133 | adding a line's outcome keeps everything before it and appends exactly the statement or the invalid line, nothing for a dropped line |
| Parser.ParseLines | gsim/gcode.py:46-136 | every line yields exactly one statement or invalid line, except the dropped ones |
| Parser.ParseLinesSnoc | gsim/gcode.py:46-136 | one more line is one more `Read`: what the earlier lines gave is kept as a prefix |
| Parser.ParseProgram | gsim/gcode.py:46-136 | the line loop builds exactly the program the per-line specification gives |
| Parser.LineNumbersAreIndices | gsim/gcode.py:68 | each statement's line number is its index among the statements |
| Parser.CodesAreNormal | gsim/gcode.py:98-108 | every statement's code is already normalised |
| Parser.BlankLine | gsim/gcode.py:92-93 | a blank line becomes an empty statement with command `" "` |
| Parser.CommentLine | gsim/gcode.py:56-67 | a line holding only a comment becomes an empty statement carrying that comment |
| Expressions.Unbracket | gsim/gcode.py:319-321 | `exp[1:-1]` when the expression starts with `[`: the result with its first and last character put back is the expression; anything else unchanged |
| Expressions.SplitPoint | gsim/gcode.py:326-331 | the split position holds an operator; no split exactly when the expression has no operator |
| Expressions.Apply | gsim/gcode.py:32-37 | the operator applied: fails exactly on division by zero; otherwise the result undoes back to the left operand (`+`, `-`, `/`, and `*` by a non-zero value); a product by zero is 0 |
| Expressions.Eval | gsim/gcode.py:318-341 | `eval_expression`: a division-by-zero error needs a `/` in the text, an unbound variable is a `#` name missing from the table, and a bad number is non-empty text `float()` rejects; an empty expression, bracketed or not, is 0 |
| Expressions.EvalContents | gsim/gcode.py:322-341 | the same guarantees for the text after the brackets are stripped, and empty text is 0 |
| Expressions.RanksFromConcat | gsim/gcode.py:326-331 | joining operands around a later-ranked operator keeps every operator at that rank or later |
| Expressions.SplitPointAt | gsim/gcode.py:326-331 | the split is at `op` when the left side has no operator searched before it and the right side none searched before `op` |
| Expressions.EvalSplitsAtFirstOperator | gsim/gcode.py:318-337 | in that case the value is `op` applied to both halves, left error first |
| Expressions.DigitsAreOperand | gsim/gcode.py:338-341 | a digit string is an operand, not a variable |
| Expressions.SumThenProduct | gsim/gcode.py:326-337 | `x+y*z` evaluates as `(x+y)*z` |
| Expressions.ProductOfSum | gsim/gcode.py:326-337 | `x*y+z` evaluates as `x*(y+z)` |
| Expressions.DifferenceGroupsRight | gsim/gcode.py:326-337 | `x-y-z` evaluates as `x-(y-z)` |
| Expressions.LeadingMinus | gsim/gcode.py:322-337 | `-n` evaluates as `0 - n` (the empty left side is 0) |
| Expressions.EvalBracketed | gsim/gcode.py:319-321 | `[e]` evaluates as `e` |
| Expressions.EvalVariable | gsim/gcode.py:338-339 | `#name` is its bound value, or an unbound-variable error |
| Expressions.EvalNumber | gsim/gcode.py:341 | a digit string evaluates to the number it spells |
| Expressions.EvalEmpty | gsim/gcode.py:323-324 | `""` and `"[]"` evaluate to 0 |
| Expressions.EvalOperand | gsim/gcode.py:326-341 | text with no operator that is not a `#` variable evaluates to `float()` of the text, or fails as a bad number when `float()` rejects it |
| Expressions.EvalOneDecimal | gsim/gcode.py:341 | an expression made of a digit, a point and a digit (such as "1.5") evaluates to that decimal |
| Expressions.EvalMoreBindings | gsim/gcode.py:318-341 | binding more variables never changes a value that already evaluated |
| Expressions.ContentsMoreBindings | gsim/gcode.py:323-341 | the same for the text after the brackets are stripped |
| Expressions.Gather | gsim/gcode.py:349-353 | all results succeed exactly when the dictionary is returned, with every value; otherwise the failures are exactly the failing keys with their errors |
| Expressions.EvalAll | gsim/gcode.py:349-353 | `eval_params`: succeeds exactly when every parameter evaluates, giving each key its value; otherwise reports exactly the keys that fail |
| Expressions.EvalParams | gsim/gcode.py:349-353 | the key-by-key loop computes exactly `EvalAll` |
| Expressions.Collected | gsim/gcode.py:349-353 | the loop's split into successes and failures is what `Gather` returns |
| Geometry.NormalizeAngle | gsim/gcode.py:256-257 | an angle from `atan2` moved into [0, 2*pi), same direction |
| Geometry.SweptAngle | gsim/gcode.py:259-261 | the angle between two directions, the shorter way round: in [0, pi] and no more than either arc |
| Geometry.NewLine | gsim/gcode.py:222-227 | a line keeps its ends and rate; its length is the norm of end - start, its duration that length over the rate, its other fields the class defaults |
| Geometry.NewArc | gsim/gcode.py:241-263 | an arc keeps its ends, centre, rate and direction; its radius is the norm of start - centre; its two angles are atan2 of start - centre and of end - centre, moved into [0, 2*pi); its length is the radius times the shorter angle between them, hence at most radius * pi |
| Geometry.ArcLength | gsim/gcode.py:259-262 | the radius times the swept angle is at most half the circumference |
| Geometry.ArcLengthBound | gsim/gcode.py:241-263 | every well-formed arc is at most half a circle long |
| Geometry.DurationNonNegative | gsim/gcode.py:222-263 | a segment traced at a positive rate takes non-negative time, length = duration * rate |
| Geometry.EndpointWithinTolerance | gsim/gcode.py:138-139 | a chord's own ends are never farther from it than the tolerance |
| Geometry.Exceeds | gsim/gcode.py:138-139 | a point on the line through the chord never exceeds a non-negative tolerance; for a chord of positive length, a point exceeds exactly when the cross product is larger than tolerance times the chord length |
| Handling.Initial | gsim/gcode.py:281-310 | a new machine: at the origin, spindle on, inches, feed rate 1, clock at zero, no variables, nothing traced, no unknown codes, not finished |
| Handling.RapidSpeed | gsim/gcode.py:297-299 | the rapid speed is positive: `RAPID_SPEED_MM` in millimetres, and that over 25.4 in inches |
| Handling.SumDurations | gsim/gcode.py:312-316 | `get_run_length`: non-negative when every duration is, and the one duration of a single path |
| Handling.SumDurationsSnoc | gsim/gcode.py:312-316 | one more path adds its duration to the run length |
| Handling.InitialInv | gsim/gcode.py:281-310 | the invariant holds for a new machine |
| Handling.AssignTarget | gsim/gcode.py:364-365 | `(name, exp) = st.args` unpacks an assignment, or exactly two arguments in order, and nothing else |
| Handling.Assign | gsim/gcode.py:362-366 | an assignment succeeds exactly when it unpacks and the expression evaluates, binding the name; otherwise nothing changes |
| Handling.FeedFrom | gsim/gcode.py:371-376 | the feed rate becomes F/60 when F is given; nothing else changes |
| Handling.Append | gsim/gcode.py:400-410 | a traced path is appended, the clock advanced by its duration and the tool moved to its end |
| Handling.LineTo | gsim/gcode.py:393-406 | the line of a move: from the position to the target at the given rate, rapid exactly for G00, starting at the current time |
| Handling.ArcTo | gsim/gcode.py:427-433 | the arc of a circular move: from the position to the target, clockwise exactly for G02, at the feed rate, starting at the current time, with its angles and length computed from its start, end and centre |
| Handling.Target | gsim/gcode.py:383-391 | `newpos`: (X, Y) when both are given, the position when neither is, and each coordinate either kept or the given value |
| Handling.LinearMove | gsim/gcode.py:383-412 | after the parameters: neither axis changes nothing; it fails exactly when an axis is missing or the rate is zero; on success the tool is at (X, Y) and one path is appended; paths only extended, a failure changes nothing |
| Handling.Move | gsim/gcode.py:368-412 | G00/G01 changes only the feed rate, the position, the paths and the clock; a failure only the feed rate |
| Handling.CircularMove | gsim/gcode.py:421-438 | after the parameters: fails exactly when X or Y is missing, or the spindle is on and I or J is missing or the rate is zero; on success the tool is at (X, Y) and one arc is appended exactly when the spindle is on; a failure changes nothing |
| Handling.Circle | gsim/gcode.py:414-438 | G02/G03 changes only the feed rate, the position, the paths and the clock; a failure only the feed rate |
| Handling.SetFeed | gsim/gcode.py:466-469 | `F…` succeeds exactly when the rest of the code evaluates, and then sets the feed rate to that value |
| Handling.ChangeTool | gsim/gcode.py:471-478 | M06 appends a tool change of three seconds, advances the clock by three, and changes nothing else |
| Handling.DwellFor | gsim/gcode.py:483-492 | G04 succeeds exactly when its parameters evaluate, appending a dwell of P seconds (0 without P) and advancing the clock by it |
| Handling.Dwelled | gsim/gcode.py:486-492 | a dwell appends exactly one `Dwell` of P seconds (0 without P), keeps the earlier paths and advances the clock by it |
| Handling.NoteUnknown | gsim/gcode.py:494-497 | an unknown code ends up in the list, appended only if it was not there |
| Handling.Modal | gsim/gcode.py:440-464 | M02 finishes, M03/M05 switch the spindle, G21 selects millimetres and their rapid speed, G96/G90/G17 change nothing |
| Handling.Control | gsim/gcode.py:356-497 | every code but the moves keeps the position, only extends the paths, finishes exactly on M02, and changes settings only as its code says: the feed rate only for `F…`, paths only for M06 and G04 |
| Handling.Handle | gsim/gcode.py:355-497 | `handle_statement`: paths only extended, and only by G00-G03, M06 and G04; a failure changes at most the feed rate; only moves move the tool or set the feed rate besides `F…`; finished exactly after M02; units, spindle, variables and unknown codes changed only by their codes |
| Handling.ExtendsKeepsTimeline | gsim/gcode.py:400-436 | after a statement the clock is still the run length and every path starts when the ones before it end |
| Handling.AppendKeepsTimeline | gsim/gcode.py:312-316 | a well-formed path that starts when the others end adds its duration to the run length and keeps every start time equal to the run length before it |
| Handling.HandlePreservesInv | gsim/gcode.py:355-497 | every statement, passing or failing, keeps the invariant: clock = sum of durations, well-formed paths, start times, no duplicate unknown codes, rapid speed of the units |
| Handling.MoveTracesLine | gsim/gcode.py:368-412 | G00/G01 with X and Y: a line from the position to (X, Y) at F/60 (or the rapid speed with the spindle off), rapid exactly for G00, the clock advanced by its duration; a zero rate is an error |
| Handling.MoveWithoutAxes | gsim/gcode.py:381 | G00/G01 with neither X nor Y only sets the feed rate |
| Handling.MoveWithOneAxis | gsim/gcode.py:383-405 | G00/G01 with one axis fails on the missing one after setting the feed rate |
| Handling.MoveWithBadParameters | gsim/gcode.py:368-370 | a move whose parameters do not evaluate fails before changing anything |
| Handling.ArcWithSpindleOff | gsim/gcode.py:424-438 | G02/G03 with the spindle off moves the tool to (X, Y) and traces nothing |
| Handling.ArcTraced | gsim/gcode.py:424-438 | G02/G03 with the spindle on traces an arc from the position to (X, Y) around position + (I, J), clockwise exactly for G02, with its angles, length and duration computed from that start, end and centre |
| Handling.CircularMoveTraces | gsim/gcode.py:424-436 | once X, Y, I and J are present, the spindle is on and the rate is non-zero, a circular move appends the arc from the position to (X, Y) around position + (I, J) and passes |
| Handling.ArcMissingAxis | gsim/gcode.py:414-421 | G02/G03 without X or Y fails on the missing one, after the feed rate is set |
| Handling.ArcMissingCentre | gsim/gcode.py:421-424 | G02/G03 with the spindle on but without I or J fails on the missing one, after the feed rate is set |
| Handling.ArcZeroRate | gsim/gcode.py:424-435 | G02/G03 with the spindle on at a zero feed rate fails and traces nothing |
| Handling.FeedCodeSetsRate | gsim/gcode.py:466-469 | `F…` sets the feed rate to the value itself, not divided by 60 |
| Handling.AssignmentBinds | gsim/gcode.py:362-366 | an assignment binds the variable to the expression's value |
| Handling.ToolChangeTakesThreeSeconds | gsim/gcode.py:471-478 | M06 appends one tool change of three seconds at the current time |
| Handling.DwellTakesP | gsim/gcode.py:483-492 | G04 appends one dwell of P seconds at the current time |
| Handling.UnknownCodeRecorded | gsim/gcode.py:494-497 | an unknown code is appended once and nothing else changes |
| Handling.KnownCodeNotRecorded | gsim/gcode.py:356-497 | a code `handle_statement` dispatches on (`Known`: "", %, =, G00-G03, M02, M03, M05, G96, G21, G90, G17, M06, G04, F…, T…) never adds to the unknown codes |
| Handling.NoOpCodes | gsim/gcode.py:356-482 | an empty code, `%`, a `T…` tool selection and G96, G90, G17 change nothing and pass |
| Simulation.Lower | gsim/gcode.py:513-517 | the new lower corner is below both the old corner and the position, and each coordinate is one of them |
| Simulation.Upper | gsim/gcode.py:519-524 | the new upper corner is above both the old corner and the position, and each coordinate is one of them |
| Simulation.CoversAfterStatement | gsim/gcode.py:499-524 | widening the box by the new position keeps every traced segment's ends covered |
| Simulation.InvIgnoresFinished | gsim/gcode.py:505-508 | setting `finished` does not affect the invariant |
| Simulation.State.constructor | gsim/gcode.py:281-310 | a new `State` is the initial machine, line 0, no box, and valid |
| Simulation.State.RunLength | gsim/gcode.py:312-316 | `get_run_length` adds up the durations; on a valid state that is the clock |
| Simulation.State.Record | gsim/gcode.py:400-410 | appending a path in place is `Append` |
| Simulation.State.StraightTo | gsim/gcode.py:381-412 | in-place updates of G00/G01 after the parameters agree with `LinearMove` |
| Simulation.State.Straight | gsim/gcode.py:368-412 | in-place G00/G01 agrees with `Move` |
| Simulation.State.CircleTo | gsim/gcode.py:424-438 | in-place updates of G02/G03 after the parameters agree with `CircularMove` |
| Simulation.State.ArcAround | gsim/gcode.py:426-435 | the spindle-on arc branch in place agrees with `CircularMove` |
| Simulation.State.Circular | gsim/gcode.py:414-438 | in-place G02/G03 agrees with `Circle` |
| Simulation.State.Bind | gsim/gcode.py:362-366 | in-place assignment agrees with `Assign` |
| Simulation.State.SetMode | gsim/gcode.py:440-464 | in-place mode codes agree with `Modal` |
| Simulation.State.Feed | gsim/gcode.py:466-469 | in-place `F…` agrees with `SetFeed` |
| Simulation.State.Tool | gsim/gcode.py:471-478 | in-place M06 agrees with `ChangeTool` |
| Simulation.State.Pause | gsim/gcode.py:483-492 | in-place G04 agrees with `DwellFor` |
| Simulation.State.Unknown | gsim/gcode.py:494-497 | in-place unknown code agrees with `NoteUnknown` |
| Simulation.State.Other | gsim/gcode.py:356-497 | in-place handling of every non-move code agrees with `Control` |
| Simulation.State.HandleStatement | gsim/gcode.py:355-497 | in-place `handle_statement` agrees with `Handle`; the line index and the box are untouched |
| Simulation.State.Step | gsim/gcode.py:499-524 | `step` runs the statement at `lineno` as `Handle` does; on success the next line, finished after the last line or M02, and the box widened (lower corner never rises, upper never falls); on failure line and box unchanged; past the end an error; validity kept |
| Simulation.State.Advance | gsim/gcode.py:504-524 | the line index moves on, finished at the end of the program, the box widened, validity kept |
| Simulation.State.Widen | gsim/gcode.py:510-524 | the box takes in the position and still covers every traced segment |
| Reduce.Flush | gsim/gcode.py:163 | the line replacing a pending run goes from its first start to its last end at its first rate |
| Reduce.Visit | gsim/gcode.py:145-166 | one iteration keeps the pending run made of lines |
| Reduce.Fold | gsim/gcode.py:142-167 | the pass keeps the pending run made of lines |
| Reduce.ReducePaths | gsim/gcode.py:142-167 | the loop, with its inner `for p in running … break`, computes exactly the fold |
| Reduce.RunningAtMostOne | gsim/gcode.py:146-158 | the pending run never holds more than one line |
| Reduce.NoLonger | gsim/gcode.py:142-167 | output plus pending run are never longer than the input |
| Reduce.OutputNoLonger | gsim/gcode.py:142-167 | the output is never longer than the input |
| Reduce.NonLinesConcat | gsim/gcode.py:160-166 | filtering out lines distributes over concatenation |
| Reduce.NonLinesSingle | gsim/gcode.py:160-166 | filtering a single path |
| Reduce.VisitKeepsNonLines | gsim/gcode.py:145-166 | one iteration emits the non-line it visits, and no other non-line |
| Reduce.NonLinesKept | gsim/gcode.py:160-166 | every path that is not a line comes out, in its original order |
| Reduce.Copy | gsim/gcode.py:155 | a rebuilt line keeps start, end and feed rate |
| Reduce.VisitFromInput | gsim/gcode.py:145-166 | one iteration emits only copies of input lines and buffers only input lines |
| Reduce.FromInputPrefix | gsim/gcode.py:145 | what is drawn from a prefix of the input is drawn from the input |
| Reduce.FlushedLinesCopyInput | gsim/gcode.py:142-167 | every emitted line copies the start, end and feed rate of one input line |
| Reduce.LineWithinToleranceDropped | gsim/gcode.py:148-158 | a line within tolerance of the pending one is dropped and the state is unchanged |
| Reduce.TrailingRunNotFlushed | gsim/gcode.py:142-167 | input ending in a line leaves a line pending, which is never emitted |
| Reduce.LoneLineLost | gsim/gcode.py:142-167 | a single line yields an empty output |

## Left out

- File reading (`open`/`readline`): `parse_program` is modelled on the sequence of lines it reads. The `print` calls for bad lines, for G90 and for unknown codes are left out.
- `dump_parse`, `eval_coords` (it has no caller), `main.py`, `render.py` and `gparse.py` are not part of this model.
- `numpy.linalg.norm` and `math.atan2` are not computed. They are a `Numerics` parameter, and the model assumes only that the norm is non-negative and that atan2 lies in (-pi, pi].
- Floating point: all arithmetic is on exact reals. Rounding, infinities and NaN are not modelled.
- A zero feed rate: the source divides by it and records a segment of infinite or NaN duration. The model fails with `ZeroFeedRate` instead, after the checks for missing parameters. `Reduce.ReducePaths` likewise requires every input line to have a non-zero feed rate, because it rebuilds lines with `Line(...)`.
- `float()` is modelled for decimal literals (sign, digits, point, exponent). `inf`, `nan`, underscores and surrounding whitespace are not accepted. Tokens never contain whitespace.
- `int()` accepts a sign and ASCII digits only.
- Expressions.EvalAll: `eval_params` raises the error of the first failing key in dictionary order, which Python leaves unspecified. The model reports every failing key with its error.
- The branch of G00/G01 that sets the start position when `pos` is None cannot run, since `__init__` always sets `pos`. It is not modelled.
- The `cmd` and `command` attributes of a path, and the `statement` object itself, are not modelled. A path records the statement's line number instead.
- Strings are sequences of characters. The whitespace set is the ASCII one Python's `str.strip()` uses for byte strings.
- Simulation.State.Step requires `Valid()`, the class invariant, which every `State` has from its constructor on.
