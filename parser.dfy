/**
 * The G-code reader (`parse_program`): one statement per source line, with
 * the code normalised, the parameters split into letter/value pairs and the
 * comment kept aside. Reading the file is left to the caller: the program
 * text arrives as its sequence of lines.
 */
module Parser {
  import opened Wrappers
  import opened Strings

  /** What follows the code of a statement. */
  datatype Args =
    | NoArgs                                  // an empty line (`args` is None)
    | Assignment(name: string, exp: string)   // `#name = exp`
    | Words(words: seq<string>)               // the tokens after the code

  datatype Statement = Statement(
    code: string,
    args: Args,
    params: map<char, string>,
    comment: string,
    command: string,
    lineNumber: nat)

  datatype Program = Program(statements: seq<Statement>, invalidLines: seq<string>)

  /** What one source line contributes to the program. */
  datatype LineOutcome =
    | Parsed(st: Statement)   // appended to the statements
    | Invalid(text: string)   // appended to the invalid lines
    | Dropped                 // discarded without trace

  predicate NonEmptyTokens(args: seq<string>) {
    forall i :: 0 <= i < |args| ==> args[i] != []
  }

  // ---- codes ----

  /**
   * A G or M code is rewritten with its number printed as two digits
   * ("M2" becomes "M02"); a number `int()` rejects makes the line invalid.
   * Any other code is kept as written.
   */
  function NormalizeCode(code: string): (r: Option<string>)
    ensures (StartsWith(code, 'G') || StartsWith(code, 'M')) ==> (r.Some? <==> ParseInt(code[1..]).Some?)
    ensures r.Some? && (StartsWith(code, 'G') || StartsWith(code, 'M')) ==>
              |r.value| >= 3 && r.value[0] == code[0] && ParseInt(r.value[1..]) == ParseInt(code[1..])
    ensures r.Some? && (StartsWith(code, 'G') || StartsWith(code, 'M')) && ParseInt(code[1..]).value >= 0 ==>
              && AllDigits(r.value[1..]) && DigitsValue(r.value[1..]) == ParseInt(code[1..]).value
              && (|r.value| == 3 || r.value[1] != '0')
    ensures r.Some? && (StartsWith(code, 'G') || StartsWith(code, 'M')) && ParseInt(code[1..]).value < 0 ==>
              r.value[1..] == "-" + Digits(-ParseInt(code[1..]).value)
    ensures !(StartsWith(code, 'G') || StartsWith(code, 'M')) ==> r == Some(code)
  {
    if StartsWith(code, 'G') || StartsWith(code, 'M') then
      match ParseInt(code[1..])
      case None => None
      case Some(n) =>
        var s := [code[0]] + Format02(n);
        assert s[1..] == Format02(n);
        FormatThenParse(n);
        Some(s)
    else Some(code)
  }

  /** Normalising a normalised code changes nothing. */
  lemma NormalizeIdempotent(code: string)
    requires NormalizeCode(code).Some?
    ensures NormalizeCode(NormalizeCode(code).value) == NormalizeCode(code)
  {
    if StartsWith(code, 'G') || StartsWith(code, 'M') {
      var n := ParseInt(code[1..]).value;
      var s := NormalizeCode(code).value;
      assert s == [code[0]] + Format02(n);
      assert s[1..] == Format02(n);
      FormatThenParse(n);
    }
  }

  /** Two spellings of the same G or M number normalise to the same code: "G1", "G01" and "G001" are all "G01". */
  lemma SameNumberSameCode(a: string, b: string)
    requires StartsWith(a, 'G') || StartsWith(a, 'M')
    requires StartsWith(b, a[0]) && ParseInt(a[1..]) == ParseInt(b[1..])
    ensures NormalizeCode(a) == NormalizeCode(b)
  {
    if ParseInt(a[1..]).Some? {
      var n := ParseInt(a[1..]).value;
      assert NormalizeCode(a) == Some([a[0]] + Format02(n));
      assert NormalizeCode(b) == Some([b[0]] + Format02(n));
    }
  }

  /** `"M2"` is written `"M02"`, `"G001"` becomes `"G01"`, and `"G1.5"` is not a number. */
  lemma NormalizePadsShortNumber()
    ensures NormalizeCode("M2") == Some("M02")
  {
    assert "M2"[1..] == "2" && AllDigits("2") && DigitsValue("2") == 2;
    assert ParseInt("2") == Some(2);
    assert Digits(2) == "2";
    assert Format02(2) == "02";
    assert ['M'] + "02" == "M02";
  }

  /** `%02d` pads only the digits of a non-negative number: "G-5" stays "G-5". */
  lemma NormalizeKeepsNegative()
    ensures NormalizeCode("G-5") == Some("G-5")
  {
    assert "G-5"[1..] == "-5" && "-5"[1..] == "5" && AllDigits("5") && DigitsValue("5") == 5;
    assert ParseInt("-5") == Some(-5);
    assert Digits(5) == "5";
    assert Format02(-5) == "-5";
    assert ['G'] + "-5" == "G-5";
  }

  lemma NormalizeDropsLeadingZeros()
    ensures NormalizeCode("G001") == Some("G01")
  {
    assert "001"[..2] == "00" && "00"[..1] == "0" && "0"[..0] == [];
    assert DigitsValue("0") == 0 && DigitsValue("00") == 0;
    assert "G001"[1..] == "001" && AllDigits("001") && DigitsValue("001") == 1;
    assert ParseInt("001") == Some(1);
    assert Digits(1) == "1";
    assert Format02(1) == "01";
    assert ['G'] + "01" == "G01";
  }

  lemma NormalizeRejectsFraction()
    ensures NormalizeCode("G1.5") == None
  {
    assert "G1.5"[1..] == "1.5" && !IsDigit("1.5"[1]);
  }

  // ---- parameters ----

  /**
   * The letter/value pairs of a statement's tokens, in order. A token of one
   * letter takes the next token as its value (or "" when there is none);
   * a longer token is its first letter followed by its value.
   */
  function Pairs(args: seq<string>): (ps: seq<(char, string)>)
    requires NonEmptyTokens(args)
    ensures |ps| <= |args|
    ensures args != [] ==> ps != [] && ps[0].0 == args[0][0]
    decreases |args|
  {
    if args == [] then []
    else if |args[0]| == 1 then
      [(args[0][0], if |args| > 1 then args[1] else "")] + Pairs(if |args| > 1 then args[2..] else [])
    else
      [(args[0][0], args[0][1..])] + Pairs(args[1..])
  }

  /** Every pair's letter is the first letter of some token. */
  lemma {:induction false} PairLetters(args: seq<string>)
    requires NonEmptyTokens(args)
    ensures forall j :: 0 <= j < |Pairs(args)| ==> Pairs(args)[j].0 in Letters(args)
    decreases |args|
  {
    if args != [] {
      var rest := if |args[0]| == 1 then (if |args| > 1 then args[2..] else []) else args[1..];
      PairLetters(rest);
      if |args[0]| == 1 && |args| > 1 { LettersOfSuffix(args, 2); }
      else if |args[0]| != 1 { LettersOfSuffix(args, 1); }
      assert args[0][0] in Letters(args);
      assert Pairs(args) == [Pairs(args)[0]] + Pairs(rest);
    }
  }

  /** The first letters of the tokens. */
  function Letters(args: seq<string>): set<char> {
    set i | 0 <= i < |args| && args[i] != [] :: args[i][0]
  }

  lemma LettersOfSuffix(args: seq<string>, k: nat)
    requires k <= |args|
    ensures Letters(args[k..]) <= Letters(args)
  {
    forall c | c in Letters(args[k..])
      ensures c in Letters(args)
    {
      var i :| 0 <= i < |args[k..]| && args[k..][i] != [] && args[k..][i][0] == c;
      assert args[k + i] == args[k..][i];
    }
  }

  /** A dictionary filled from `ps` in order: a later pair overwrites an earlier one with the same letter. */
  function MapOf(ps: seq<(char, string)>): (m: map<char, string>)
    ensures forall k :: k in m <==> exists i :: 0 <= i < |ps| && ps[i].0 == k
  {
    if ps == [] then map[]
    else
      var front := ps[..|ps| - 1];
      assert forall i :: 0 <= i < |ps| - 1 ==> front[i] == ps[i];
      MapOf(front)[ps[|ps| - 1].0 := ps[|ps| - 1].1]
  }

  /**
   * `statement.params`: a letter for each token that starts a pair, the
   * first token always among them; no tokens give no parameters.
   */
  function Params(args: seq<string>): (m: map<char, string>)
    requires NonEmptyTokens(args)
    ensures m.Keys <= Letters(args)
    ensures args != [] ==> args[0][0] in m
    ensures args == [] ==> m == map[]
  {
    var ps := Pairs(args);
    PairLetters(args);
    assert args != [] ==> ps[0].0 == args[0][0];
    MapOf(ps)
  }

  /** The value recorded for a letter is the one of its last pair. */
  lemma {:induction false} LastWins(ps: seq<(char, string)>, i: nat)
    requires i < |ps|
    requires forall j :: i < j < |ps| ==> ps[j].0 != ps[i].0
    ensures ps[i].0 in MapOf(ps) && MapOf(ps)[ps[i].0] == ps[i].1
  {
    if i < |ps| - 1 {
      var front := ps[..|ps| - 1];
      assert front[i] == ps[i];
      LastWins(front, i);
    }
  }

  /** When every token carries its value, each token is one pair. */
  lemma {:induction false} FusedTokens(args: seq<string>)
    requires forall i :: 0 <= i < |args| ==> |args[i]| >= 2
    ensures Pairs(args) == seq(|args|, i requires 0 <= i < |args| => (args[i][0], args[i][1..]))
  {
    if args != [] {
      FusedTokens(args[1..]);
    }
  }

  /** A lone letter followed by a token takes that token as its value, and parsing resumes after it. */
  lemma SeparatedValue(k: char, v: string, rest: seq<string>)
    requires v != [] && NonEmptyTokens(rest)
    ensures Pairs([[k], v] + rest) == [(k, v)] + Pairs(rest)
  {
    var args := [[k], v] + rest;
    assert args[2..] == rest;
  }

  /** The tokens from index `n` on, or none once `n` has run past the end. */
  function From(args: seq<string>, n: nat): seq<string> {
    if n <= |args| then args[n..] else []
  }

  /**
   * One step of the pairing loop at index `n`: the token there and, for a
   * lone letter, the one after it become the next pair.
   */
  lemma PairsStep(args: seq<string>, n: nat, done: seq<(char, string)>, key: char, value: string, next: nat)
    requires NonEmptyTokens(args) && n < |args|
    requires NonEmptyTokens(From(args, n)) && Pairs(args) == done + Pairs(From(args, n))
    requires key == args[n][0]
    requires |args[n]| == 1 ==> value == (if n + 1 < |args| then args[n + 1] else "") && next == n + 2
    requires |args[n]| != 1 ==> value == args[n][1..] && next == n + 1
    ensures NonEmptyTokens(From(args, next)) && Pairs(args) == (done + [(key, value)]) + Pairs(From(args, next))
  {
    var rest := args[n..];
    assert rest[0] == args[n];
    if |args[n]| == 1 {
      if n + 1 < |args| {
        assert rest[1] == args[n + 1] && rest[2..] == From(args, next);
      } else {
        assert From(args, next) == [];
      }
    } else {
      assert rest[1..] == From(args, next);
    }
  }

  /** Adding a pair at the end overwrites that letter's entry. */
  lemma MapOfSnoc(ps: seq<(char, string)>, key: char, value: string)
    ensures MapOf(ps + [(key, value)]) == MapOf(ps)[key := value]
  {
    assert (ps + [(key, value)])[..|ps|] == ps;
  }

  /** The parameter loop of `parse_program`. */
  method ParseParams(args: seq<string>) returns (params: map<char, string>)
    requires NonEmptyTokens(args)
    ensures params == Params(args)
  {
    params := map[];
    ghost var done: seq<(char, string)> := [];
    var n := 0;
    assert From(args, 0) == args;
    while n < |args|
      invariant n <= |args| + 1
      invariant params == MapOf(done)
      invariant NonEmptyTokens(From(args, n)) && Pairs(args) == done + Pairs(From(args, n))
      decreases |args| + 1 - n
    {
      ghost var n0 := n;
      var arg := args[n];
      n := n + 1;
      var key, value;
      if |arg| == 1 {
        key := arg[0];
        value := if n < |args| then args[n] else "";
        n := n + 1;
      } else {
        key := arg[0];
        value := arg[1..];
      }
      PairsStep(args, n0, done, key, value, n);
      MapOfSnoc(done, key, value);
      params := params[key := value];
      done := done + [(key, value)];
    }
    assert From(args, n) == [];
    assert Pairs(args) == done;
  }

  // ---- lines ----

  /** The comment (from the first '(' on) and the code part of a stripped line. */
  function SplitComment(line: string): (r: (string, string))
    requires line == [] || !IsSpace(line[0])
    ensures IndexOf(line, '(') == None ==> r == ("", line)
    ensures IndexOf(line, '(').Some? ==>
              var i := IndexOf(line, '(').value;
              r.0 == line[i..] && r.1 == Strip(line[..i]) && '(' !in line[..i]
    ensures r.0 == [] || r.0[0] == '('
    ensures r.1 == [] || !IsSpace(r.1[0])
  {
    match IndexOf(line, '(')
    case None => ("", line)
    case Some(i) => (line[i..], Strip(line[..i]))
  }

  /** A `#` line: exactly three tokens, the middle one `=`. */
  function ParseAssignment(body: string, args: seq<string>, comment: string, command: string, n: nat): (r: LineOutcome)
    requires StartsWith(body, '#') && NonEmptyTokens(args) && (|args| > 0 ==> args[0][0] == '#')
    ensures r.Parsed? ==> r.st == Statement("=", r.st.args, map[], comment, command, n)
    ensures r.Parsed? ==> |args| == 3 && r.st.args == Assignment(args[0], args[2]) && StartsWith(r.st.args.name, '#')
    ensures r.Invalid? <==> |args| != 3
    ensures r.Invalid? ==> r.text == body
    ensures r.Dropped? <==> |args| == 3 && args[1] != "="
  {
    if |args| != 3 then Invalid(body)
    else if args[1] != "=" then Dropped
    else Parsed(Statement("=", Assignment(args[0], args[2]), map[], comment, command, n))
  }

  /** A line that starts with a code: the code is normalised and the other tokens become parameters. */
  function ParseCode(body: string, args: seq<string>, comment: string, command: string, n: nat): (r: LineOutcome)
    requires args != [] && NonEmptyTokens(args)
    ensures r.Invalid? <==> NormalizeCode(args[0]).None?
    ensures r.Invalid? ==> r.text == body
    ensures !r.Dropped?
    ensures r.Parsed? ==>
              && r.st == Statement(NormalizeCode(args[0]).value, Words(args[1..]), Params(args[1..]), comment, command, n)
              && r.st.code != ""
              && NormalizeCode(r.st.code) == Some(r.st.code)
  {
    match NormalizeCode(args[0])
    case None => Invalid(body)
    case Some(code) =>
      NormalizeIdempotent(args[0]);
      Parsed(Statement(code, Words(args[1..]), Params(args[1..]), comment, command, n))
  }

  /**
   * What `parse_program` makes of the line `line` when `n` statements have
   * been read before it.
   */
  function ParseLine(line: string, n: nat): (r: LineOutcome)
    ensures var parts := SplitComment(Strip(line));
            var body := parts.1;
            && (r.Parsed? ==> r.st.comment == parts.0 && r.st.command == Strip(body) + " " + parts.0)
            && (r.Invalid? ==> r.text == body)
            && (r.Dropped? <==> StartsWith(body, '#') && |Split(body)| == 3 && Split(body)[1] != "=")
            && (r.Invalid? <==> || (StartsWith(body, '#') && |Split(body)| != 3)
                                || (body != [] && !StartsWith(body, '#') && |Split(body)| > 0
                                    && NormalizeCode(Split(body)[0]).None?))
            && (body == [] ==> r.Parsed? && r.st.code == "")
            && (r.Parsed? && StartsWith(body, '#') ==> r.st.args == Assignment(Split(body)[0], Split(body)[2]))
            && (r.Parsed? && body != [] && !StartsWith(body, '#') ==>
                  && |Split(body)| > 0
                  && Some(r.st.code) == NormalizeCode(Split(body)[0])
                  && r.st.args == Words(Split(body)[1..]))
    ensures r.Parsed? ==> r.st.lineNumber == n
    ensures r.Parsed? ==> (r.st.code == "" <==> r.st.args.NoArgs?)
    ensures r.Parsed? && r.st.args.Words? ==>
              NonEmptyTokens(r.st.args.words) && r.st.params == Params(r.st.args.words)
    ensures r.Parsed? ==> NormalizeCode(r.st.code) == Some(r.st.code)
    ensures r.Parsed? && r.st.args.Assignment? ==> r.st.code == "=" && StartsWith(r.st.args.name, '#')
  {
    var parts := SplitComment(Strip(line));
    ParseBody(parts.1, parts.0, Strip(parts.1) + " " + parts.0, n)
  }

  /** The code part of a line, once the comment is split off: an assignment, nothing, or a code. */
  function ParseBody(body: string, comment: string, command: string, n: nat): (r: LineOutcome)
    requires body == [] || !IsSpace(body[0])
    ensures StartsWith(body, '#') ==>
              var args := Split(body);
              && (r.Invalid? <==> |args| != 3)
              && (r.Dropped? <==> |args| == 3 && args[1] != "=")
              && (r.Parsed? ==> r.st.code == "=" && r.st.args == Assignment(args[0], args[2]) && r.st.params == map[])
    ensures body == [] ==> r == Parsed(Statement("", NoArgs, map[], comment, command, n))
    ensures body != [] && !StartsWith(body, '#') ==>
              var args := Split(body);
              && |args| > 0 && !r.Dropped?
              && (r.Invalid? <==> NormalizeCode(args[0]).None?)
              && (r.Parsed? ==> Some(r.st.code) == NormalizeCode(args[0]) && r.st.args == Words(args[1..]))
    ensures r.Invalid? ==> r.text == body
    ensures r.Parsed? ==> r.st.lineNumber == n && r.st.comment == comment && r.st.command == command
    ensures r.Parsed? ==> (r.st.code == "" <==> r.st.args.NoArgs?)
    ensures r.Parsed? && r.st.args.Words? ==>
              NonEmptyTokens(r.st.args.words) && r.st.params == Params(r.st.args.words)
    ensures r.Parsed? ==> NormalizeCode(r.st.code) == Some(r.st.code)
    ensures r.Parsed? && r.st.args.Assignment? ==> r.st.code == "=" && StartsWith(r.st.args.name, '#')
  {
    if StartsWith(body, '#') then AssignmentBody(body, comment, command, n)
    else if body == [] then Parsed(Statement("", NoArgs, map[], comment, command, n))
    else CodeBody(body, comment, command, n)
  }

  /** The code part of a `#` line, split into its tokens. */
  function AssignmentBody(body: string, comment: string, command: string, n: nat): (r: LineOutcome)
    requires StartsWith(body, '#')
    ensures var args := Split(body);
            && (r.Invalid? <==> |args| != 3)
            && (r.Dropped? <==> |args| == 3 && args[1] != "=")
            && (r.Parsed? ==> r.st == Statement("=", Assignment(args[0], args[2]), map[], comment, command, n))
    ensures r.Invalid? ==> r.text == body
    ensures r.Parsed? ==> StartsWith(r.st.args.name, '#')
  {
    var args := Split(body);
    SplitTokens(body);
    assert |args| > 0 ==> args[0][0] == '#' by { SplitFirstToken(body); }
    ParseAssignment(body, args, comment, command, n)
  }

  /** The code part of any other non-blank line, split into its tokens. */
  function CodeBody(body: string, comment: string, command: string, n: nat): (r: LineOutcome)
    requires body != [] && !IsSpace(body[0]) && !StartsWith(body, '#')
    ensures var args := Split(body);
            && |args| > 0 && NonEmptyTokens(args[1..]) && !r.Dropped?
            && (r.Invalid? <==> NormalizeCode(args[0]).None?)
            && (r.Parsed? ==> r.st == Statement(NormalizeCode(args[0]).value, Words(args[1..]), Params(args[1..]), comment, command, n))
    ensures r.Invalid? ==> r.text == body
    ensures r.Parsed? ==> r.st.code != "" && NormalizeCode(r.st.code) == Some(r.st.code)
  {
    var args := Split(body);
    assert args != [] by { SplitFirstToken(body); }
    SplitTokens(body);
    ParseCode(body, args, comment, command, n)
  }

  /** The first token of a line starts with the line's first non-blank character. */
  lemma SplitFirstToken(body: string)
    requires body != [] && !IsSpace(body[0])
    ensures Split(body) != [] && Split(body)[0][0] == body[0]
  {
    assert !AllSpace(body);
    assert SpaceRun(body) == 0;
  }

  /** The tokens of a line, and those after its code, are never empty. */
  lemma SplitTokens(body: string)
    ensures NonEmptyTokens(Split(body))
    ensures Split(body) != [] ==> NonEmptyTokens(Split(body)[1..])
  {
    var r := Split(body);
    forall i | 0 <= i < |r| ensures r[i] != [] {
      assert r[i] in r;
    }
  }

  /** What reading one more line does to the program. */
  function Read(p: Program, line: string): (r: Program)
    ensures |r.statements| + |r.invalidLines| <= |p.statements| + |p.invalidLines| + 1
    ensures var o := ParseLine(line, |p.statements|);
            && |r.statements| == |p.statements| + (if o.Parsed? then 1 else 0)
            && |r.invalidLines| == |p.invalidLines| + (if o.Invalid? then 1 else 0)
            && r.statements[..|p.statements|] == p.statements
            && r.invalidLines[..|p.invalidLines|] == p.invalidLines
            && (o.Parsed? ==> r.statements[|p.statements|] == o.st)
            && (o.Invalid? ==> r.invalidLines[|p.invalidLines|] == o.text)
  {
    Record(p, ParseLine(line, |p.statements|))
  }

  /** The program with one line's outcome added: a statement, an invalid line, or nothing. */
  function Record(p: Program, o: LineOutcome): (r: Program)
    ensures |r.statements| == |p.statements| + (if o.Parsed? then 1 else 0)
    ensures |r.invalidLines| == |p.invalidLines| + (if o.Invalid? then 1 else 0)
    ensures r.statements[..|p.statements|] == p.statements
    ensures r.invalidLines[..|p.invalidLines|] == p.invalidLines
    ensures o.Parsed? ==> r.statements[|p.statements|] == o.st
    ensures o.Invalid? ==> r.invalidLines[|p.invalidLines|] == o.text
  {
    match o
    case Parsed(st) =>
      assert (p.statements + [st])[..|p.statements|] == p.statements;
      p.(statements := p.statements + [st])
    case Invalid(text) =>
      assert (p.invalidLines + [text])[..|p.invalidLines|] == p.invalidLines;
      p.(invalidLines := p.invalidLines + [text])
    case Dropped => p
  }

  /** A `#` line of three tokens whose middle one is not `=`: it is skipped without a word. */
  predicate SilentlyDropped(line: string) {
    var body := SplitComment(Strip(line)).1;
    StartsWith(body, '#') && |Split(body)| == 3 && Split(body)[1] != "="
  }

  /** How many of the lines are dropped. */
  function DroppedCount(lines: seq<string>): (k: nat)
    ensures k <= |lines|
  {
    if lines == [] then 0
    else DroppedCount(lines[..|lines| - 1]) + (if SilentlyDropped(lines[|lines| - 1]) then 1 else 0)
  }

  /** `parse_program` over the lines read so far. */
  function ParseLines(lines: seq<string>): (p: Program)
    ensures |p.statements| + |p.invalidLines| + DroppedCount(lines) == |lines|
  {
    if lines == [] then Program([], [])
    else Read(ParseLines(lines[..|lines| - 1]), lines[|lines| - 1])
  }

  /** Reading one more line is one more `Read`: the program of the earlier lines is kept. */
  lemma ParseLinesSnoc(lines: seq<string>, line: string)
    ensures ParseLines(lines + [line]) == Read(ParseLines(lines), line)
    ensures ParseLines(lines).statements <= ParseLines(lines + [line]).statements
    ensures ParseLines(lines).invalidLines <= ParseLines(lines + [line]).invalidLines
  {
    assert (lines + [line])[..|lines|] == lines;
  }

  /** `parse_program`: the lines are read one at a time. */
  method ParseProgram(lines: seq<string>) returns (prog: Program)
    ensures prog == ParseLines(lines)
  {
    prog := Program([], []);
    for i := 0 to |lines|
      invariant prog == ParseLines(lines[..i])
    {
      assert lines[..i + 1][..i] == lines[..i];
      ghost var before := prog;
      var outcome := ParseLine(lines[i], |prog.statements|);
      match outcome {
        case Parsed(st) => prog := prog.(statements := prog.statements + [st]);
        case Invalid(text) => prog := prog.(invalidLines := prog.invalidLines + [text]);
        case Dropped =>
      }
      assert prog == Read(before, lines[i]);
      assert lines[..i + 1][i] == lines[i];
      assert ParseLines(lines[..i + 1]) == Read(ParseLines(lines[..i]), lines[i]);
    }
    assert lines[..|lines|] == lines;
  }

  /** Each statement's line number is its index in the program, not its line in the file. */
  lemma {:induction false} LineNumbersAreIndices(lines: seq<string>)
    ensures forall i :: 0 <= i < |ParseLines(lines).statements| ==> ParseLines(lines).statements[i].lineNumber == i
  {
    if lines != [] {
      LineNumbersAreIndices(lines[..|lines| - 1]);
    }
  }

  /** Every statement of a program carries a code that normalising leaves unchanged. */
  lemma {:induction false} CodesAreNormal(lines: seq<string>)
    ensures forall st :: st in ParseLines(lines).statements ==> NormalizeCode(st.code) == Some(st.code)
  {
    if lines != [] {
      CodesAreNormal(lines[..|lines| - 1]);
    }
  }

  /** A blank line (or one holding only a comment) is kept as a no-op statement. */
  lemma BlankLine(line: string, n: nat)
    requires AllSpace(line)
    ensures ParseLine(line, n) == Parsed(Statement("", NoArgs, map[], "", " ", n))
  {
    assert Strip(line) == [];
  }

  /** A comment line keeps the comment and has no code. */
  lemma CommentLine(text: string, n: nat)
    requires StartsWith(text, '(') && Strip(text) == text
    ensures ParseLine(text, n) == Parsed(Statement("", NoArgs, map[], text, " " + text, n))
  {
  }
}
