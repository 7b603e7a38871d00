/**
 * The expression evaluator (`State.eval_expression`, `State.eval_params`).
 *
 * An expression is split at the first `*` if there is one, else at the first
 * `/`, else `+`, else `-`; both halves are evaluated recursively. There is no
 * operator precedence and no associativity: "2+3*4" is (2+3)*4.
 */
module Expressions {
  import opened Wrappers
  import opened Strings

  datatype EvalError =
    | UnboundVariable(name: string)   // KeyError from the variable table
    | BadNumber(text: string)         // ValueError from float()
    | DivisionByZero                  // ZeroDivisionError from a / float(b)

  /** A value written `[...]`: drop the first and the last character, as `exp[1:-1]` does. */
  function Unbracket(exp: string): (e: string)
    ensures |e| <= |exp|
    ensures !StartsWith(exp, '[') ==> e == exp
    ensures StartsWith(exp, '[') && |exp| >= 2 ==> [exp[0]] + e + [exp[|exp| - 1]] == exp
    ensures StartsWith(exp, '[') && |exp| < 2 ==> e == []
  {
    if StartsWith(exp, '[') then (if |exp| >= 2 then exp[1..|exp| - 1] else []) else exp
  }

  predicate IsOperator(c: char) {
    c == '*' || c == '/' || c == '+' || c == '-'
  }

  /** The order in which the evaluator looks for operators. */
  function Rank(op: char): nat
    requires IsOperator(op)
  {
    if op == '*' then 0 else if op == '/' then 1 else if op == '+' then 2 else 3
  }

  /** Where the evaluator splits `e`: the first `*`, else the first `/`, else `+`, else `-`. */
  function SplitPoint(e: string): (r: Option<nat>)
    ensures r.Some? ==> r.value < |e| && IsOperator(e[r.value])
    ensures r.None? ==> forall i :: 0 <= i < |e| ==> !IsOperator(e[i])
  {
    match IndexOf(e, '*')
    case Some(i) => Some(i)
    case None =>
      match IndexOf(e, '/')
      case Some(i) => Some(i)
      case None =>
        match IndexOf(e, '+')
        case Some(i) => Some(i)
        case None => IndexOf(e, '-')
  }

  /** The `OPERATIONS` table. Division by zero raises in Python. */
  function Apply(op: char, a: real, b: real): (r: Result<real, EvalError>)
    requires IsOperator(op)
    ensures r.Err? <==> op == '/' && b == 0.0
    ensures r.Err? ==> r.error == DivisionByZero
    ensures r.Ok? && op == '+' ==> r.value - b == a
    ensures r.Ok? && op == '-' ==> r.value + b == a
    ensures r.Ok? && op == '/' ==> r.value * b == a
    ensures r.Ok? && op == '*' && b != 0.0 ==> r.value / b == a
    ensures op == '*' && b == 0.0 ==> r == Ok(0.0)
  {
    if op == '*' then
      var p := a * b;
      assert b != 0.0 ==> p / b == a;
      assert b == 0.0 ==> p == 0.0;
      Ok(p)
    else if op == '/' then
      if b == 0.0 then Err(DivisionByZero)
      else
        var q := a / b;
        assert q * b == a;
        Ok(q)
    else if op == '+' then Ok(a + b)
    else Ok(a - b)
  }

  /** `eval_expression(exp)` against the variable table `vars`: brackets are stripped once, then the rest is read. */
  function Eval(exp: string, vars: map<string, real>): (r: Result<real, EvalError>)
    ensures r == Err(DivisionByZero) ==> '/' in exp
    ensures r.Err? && r.error.UnboundVariable? ==> StartsWith(r.error.name, '#') && r.error.name !in vars
    ensures r.Err? && r.error.BadNumber? ==> r.error.text != [] && ParseFloat(r.error.text).None?
    ensures Unbracket(exp) == [] ==> r == Ok(0.0)
    decreases |exp|, 1
  {
    var e := Unbracket(exp);
    assert '/' in e ==> '/' in exp;
    EvalContents(e, vars)
  }

  /** The body of `eval_expression` after the brackets are gone: split at an operator, or read an operand. */
  function EvalContents(e: string, vars: map<string, real>): (r: Result<real, EvalError>)
    ensures r == Err(DivisionByZero) ==> '/' in e
    ensures r.Err? && r.error.UnboundVariable? ==> StartsWith(r.error.name, '#') && r.error.name !in vars
    ensures r.Err? && r.error.BadNumber? ==> r.error.text != [] && ParseFloat(r.error.text).None?
    ensures e == [] ==> r == Ok(0.0)
    decreases |e|, 0
  {
    if e == [] then Ok(0.0)
    else match SplitPoint(e)
      case Some(i) =>
        assert '/' in e[..i] ==> '/' in e;
        assert '/' in e[i + 1..] ==> '/' in e;
        var left :- Eval(e[..i], vars);
        var right :- Eval(e[i + 1..], vars);
        Apply(e[i], left, right)
      case None =>
        if StartsWith(e, '#') then
          (if e in vars then Ok(vars[e]) else Err(UnboundVariable(e)))
        else
          match ParseFloat(e)
          case Some(v) => Ok(v)
          case None => Err(BadNumber(e))
  }

  /** Left operand first, then right, then the operator: the order Python raises in. */
  function Combine(op: char, left: Result<real, EvalError>, right: Result<real, EvalError>): Result<real, EvalError>
    requires IsOperator(op)
  {
    if left.Err? then left else if right.Err? then right else Apply(op, left.value, right.value)
  }

  /** Every operator in `s` is ranked `r` or later (any rank above 3 means: no operator at all). */
  predicate RanksFrom(s: string, r: nat) {
    forall i :: 0 <= i < |s| && IsOperator(s[i]) ==> Rank(s[i]) >= r
  }

  /** An operand: a number or a variable reference, with no operator and no bracket. */
  predicate Operand(x: string) {
    !StartsWith(x, '[') && RanksFrom(x, 4)
  }

  lemma RanksFromConcat(a: string, op: char, b: string, r: nat)
    requires IsOperator(op) && Rank(op) >= r && RanksFrom(a, r) && RanksFrom(b, r)
    ensures RanksFrom(a + [op] + b, r)
  {
    var s := a + [op] + b;
    forall i | 0 <= i < |s| && IsOperator(s[i]) ensures Rank(s[i]) >= r {
      if i < |a| {
        assert s[i] == a[i];
      } else if i > |a| {
        assert s[i] == b[i - |a| - 1];
      }
    }
  }

  /** The split point of `x op y` is that `op` when `x` holds only later-ranked operators and `y` no earlier-ranked one. */
  lemma SplitPointAt(x: string, op: char, y: string)
    requires IsOperator(op) && RanksFrom(x, Rank(op) + 1) && RanksFrom(y, Rank(op))
    ensures SplitPoint(x + [op] + y) == Some(|x|)
  {
    var s := x + [op] + y;
    forall c | IsOperator(c) && Rank(c) < Rank(op)
      ensures IndexOf(s, c) == None
    {
      forall i | 0 <= i < |s| ensures s[i] != c {
        if i < |x| {
          assert s[i] == x[i];
        } else if i > |x| {
          assert s[i] == y[i - |x| - 1];
        }
      }
    }
    assert op !in x by {
      forall i | 0 <= i < |x| ensures x[i] != op {
      }
    }
    IndexOfAfter(x, op, y);
  }

  /**
   * The split point is the first occurrence of the lowest-ranked operator
   * present, wherever it stands: `x op y` evaluates as `x` and `y` separately
   * when `x` holds no `op` and neither half holds an operator ranked before `op`.
   */
  lemma EvalSplitsAtFirstOperator(x: string, op: char, y: string, vars: map<string, real>)
    requires IsOperator(op) && !StartsWith(x, '[')
    requires RanksFrom(x, Rank(op) + 1) && RanksFrom(y, Rank(op))
    ensures Eval(x + [op] + y, vars) == Combine(op, Eval(x, vars), Eval(y, vars))
  {
    var s := x + [op] + y;
    assert s[..|x|] == x && s[|x| + 1..] == y && s[|x|] == op;
    assert Unbracket(s) == s by { assert s[0] == (if x == [] then op else x[0]); }
    assert Eval(s, vars) == EvalContents(s, vars);
    SplitPointAt(x, op, y);
    assert EvalContents(s, vars) == Combine(op, Eval(s[..|x|], vars), Eval(s[|x| + 1..], vars));
  }

  /** A digit string is an operand and is not a variable reference. */
  lemma DigitsAreOperand(n: nat)
    ensures Operand(Digits(n)) && !StartsWith(Digits(n), '#')
  {
    var s := Digits(n);
    forall i | 0 <= i < |s| ensures !IsOperator(s[i]) {
      assert IsDigit(s[i]);
    }
  }

  /** "a+b*c" is split at the `*`, so it is (a+b)*c: "2+3*4" is 20, not 14. */
  lemma SumThenProduct(x: string, y: string, z: string, vars: map<string, real>)
    requires Operand(x) && Operand(y) && Operand(z)
    ensures Eval(x + "+" + y + "*" + z, vars) == Combine('*', Combine('+', Eval(x, vars), Eval(y, vars)), Eval(z, vars))
  {
    var l := x + "+" + y;
    assert x + "+" + y + "*" + z == l + ['*'] + z;
    assert !StartsWith(l, '[') by { assert l[0] == (if x == [] then '+' else x[0]); }
    RanksFromConcat(x, '+', y, 1);
    EvalSplitsAtFirstOperator(x, '+', y, vars);
    EvalSplitsAtFirstOperator(l, '*', z, vars);
  }

  /** "a*b+c" is split at the `*` too, so it is a*(b+c): "2*3+4" is 14. */
  lemma ProductOfSum(x: string, y: string, z: string, vars: map<string, real>)
    requires Operand(x) && Operand(y) && Operand(z)
    ensures Eval(x + "*" + y + "+" + z, vars) == Combine('*', Eval(x, vars), Combine('+', Eval(y, vars), Eval(z, vars)))
  {
    var r := y + "+" + z;
    assert x + "*" + y + "+" + z == x + ['*'] + r;
    assert RanksFrom(y, 3) && RanksFrom(z, 2) && RanksFrom(x, 1);
    EvalSplitsAtFirstOperator(y, '+', z, vars);
    EvalSplitsAtFirstOperator(x, '*', r, vars);
  }

  /** "a-b-c" is split at the first `-`, so it is a-(b-c): "5-3-1" is 3, not 1. */
  lemma DifferenceGroupsRight(x: string, y: string, z: string, vars: map<string, real>)
    requires Operand(x) && Operand(y) && Operand(z)
    ensures Eval(x + "-" + y + "-" + z, vars) == Combine('-', Eval(x, vars), Combine('-', Eval(y, vars), Eval(z, vars)))
  {
    var r := y + "-" + z;
    assert x + "-" + y + "-" + z == x + ['-'] + r;
    RanksFromConcat(y, '-', z, 3);
    EvalSplitsAtFirstOperator(y, '-', z, vars);
    EvalSplitsAtFirstOperator(x, '-', r, vars);
  }

  /** A leading minus subtracts from the empty expression, which is 0: "-5" is 0 - 5. */
  lemma LeadingMinus(n: nat, vars: map<string, real>)
    ensures Eval("-" + Digits(n), vars) == Ok(-(n as real))
  {
    var d := Digits(n);
    assert "-" + d == [] + ['-'] + d;
    DigitsAreOperand(n);
    EvalNumber(n, vars);
    assert Eval([], vars) == Ok(0.0) by { assert Unbracket([]) == []; }
    EvalSplitsAtFirstOperator([], '-', d, vars);
    assert Combine('-', Ok(0.0), Ok(n as real)) == Ok(-(n as real));
  }

  /** An empty expression, bracketed or not, is 0. */
  lemma EvalEmpty(vars: map<string, real>)
    ensures Eval("", vars) == Ok(0.0) && Eval("[]", vars) == Ok(0.0)
  {
    assert Unbracket("[]") == [];
  }

  /**
   * Text that is neither a variable nor split by an operator is read by
   * `float()`: its value when that succeeds, a BadNumber error otherwise.
   */
  lemma EvalOperand(e: string, vars: map<string, real>)
    requires e != [] && !StartsWith(e, '[') && !StartsWith(e, '#') && SplitPoint(e) == None
    ensures ParseFloat(e).Some? ==> Eval(e, vars) == Ok(ParseFloat(e).value)
    ensures ParseFloat(e).None? ==> Eval(e, vars) == Err(BadNumber(e))
  {
    assert Unbracket(e) == e;
  }

  /** One digit, a point and one digit evaluate to that decimal: "1.5" is one and a half. */
  lemma EvalOneDecimal(a: nat, b: nat, vars: map<string, real>)
    requires a < 10 && b < 10
    ensures Eval([DigitChar(a), '.', DigitChar(b)], vars) == Ok(a as real + b as real / 10.0)
  {
    var e := [DigitChar(a), '.', DigitChar(b)];
    OneDecimal(a, b);
    assert forall i :: 0 <= i < |e| ==> !IsOperator(e[i]);
    EvalOperand(e, vars);
  }

  /** A bracketed expression has the value of its contents (brackets are stripped once). */
  lemma EvalBracketed(e: string, vars: map<string, real>)
    requires !StartsWith(e, '[')
    ensures Eval("[" + e + "]", vars) == Eval(e, vars)
  {
    var s := "[" + e + "]";
    assert s[1..|s| - 1] == e;
    assert Unbracket(s) == e == Unbracket(e);
  }

  /** A reference `#name` with no operator in it is looked up and must be bound. */
  lemma EvalVariable(name: string, vars: map<string, real>)
    requires StartsWith(name, '#')
    requires forall i :: 0 <= i < |name| ==> !IsOperator(name[i])
    ensures name in vars ==> Eval(name, vars) == Ok(vars[name])
    ensures name !in vars ==> Eval(name, vars) == Err(UnboundVariable(name))
  {
  }

  /** A plain digit string evaluates to the number it spells. */
  lemma EvalNumber(n: nat, vars: map<string, real>)
    ensures Eval(Digits(n), vars) == Ok(n as real)
  {
    var s := Digits(n);
    FloatOfDigits(n);
    assert !StartsWith(s, '[') && !StartsWith(s, '#');
    assert SplitPoint(s) == None;
  }

  /**
   * Binding more variables never changes a value that could already be
   * computed: evaluation reads only the variables an expression names.
   */
  lemma {:induction false} EvalMoreBindings(exp: string, vars: map<string, real>, more: map<string, real>)
    requires forall n :: n in vars ==> n in more && more[n] == vars[n]
    requires Eval(exp, vars).Ok?
    ensures Eval(exp, more) == Eval(exp, vars)
    decreases |exp|, 1
  {
    ContentsMoreBindings(Unbracket(exp), vars, more);
  }

  lemma {:induction false} ContentsMoreBindings(e: string, vars: map<string, real>, more: map<string, real>)
    requires forall n :: n in vars ==> n in more && more[n] == vars[n]
    requires EvalContents(e, vars).Ok?
    ensures EvalContents(e, more) == EvalContents(e, vars)
    decreases |e|, 0
  {
    if e != [] {
      match SplitPoint(e)
      case Some(i) =>
        EvalMoreBindings(e[..i], vars, more);
        EvalMoreBindings(e[i + 1..], vars, more);
      case None =>
    }
  }

  /**
   * The outcome of evaluating every parameter: all the values when each one
   * succeeded, otherwise every failing key with its error.
   */
  function Gather(results: map<char, Result<real, EvalError>>): (r: Result<map<char, real>, map<char, EvalError>>)
    ensures r.Ok? <==> forall k :: k in results ==> results[k].Ok?
    ensures r.Ok? ==> r.value.Keys == results.Keys && forall k :: k in results ==> results[k] == Ok(r.value[k])
    ensures r.Err? ==> r.error != map[]
    ensures r.Err? ==> forall k :: k in r.error <==> k in results && results[k].Err?
    ensures r.Err? ==> forall k :: k in r.error ==> results[k] == Err(r.error[k])
  {
    if forall k :: k in results ==> results[k].Ok? then
      Ok(map k | k in results :: results[k].value)
    else
      var failed := map k | k in results && results[k].Err? :: results[k].error;
      assert failed != map[] by {
        var k :| k in results && results[k].Err?;
        assert k in failed;
      }
      Err(failed)
  }

  /** `eval_params`: every parameter evaluated against the variable table. */
  function EvalAll(params: map<char, string>, vars: map<string, real>): (r: Result<map<char, real>, map<char, EvalError>>)
    ensures r.Ok? <==> forall k :: k in params ==> Eval(params[k], vars).Ok?
    ensures r.Ok? ==> r.value.Keys == params.Keys && forall k :: k in params ==> Eval(params[k], vars) == Ok(r.value[k])
    ensures r.Err? ==> r.error != map[]
    ensures r.Err? ==> forall k :: k in r.error <==> k in params && Eval(params[k], vars).Err?
    ensures r.Err? ==> forall k :: k in r.error ==> Eval(params[k], vars) == Err(r.error[k])
  {
    var results := map k | k in params :: Eval(params[k], vars);
    assert results.Keys == params.Keys;
    Gather(results)
  }

  /** `eval_params`, key by key in the dictionary's (unspecified) order. */
  method EvalParams(params: map<char, string>, vars: map<string, real>) returns (r: Result<map<char, real>, map<char, EvalError>>)
    ensures r == EvalAll(params, vars)
  {
    ghost var results := map k | k in params :: Eval(params[k], vars);
    var remaining := params.Keys;
    var values: map<char, real> := map[];
    var failed: map<char, EvalError> := map[];
    while remaining != {}
      invariant remaining <= params.Keys
      invariant values.Keys !! failed.Keys && values.Keys !! remaining && failed.Keys !! remaining
      invariant values.Keys + failed.Keys + remaining == params.Keys
      invariant forall k :: k in values ==> results[k] == Ok(values[k])
      invariant forall k :: k in failed ==> results[k] == Err(failed[k])
      decreases remaining
    {
      var k :| k in remaining;
      match Eval(params[k], vars) {
        case Ok(v) => values := values[k := v];
        case Err(e) => failed := failed[k := e];
      }
      remaining := remaining - {k};
    }
    Collected(results, values, failed);
    r := if failed == map[] then Ok(values) else Err(failed);
  }

  /**
   * Once every key has been evaluated, the values and the errors collected
   * are `Gather`'s result, whatever order the keys were visited in.
   */
  lemma Collected(results: map<char, Result<real, EvalError>>, values: map<char, real>, failed: map<char, EvalError>)
    requires values.Keys !! failed.Keys && values.Keys + failed.Keys == results.Keys
    requires forall k :: k in values ==> results[k] == Ok(values[k])
    requires forall k :: k in failed ==> results[k] == Err(failed[k])
    ensures Gather(results) == if failed == map[] then Ok(values) else Err(failed)
  {
    if failed == map[] {
      assert values == map k | k in results :: results[k].value;
    } else {
      var k :| k in failed;
      assert !results[k].Ok?;
      assert failed == map k | k in results && results[k].Err? :: results[k].error;
    }
  }
}
