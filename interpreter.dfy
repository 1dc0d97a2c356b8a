/** The tree-walking interpreter: a program to its result and the lines it prints.

    Expressions are evaluated by pure functions over the variable map (`Evaluate`, `Arithmetic`,
    `Logic`); a statement's effect is the function `Step` and a statement list's the function
    `Exec`. The class `Machine` holds the two things `Run` updates as it goes, the variable map
    and the printed lines, and each of its methods is proved against `Step`. */
module Interpreter {
  import opened Tokens
  import opened Errors
  import opened Ast
  import opened Decimal

  /** The three kinds of value a program computes with. */
  datatype Value = IntVal(i: int) | StrVal(s: string) | BoolVal(b: bool)

  /** `StringValue` followed by `ToString`: the text `print` writes for a value and the text
      `+` concatenates. */
  function Display(v: Value): string {
    match v
    case BoolVal(b) => if b then "true" else "false"
    case IntVal(i) => IntToDecimal(i)
    case StrVal(s) => s
  }

  function Abs(x: int): nat {
    if x < 0 then -x else x
  }

  /** C#'s `/` on `int`: the quotient rounded toward zero. */
  function TruncDiv(a: int, b: int): int
    requires b != 0
  {
    var m := Abs(a) / Abs(b);
    if (a < 0) == (b < 0) then m else -m
  }

  /** `RunIdentifier`: the bound value, or an error for an unbound name. */
  function Lookup(env: map<string, Value>, x: string): (r: Result<Value>)
    ensures r.Ok? <==> x in env
    ensures r.Ok? ==> r.value == env[x]
    ensures r.Err? ==> r.error == RuntimeErr(NotDefined(x))
  {
    if x in env then Ok(env[x]) else Err(RuntimeErr(NotDefined(x)))
  }

  /** `RunBinaryExpression` once both operands are values. `+` concatenates display forms when
      either operand is a string; every other combination needs two integers. */
  function Arithmetic(op: BinaryOperator, left: Value, right: Value): (r: Result<Value>)
    ensures r.Ok? ==> (r.value.StrVal? <==> op == Plus && (left.StrVal? || right.StrVal?))
    ensures r.Ok? ==> r.value.StrVal? || r.value.IntVal?
    ensures r.Err? ==> r.error == RuntimeErr(TypeMismatch) || r.error == RuntimeErr(DivisionByZero)
  {
    if op == Plus && (left.StrVal? || right.StrVal?) then Ok(StrVal(Display(left) + Display(right)))
    else if !left.IntVal? || !right.IntVal? then Err(RuntimeErr(TypeMismatch))
    else
      match op
      case Plus => Ok(IntVal(left.i + right.i))
      case Minus => Ok(IntVal(left.i - right.i))
      case Asterisk => Ok(IntVal(left.i * right.i))
      case Slash => if right.i == 0 then Err(RuntimeErr(DivisionByZero)) else Ok(IntVal(TruncDiv(left.i, right.i)))
  }

  /** `RunLogicalExpression` once both operands are values. The left operand must be a
      boolean. The right operand is cast only when the left one does not already decide the
      result, as `&&` and `||` skip their right side: `false and 1` is `false`. */
  function Logic(op: LogicalOperator, left: Value, right: Value): (r: Result<Value>)
    ensures r.Ok? <==> left.BoolVal? && (right.BoolVal? || left.b == (op == Or))
    ensures r.Ok? ==> r.value.BoolVal?
    ensures r.Ok? && left.b == (op == Or) ==> r.value.b == left.b
    ensures r.Ok? && right.BoolVal? ==> r.value.b == (if op == And then left.b && right.b else left.b || right.b)
    ensures r.Err? ==> r.error == RuntimeErr(TypeMismatch)
  {
    if !left.BoolVal? then Err(RuntimeErr(TypeMismatch))
    else
      match op
      case And =>
        if !left.b then Ok(BoolVal(false))
        else if right.BoolVal? then Ok(BoolVal(right.b)) else Err(RuntimeErr(TypeMismatch))
      case Or =>
        if left.b then Ok(BoolVal(true))
        else if right.BoolVal? then Ok(BoolVal(right.b)) else Err(RuntimeErr(TypeMismatch))
  }

  /** The identifiers an expression reads. */
  function Names(e: Expr): set<string> {
    match e
    case Var(x) => {x}
    case BinaryExpr(l, _, r) => Names(l) + Names(r)
    case LogicalExpr(l, _, r) => Names(l) + Names(r)
    case _ => {}
  }

  /** `RunExpression`: the left operand is evaluated before the right, and both always are. */
  function Evaluate(env: map<string, Value>, e: Expr): (r: Result<Value>)
    ensures r.Err? ==> r.error.RuntimeErr?
    ensures r.Err? && r.error.runtime.NotDefined? ==> r.error.runtime.name in Names(e) && r.error.runtime.name !in env
    ensures r.Ok? && e.LogicalExpr? ==> r.value.BoolVal?
  {
    match e
    case BoolLit(b) => Ok(BoolVal(b))
    case IntLit(n) => Ok(IntVal(n))
    case StrLit(s) => Ok(StrVal(s))
    case Var(x) => Lookup(env, x)
    case BinaryExpr(l, op, r) =>
      var left :- Evaluate(env, l);
      var right :- Evaluate(env, r);
      Arithmetic(op, left, right)
    case LogicalExpr(l, op, r) =>
      var left :- Evaluate(env, l);
      var right :- Evaluate(env, r);
      Logic(op, left, right)
  }

  /** The value of an optional expression, `absent` when there is none. */
  function ArgValue(env: map<string, Value>, a: Option<Expr>, absent: Value): Result<Value> {
    if a.None? then Ok(absent) else Evaluate(env, a.value)
  }

  // ---- Statements ----

  /** What one statement does: carry on with a new variable map after printing some lines, or
      stop the program with a result. */
  datatype Effect = Continue(env: map<string, Value>, printed: seq<string>) | Stop(result: Result<Value>)

  /** `RunStatement`: `return` stops with its value (0 without one); `let` refuses a bound name
      before it evaluates anything, and otherwise binds it; `print` writes one line. */
  function Step(env: map<string, Value>, s: Stmt): (eff: Effect)
    ensures eff.Stop? && eff.result.Ok? ==> s.ReturnStmt?
    ensures eff.Stop? && eff.result.Err? ==> eff.result.error.RuntimeErr?
    ensures eff.Continue? ==> env.Keys <= eff.env.Keys && forall k :: k in env ==> eff.env[k] == env[k]
    ensures eff.Continue? ==> |eff.printed| <= 1
  {
    match s
    case ReturnStmt(a) => Stop(ArgValue(env, a, IntVal(0)))
    case LetStmt(x, e) =>
      if x in env then Stop(Err(RuntimeErr(AlreadyDefined(x))))
      else
        (match Evaluate(env, e)
         case Err(err) => Stop(Err(err))
         case Ok(v) => Continue(env[x := v], []))
    case PrintStmt(a) =>
      match ArgValue(env, a, StrVal(""))
      case Err(err) => Stop(Err(err))
      case Ok(v) => Continue(env, [Display(v)])
  }

  /** The statements in order from the map `env`: the program's result and every line printed
      before it ended. Without a `return` the result is 0. */
  function Exec(env: map<string, Value>, ss: seq<Stmt>): (r: (Result<Value>, seq<string>))
    ensures |r.1| <= |ss|
    ensures r.0.Err? ==> r.0.error.RuntimeErr?
    decreases |ss|
  {
    if ss == [] then (Ok(IntVal(0)), [])
    else
      match Step(env, ss[0])
      case Stop(result) => (result, [])
      case Continue(env', printed) =>
        var rest := Exec(env', ss[1..]);
        (rest.0, printed + rest.1)
  }

  /** A program starts with no variables. */
  function RunProgram(p: Program): (Result<Value>, seq<string>) {
    Exec(map[], p.statements)
  }

  /** `r` paired with `out` in front of `rest`'s lines. */
  function Prefixed(out: seq<string>, rest: (Result<Value>, seq<string>)): (Result<Value>, seq<string>) {
    (rest.0, out + rest.1)
  }

  // ---- The interpreter's state ----

  /** One run of a program: the `variables` dictionary and the console lines written so far. */
  class Machine {
    var variables: map<string, Value>
    var output: seq<string>

    constructor ()
      ensures variables == map[] && output == []
    {
      variables := map[];
      output := [];
    }

    /** The machine went from (`env0`, `out0`) to its state now as `eff` says, and `r` reports
        it: `Ok(None)` to carry on, `Ok(Some(v))` to return `v`, `Err` for a failure. A
        statement that stops changes nothing. */
    ghost predicate Did(r: Result<Option<Value>>, eff: Effect, env0: map<string, Value>, out0: seq<string>)
      reads this
    {
      && (eff.Continue? ==> r == Ok(None) && variables == eff.env && output == out0 + eff.printed)
      && (eff.Stop? ==> variables == env0 && output == out0)
      && (eff.Stop? && eff.result.Ok? ==> r == Ok(Some(eff.result.value)))
      && (eff.Stop? && eff.result.Err? ==> r == Err(eff.result.error))
    }

    /** `RunLet`. */
    method RunLet(x: string, e: Expr) returns (r: Result<Option<Value>>)
      modifies this
      ensures Did(r, Step(old(variables), LetStmt(x, e)), old(variables), old(output))
    {
      if x in variables {
        return Err(RuntimeErr(AlreadyDefined(x)));
      }
      var v := Evaluate(variables, e);
      if v.Err? {
        return Err(v.error);
      }
      variables := variables[x := v.value];
      return Ok(None);
    }

    /** `RunPrint`. */
    method RunPrint(a: Option<Expr>) returns (r: Result<Option<Value>>)
      modifies this
      ensures Did(r, Step(old(variables), PrintStmt(a)), old(variables), old(output))
    {
      var v := ArgValue(variables, a, StrVal(""));
      if v.Err? {
        return Err(v.error);
      }
      output := output + [Display(v.value)];
      return Ok(None);
    }

    /** `RunStatement`: only `return` gives back a value. */
    method RunStatement(s: Stmt) returns (r: Result<Option<Value>>)
      modifies this
      ensures Did(r, Step(old(variables), s), old(variables), old(output))
    {
      match s
      case ReturnStmt(a) =>
        var v := ArgValue(variables, a, IntVal(0));
        if v.Err? {
          return Err(v.error);
        }
        return Ok(Some(v.value));
      case LetStmt(x, e) =>
        r := RunLet(x, e);
      case PrintStmt(a) =>
        r := RunPrint(a);
    }
  }

  /** `Interpreter.Run`: the statements in order, stopping at the first `return` or failure;
      `output` is everything printed until then. */
  method Run(program: Program) returns (result: Result<Value>, output: seq<string>)
    ensures (result, output) == RunProgram(program)
  {
    var m := new Machine();
    var ss := program.statements;
    PrefixedNothing(Exec(map[], ss));
    assert ss[0..] == ss;
    for i := 0 to |ss|
      invariant RunProgram(program) == Prefixed(m.output, Exec(m.variables, ss[i..]))
    {
      ghost var out0 := m.output;
      ghost var eff := Step(m.variables, ss[i]);
      ExecFrom(m.variables, ss, i);
      var r := m.RunStatement(ss[i]);
      if r.Err? {
        PrefixedNothing((Err(r.error), out0));
        return Err(r.error), m.output;
      }
      if r.value.Some? {
        PrefixedNothing((Ok(r.value.value), out0));
        return Ok(r.value.value), m.output;
      }
      PrefixedTwice(out0, eff.printed, Exec(m.variables, ss[i + 1..]));
    }
    assert ss[|ss|..] == [];
    PrefixedNothing((Ok(IntVal(0)), m.output));
    return Ok(IntVal(0)), m.output;
  }

  /** `Exec` from position `i` of `ss`: the statement there, then the rest. */
  lemma ExecFrom(env: map<string, Value>, ss: seq<Stmt>, i: nat)
    requires i < |ss|
    ensures Step(env, ss[i]).Stop? ==> Exec(env, ss[i..]) == (Step(env, ss[i]).result, [])
    ensures Step(env, ss[i]).Continue? ==>
      Exec(env, ss[i..]) == Prefixed(Step(env, ss[i]).printed, Exec(Step(env, ss[i]).env, ss[i + 1..]))
  {
    assert ss[i..][0] == ss[i] && ss[i..][1..] == ss[i + 1..];
  }

  lemma PrefixedNothing(r: (Result<Value>, seq<string>))
    ensures Prefixed([], r) == r && Prefixed(r.1, (r.0, [])) == r
  {
    assert [] + r.1 == r.1 && r.1 + [] == r.1;
  }

  lemma PrefixedTwice(a: seq<string>, b: seq<string>, r: (Result<Value>, seq<string>))
    ensures Prefixed(a, Prefixed(b, r)) == Prefixed(a + b, r)
  {
    assert a + (b + r.1) == (a + b) + r.1;
  }
}
