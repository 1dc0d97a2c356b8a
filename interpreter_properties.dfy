/** What the interpreter promises: statements run in order and nothing after a `return` is
    evaluated; without a `return` the result is 0; the variable map only grows, one binding per
    `let`; operands are evaluated left first and both always are; operators are typed; and `/`
    truncates toward zero as C# does. */
module InterpreterProperties {
  import opened Tokens
  import opened Errors
  import opened Ast
  import opened Decimal
  import opened Interpreter

  // ---- Integer division ----

  lemma DivBounds(n: nat, d: nat)
    requires d > 0
    ensures (n / d) * d <= n < (n / d) * d + d
  {
  }

  /** `TruncDiv` rounds toward zero: `q * b` has the sign of `a` (or is zero) and falls short of
      `a` in magnitude by less than `|b|`. */
  lemma TruncatesTowardZero(a: int, b: int)
    requires b != 0
    ensures var q := TruncDiv(a, b);
      Abs(q * b) <= Abs(a) < Abs(q * b) + Abs(b)
      && (a >= 0 ==> q * b >= 0) && (a <= 0 ==> q * b <= 0)
  {
    var m := Abs(a) / Abs(b);
    DivBounds(Abs(a), Abs(b));
    var q := TruncDiv(a, b);
    assert m >= 0;
    assert m * Abs(b) >= 0;
    if (a < 0) == (b < 0) {
      assert q == m;
      if b < 0 {
        assert q * b == -(m * Abs(b));
      } else {
        assert q * b == m * Abs(b);
      }
    } else {
      assert q == -m;
      if b < 0 {
        assert q * b == m * Abs(b);
      } else {
        assert q * b == -(m * Abs(b));
      }
    }
  }

  /** Integer division differs from Dafny's (Euclidean) division on negative operands. */
  lemma TruncDivExamples()
    ensures TruncDiv(-7, 2) == -3 && TruncDiv(7, -2) == -3 && TruncDiv(-7, -2) == 3 && TruncDiv(7, 2) == 3
  {
    assert Abs(-7) / Abs(2) == 3;
  }

  // ---- Expressions ----

  /** A failing left operand decides the error, whatever the right operand would do. */
  lemma LeftEvaluatedFirst(env: map<string, Value>, l: Expr, r: Expr, bop: BinaryOperator, lop: LogicalOperator)
    requires Evaluate(env, l).Err?
    ensures Evaluate(env, BinaryExpr(l, bop, r)) == Evaluate(env, l)
    ensures Evaluate(env, LogicalExpr(l, lop, r)) == Evaluate(env, l)
  {
  }

  /** Both operands are always evaluated: there is no short circuit, so `true or x` still fails
      when `x` does. */
  lemma NoShortCircuit(env: map<string, Value>, l: Expr, r: Expr, bop: BinaryOperator, lop: LogicalOperator)
    requires Evaluate(env, l).Ok? && Evaluate(env, r).Err?
    ensures Evaluate(env, BinaryExpr(l, bop, r)) == Evaluate(env, r)
    ensures Evaluate(env, LogicalExpr(l, lop, r)) == Evaluate(env, r)
  {
  }

  /** With both operands evaluated, the operator decides. */
  lemma OperatorApplied(env: map<string, Value>, l: Expr, r: Expr, bop: BinaryOperator, lop: LogicalOperator)
    requires Evaluate(env, l).Ok? && Evaluate(env, r).Ok?
    ensures Evaluate(env, BinaryExpr(l, bop, r)) == Arithmetic(bop, Evaluate(env, l).value, Evaluate(env, r).value)
    ensures Evaluate(env, LogicalExpr(l, lop, r)) == Logic(lop, Evaluate(env, l).value, Evaluate(env, r).value)
  {
  }

  /** An identifier reads the value bound to it, and an unbound one is an error. */
  lemma IdentifierReads(env: map<string, Value>, x: string)
    ensures x in env ==> Evaluate(env, Var(x)) == Ok(env[x])
    ensures x !in env ==> Evaluate(env, Var(x)) == Err(RuntimeErr(NotDefined(x)))
  {
  }

  /** `+`: display forms concatenated when either side is a string, otherwise integer addition. */
  lemma PlusMeaning(left: Value, right: Value)
    ensures left.StrVal? || right.StrVal? ==> Arithmetic(Plus, left, right) == Ok(StrVal(Display(left) + Display(right)))
    ensures left.IntVal? && right.IntVal? ==> Arithmetic(Plus, left, right) == Ok(IntVal(left.i + right.i))
    ensures Arithmetic(Plus, left, right).Err? <==> !left.StrVal? && !right.StrVal? && (left.BoolVal? || right.BoolVal?)
  {
  }

  /** `-`, `*` and `/` need two integers, and `/` a nonzero divisor; the type check comes first. */
  lemma ArithmeticTyping(op: BinaryOperator, left: Value, right: Value)
    requires op != Plus
    ensures Arithmetic(op, left, right).Ok? <==> left.IntVal? && right.IntVal? && !(op == Slash && right.i == 0)
    ensures !(left.IntVal? && right.IntVal?) ==> Arithmetic(op, left, right) == Err(RuntimeErr(TypeMismatch))
    ensures left.IntVal? && right == IntVal(0) && op == Slash ==> Arithmetic(op, left, right) == Err(RuntimeErr(DivisionByZero))
    ensures Arithmetic(op, left, right).Ok? ==> Arithmetic(op, left, right).value.IntVal?
  {
  }

  /** On two integers, `-` and `*` are subtraction and multiplication, and `/` by a nonzero
      divisor is the quotient rounded toward zero. */
  lemma IntegerArithmetic(a: int, b: int)
    ensures Arithmetic(Minus, IntVal(a), IntVal(b)) == Ok(IntVal(a - b))
    ensures Arithmetic(Asterisk, IntVal(a), IntVal(b)) == Ok(IntVal(a * b))
    ensures b != 0 ==> Arithmetic(Slash, IntVal(a), IntVal(b)) == Ok(IntVal(TruncDiv(a, b)))
  {
  }

  /** `and` and `or` on two booleans. */
  lemma LogicMeaning(op: LogicalOperator, left: bool, right: bool)
    ensures Logic(op, BoolVal(left), BoolVal(right)) == Ok(BoolVal(if op == And then left && right else left || right))
  {
  }

  /** Both operands of `and`/`or` are evaluated, but the right one need not be a boolean when
      the left one decides the result: `false and 1` is `false` and `true or 1` is `true`. */
  lemma DecidedByLeft(env: map<string, Value>, l: Expr, r: Expr, lop: LogicalOperator)
    requires Evaluate(env, l) == Ok(BoolVal(lop == Or)) && Evaluate(env, r).Ok?
    ensures Evaluate(env, LogicalExpr(l, lop, r)) == Ok(BoolVal(lop == Or))
  {
  }

  /** A left operand that does not decide the result needs a boolean on the right. */
  lemma UndecidedNeedsBoolean(env: map<string, Value>, l: Expr, r: Expr, lop: LogicalOperator)
    requires Evaluate(env, l) == Ok(BoolVal(lop == And)) && Evaluate(env, r).Ok?
    ensures Evaluate(env, LogicalExpr(l, lop, r)).Ok? <==> Evaluate(env, r).value.BoolVal?
    ensures Evaluate(env, r).value.BoolVal? ==> Evaluate(env, LogicalExpr(l, lop, r)) == Evaluate(env, r)
  {
  }

  /** The display form: `true`/`false`, decimal text with a leading `-` for negative integers,
      and a string's own characters. */
  lemma DisplayForms(v: Value)
    ensures v.BoolVal? ==> Display(v) == (if v.b then "true" else "false")
    ensures v.StrVal? ==> Display(v) == v.s
    ensures v.IntVal? && v.i >= 0 ==> AllDigits(Display(v)) && DecimalValue(Display(v)) == v.i
    ensures v.IntVal? && v.i < 0 ==> Display(v)[0] == '-' && AllDigits(Display(v)[1..]) && DecimalValue(Display(v)[1..]) == -v.i
  {
    if v.IntVal? {
      if v.i >= 0 {
        DecimalRoundTrip(v.i);
      } else {
        assert Display(v)[1..] == NatToDecimal(-v.i);
        DecimalRoundTrip(-v.i);
      }
    }
  }

  /** The value depends only on the identifiers the expression reads. */
  lemma {:induction false} EvaluateReadsNames(env1: map<string, Value>, env2: map<string, Value>, e: Expr)
    requires forall x :: x in Names(e) ==> (x in env1 <==> x in env2)
    requires forall x :: x in Names(e) && x in env1 ==> env1[x] == env2[x]
    ensures Evaluate(env1, e) == Evaluate(env2, e)
  {
    match e
    case BinaryExpr(l, _, r) =>
      EvaluateReadsNames(env1, env2, l);
      EvaluateReadsNames(env1, env2, r);
    case LogicalExpr(l, _, r) =>
      EvaluateReadsNames(env1, env2, l);
      EvaluateReadsNames(env1, env2, r);
    case _ =>
  }

  /** Binding more names never changes a value that could already be computed. */
  lemma EvaluateKeepsValue(env: map<string, Value>, env': map<string, Value>, e: Expr)
    requires env.Keys <= env'.Keys && forall k :: k in env ==> env'[k] == env[k]
    requires Evaluate(env, e).Ok?
    ensures Evaluate(env', e) == Evaluate(env, e)
  {
    ReadsBound(env, e);
    EvaluateReadsNames(env, env', e);
  }

  /** An expression that evaluates reads only bound names. */
  lemma {:induction false} ReadsBound(env: map<string, Value>, e: Expr)
    requires Evaluate(env, e).Ok?
    ensures Names(e) <= env.Keys
  {
    match e
    case BinaryExpr(l, _, r) =>
      ReadsBound(env, l);
      ReadsBound(env, r);
    case LogicalExpr(l, _, r) =>
      ReadsBound(env, l);
      ReadsBound(env, r);
    case _ =>
  }

  // ---- Statements ----

  /** `let` of a bound name fails before its expression is evaluated: the error is the same
      for every expression, including one that would itself fail. */
  lemma LetAlreadyDefined(env: map<string, Value>, x: string, e: Expr)
    requires x in env
    ensures Step(env, LetStmt(x, e)) == Stop(Err(RuntimeErr(AlreadyDefined(x))))
  {
  }

  /** Otherwise `let` adds exactly one binding, prints nothing, and keeps every other binding. */
  lemma LetBinds(env: map<string, Value>, x: string, e: Expr)
    requires x !in env && Evaluate(env, e).Ok?
    ensures Step(env, LetStmt(x, e)).Continue?
    ensures var eff := Step(env, LetStmt(x, e));
      eff.env.Keys == env.Keys + {x} && eff.env[x] == Evaluate(env, e).value && eff.printed == []
      && forall y :: y in env ==> eff.env[y] == env[y]
  {
  }

  /** A name bound by `let` reads back as the value it was bound to. */
  lemma LetThenRead(env: map<string, Value>, x: string, e: Expr, rest: seq<Stmt>)
    requires x !in env
    ensures Exec(env, [LetStmt(x, e), ReturnStmt(Some(Var(x)))] + rest) == (Evaluate(env, e), [])
  {
    var ss := [LetStmt(x, e), ReturnStmt(Some(Var(x)))] + rest;
    assert ss[0] == LetStmt(x, e) && ss[1..][0] == ReturnStmt(Some(Var(x)));
  }

  /** `print;` prints an empty line. */
  lemma PrintNothing(env: map<string, Value>, rest: seq<Stmt>)
    ensures Exec(env, [PrintStmt(None)] + rest) == Prefixed([""], Exec(env, rest))
  {
    assert ([PrintStmt(None)] + rest)[1..] == rest;
  }

  /** `print e;` prints `e`'s display form, then the program carries on unchanged. */
  lemma PrintDisplays(env: map<string, Value>, e: Expr, rest: seq<Stmt>)
    requires Evaluate(env, e).Ok?
    ensures Exec(env, [PrintStmt(Some(e))] + rest) == Prefixed([Display(Evaluate(env, e).value)], Exec(env, rest))
  {
    assert ([PrintStmt(Some(e))] + rest)[1..] == rest;
  }

  /** `return;` returns 0, and nothing after a `return` runs or prints. */
  lemma ReturnNothing(env: map<string, Value>, rest: seq<Stmt>)
    ensures Exec(env, [ReturnStmt(None)] + rest) == (Ok(IntVal(0)), [])
  {
  }

  /** The state after every statement of `ss` has run, if none of them stopped the program. */
  function Through(env: map<string, Value>, ss: seq<Stmt>): Option<(map<string, Value>, seq<string>)>
    decreases |ss|
  {
    if ss == [] then Some((env, []))
    else
      match Step(env, ss[0])
      case Stop(_) => None
      case Continue(env', printed) =>
        match Through(env', ss[1..])
        case None => None
        case Some((env'', more)) => Some((env'', printed + more))
  }

  /** Sequential composition: when `pre` runs to its end, `pre + post` runs `post` from where
      `pre` left off, after the lines `pre` printed. */
  lemma {:induction false} ExecAfter(env: map<string, Value>, pre: seq<Stmt>, post: seq<Stmt>, env': map<string, Value>, out: seq<string>)
    requires Through(env, pre) == Some((env', out))
    ensures Exec(env, pre + post) == Prefixed(out, Exec(env', post))
    decreases |pre|
  {
    if pre == [] {
      assert pre + post == post;
      assert [] + Exec(env, post).1 == Exec(env, post).1;
    } else {
      var ss := pre + post;
      assert ss[0] == pre[0] && ss[1..] == pre[1..] + post && ss[0..] == ss;
      ExecFrom(env, ss, 0);
      var eff := Step(env, pre[0]);
      var more := Through(eff.env, pre[1..]).value.1;
      ExecAfter(eff.env, pre[1..], post, env', more);
      PrefixedTwice(eff.printed, more, Exec(env', post));
    }
  }

  /** When `pre` stops the program, `post` never runs. */
  lemma {:induction false} ExecStopped(env: map<string, Value>, pre: seq<Stmt>, post: seq<Stmt>)
    requires Through(env, pre).None?
    ensures Exec(env, pre + post) == Exec(env, pre)
    decreases |pre|
  {
    var ss := pre + post;
    assert ss[0] == pre[0] && ss[1..] == pre[1..] + post;
    var eff := Step(env, pre[0]);
    if eff.Continue? {
      ExecStopped(eff.env, pre[1..], post);
    }
  }

  /** A `return` cuts the program off: whatever follows it is never evaluated. */
  lemma ReturnCutsOff(env: map<string, Value>, pre: seq<Stmt>, a: Option<Expr>, post1: seq<Stmt>, post2: seq<Stmt>)
    ensures Exec(env, pre + [ReturnStmt(a)] + post1) == Exec(env, pre + [ReturnStmt(a)] + post2)
  {
    var stop := pre + [ReturnStmt(a)];
    StopsAtReturn(env, pre, a);
    ExecStopped(env, stop, post1);
    ExecStopped(env, stop, post2);
  }

  lemma {:induction false} StopsAtReturn(env: map<string, Value>, pre: seq<Stmt>, a: Option<Expr>)
    ensures Through(env, pre + [ReturnStmt(a)]).None?
    decreases |pre|
  {
    var ss := pre + [ReturnStmt(a)];
    if pre != [] {
      assert ss[0] == pre[0] && ss[1..] == pre[1..] + [ReturnStmt(a)];
      if Step(env, pre[0]).Continue? {
        StopsAtReturn(Step(env, pre[0]).env, pre[1..], a);
      }
    }
  }

  /** Without a `return`, a program that succeeds has result 0. */
  lemma {:induction false} NoReturnGivesZero(env: map<string, Value>, ss: seq<Stmt>)
    requires forall i :: 0 <= i < |ss| ==> !ss[i].ReturnStmt?
    requires Exec(env, ss).0.Ok?
    ensures Exec(env, ss).0 == Ok(IntVal(0))
    decreases |ss|
  {
    if ss != [] {
      var eff := Step(env, ss[0]);
      if eff.Continue? {
        NoReturnGivesZero(eff.env, ss[1..]);
      }
    }
  }

  /** The variable map only grows: a binding, once made, keeps its value to the end. */
  lemma {:induction false} ThroughGrows(env: map<string, Value>, ss: seq<Stmt>)
    requires Through(env, ss).Some?
    ensures env.Keys <= Through(env, ss).value.0.Keys
    ensures forall k :: k in env ==> Through(env, ss).value.0[k] == env[k]
    decreases |ss|
  {
    if ss != [] {
      ThroughGrows(Step(env, ss[0]).env, ss[1..]);
    }
  }
}
