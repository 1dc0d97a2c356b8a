/** What the parser promises: it never reads past the end of a token sequence that ends in
    `EOF`; it accepts exactly the token sequences that spell a program in the grammar (a round
    trip with `ProgramTokens`, in both directions); operators nest to the right; a parenthesis
    is never a term; and a statement must start with a keyword. */
module ParserProperties {
  import opened Tokens
  import opened Errors
  import opened Ast
  import opened Parser

  // ---- The queue is never exhausted ----

  predicate EndsInEof(q: seq<Token>) {
    q != [] && q[|q| - 1] == EOF
  }

  /** Dropping a front token that is not `EOF` leaves a queue that still ends in `EOF`. */
  lemma DropFront(q: seq<Token>)
    requires EndsInEof(q) && q[0] != EOF
    ensures EndsInEof(q[1..])
  {
    assert |q| > 1;
  }

  lemma ConsumeNotExhausted(q: seq<Token>, kind: Token)
    requires EndsInEof(q)
    ensures Consume(q, kind) != Err(ParseErr(Exhausted))
    ensures Consume(q, kind).Ok? && kind != EOF ==> EndsInEof(Consume(q, kind).value)
  {
    if q[0] == kind && kind != EOF {
      DropFront(q);
    }
  }

  lemma {:induction false} TryExpressionNotExhausted(q: seq<Token>)
    requires EndsInEof(q)
    ensures TryExpression(q) != Err(ParseErr(Exhausted))
    ensures Expression(q) != Err(ParseErr(Exhausted))
    ensures TryExpression(q).Ok? ==> EndsInEof(TryExpression(q).value.1)
    decreases |q|
  {
    var t := Term(q);
    if t.value.0.Some? {
      DropFront(q);
      var q1 := q[1..];
      if q1[0].Binary? || q1[0].Logical? {
        DropFront(q1);
        TryExpressionNotExhausted(q1[1..]);
        if Expression(q1[1..]).Ok? {
          ExpressionIsTry(q1[1..]);
        }
      }
    }
  }

  lemma StatementNotExhausted(q: seq<Token>)
    requires EndsInEof(q)
    ensures Statement(q) != Err(ParseErr(Exhausted))
    ensures Statement(q).Ok? ==> EndsInEof(Statement(q).value.1)
  {
    match q[0]
    case Return =>
      DropFront(q);
      TryExpressionNotExhausted(q[1..]);
      if TryExpression(q[1..]).Ok? {
        ConsumeNotExhausted(TryExpression(q[1..]).value.1, SemiColon);
      }
    case Print =>
      DropFront(q);
      TryExpressionNotExhausted(q[1..]);
      if TryExpression(q[1..]).Ok? {
        ConsumeNotExhausted(TryExpression(q[1..]).value.1, SemiColon);
      }
    case Let =>
      DropFront(q);
      var q1 := q[1..];
      if q1[0].Identifier? {
        DropFront(q1);
        var q2 := q1[1..];
        ConsumeNotExhausted(q2, Equal);
        if q2[0] == Equal {
          DropFront(q2);
          TryExpressionNotExhausted(q2[1..]);
          if Expression(q2[1..]).Ok? {
            ExpressionIsTry(q2[1..]);
            ConsumeNotExhausted(Expression(q2[1..]).value.1, SemiColon);
          }
        }
      }
    case _ =>
  }

  lemma {:induction false} StatementsNotExhausted(q: seq<Token>)
    requires EndsInEof(q)
    ensures Statements(q) != Err(ParseErr(Exhausted))
    ensures Statements(q).Ok? ==> EndsInEof(Statements(q).value.1)
    decreases |q|
  {
    if q[0] != EOF {
      StatementNotExhausted(q);
      if Statement(q).Ok? {
        StatementsNotExhausted(Statement(q).value.1);
      }
    }
  }

  /** If the token sequence ends in `EOF`, the parser never peeks at or dequeues from an empty
      queue: every outcome is a program or a parse error about a token it actually saw. */
  lemma ParserNeverExhausted(q: seq<Token>)
    requires EndsInEof(q)
    ensures ProgramOf(q) != Err(ParseErr(Exhausted))
  {
    StatementsNotExhausted(q);
    if Statements(q).Ok? {
      ConsumeNotExhausted(Statements(q).value.1, EOF);
    }
  }

  // ---- The grammar, as token sequences ----

  /** Expressions the grammar can produce: the left operand of every operator is a term. */
  predicate WellFormed(e: Expr) {
    match e
    case BinaryExpr(l, _, r) => l.IsTerm() && WellFormed(r)
    case LogicalExpr(l, _, r) => l.IsTerm() && WellFormed(r)
    case _ => true
  }

  predicate WellFormedArg(a: Option<Expr>) {
    a.Some? ==> WellFormed(a.value)
  }

  predicate WellFormedStmt(s: Stmt) {
    match s
    case LetStmt(_, e) => WellFormed(e)
    case PrintStmt(a) => WellFormedArg(a)
    case ReturnStmt(a) => WellFormedArg(a)
  }

  predicate WellFormedProgram(p: Program) {
    forall i :: 0 <= i < |p.statements| ==> WellFormedStmt(p.statements[i])
  }

  function TermToken(e: Expr): Token
    requires e.IsTerm()
  {
    match e
    case BoolLit(b) => Boolean(b)
    case IntLit(n) => Integer(n)
    case StrLit(s) => String(s)
    case Var(x) => Identifier(x)
  }

  /** The tokens that spell an expression, operators written between their operands. */
  function ExprTokens(e: Expr): seq<Token> {
    match e
    case BinaryExpr(l, op, r) => ExprTokens(l) + [Binary(op)] + ExprTokens(r)
    case LogicalExpr(l, op, r) => ExprTokens(l) + [Logical(op)] + ExprTokens(r)
    case _ => [TermToken(e)]
  }

  function ArgTokens(a: Option<Expr>): seq<Token> {
    if a.Some? then ExprTokens(a.value) else []
  }

  function StmtTokens(s: Stmt): seq<Token> {
    match s
    case LetStmt(x, e) => [Let, Identifier(x), Equal] + ExprTokens(e) + [SemiColon]
    case PrintStmt(a) => [Print] + ArgTokens(a) + [SemiColon]
    case ReturnStmt(a) => [Return] + ArgTokens(a) + [SemiColon]
  }

  function StmtsTokens(ss: seq<Stmt>): seq<Token> {
    if ss == [] then [] else StmtTokens(ss[0]) + StmtsTokens(ss[1..])
  }

  /** The tokens that spell a program: its statements, then `EOF`. */
  function ProgramTokens(p: Program): seq<Token> {
    StmtsTokens(p.statements) + [EOF]
  }

  /** A queue whose front token ends an expression: present, and not an operator. */
  predicate EndsExpression(rest: seq<Token>) {
    rest != [] && !rest[0].Binary? && !rest[0].Logical?
  }

  lemma CombineTokens(l: Expr, op: Token, r: Expr)
    requires op.Binary? || op.Logical?
    ensures ExprTokens(Combine(l, op, r)) == ExprTokens(l) + [op] + ExprTokens(r)
    ensures WellFormed(Combine(l, op, r)) <==> l.IsTerm() && WellFormed(r)
  {
  }

  // ---- Parsing what the grammar spells ----

  lemma TermOfTokens(e: Expr, rest: seq<Token>)
    requires e.IsTerm()
    ensures Term([TermToken(e)] + rest) == Ok((Some(e), rest))
  {
    assert ([TermToken(e)] + rest)[1..] == rest;
  }

  /** One step of `TryExpression` once a term has been read: without an operator after it the
      term is the whole expression, otherwise it is the left operand of what follows. */
  lemma TryExpressionStep(q: seq<Token>)
    requires Term(q).Ok? && Term(q).value.0.Some? && |q| >= 2
    ensures !(q[1].Binary? || q[1].Logical?) ==> TryExpression(q) == Ok((Term(q).value.0, q[1..]))
    ensures (q[1].Binary? || q[1].Logical?) && Expression(q[2..]).Ok? ==>
      TryExpression(q) == Ok((Some(Combine(Term(q).value.0.value, q[1], Expression(q[2..]).value.0)), Expression(q[2..]).value.1))
  {
    assert q[1..][0] == q[1] && q[1..][1..] == q[2..];
  }

  /** An expression that parses starts with a term; if an operator follows, the rest parses too. */
  lemma TryExpressionFront(q: seq<Token>)
    requires TryExpression(q).Ok? && TryExpression(q).value.0.Some?
    ensures Term(q).Ok? && Term(q).value.0.Some? && |q| >= 2
    ensures (q[1].Binary? || q[1].Logical?) ==> Expression(q[2..]).Ok?
  {
    assert q[1..][1..] == q[2..];
  }

  /** The term `Term` reads is spelled by the one token it consumed. */
  lemma TermSpelled(q: seq<Token>)
    requires Term(q).Ok? && Term(q).value.0.Some?
    ensures ExprTokens(Term(q).value.0.value) == [q[0]]
  {
  }

  /** `Expression` is `TryExpression` with a missing expression made an error. */
  lemma ExpressionIsTry(q: seq<Token>)
    requires Expression(q).Ok?
    ensures TryExpression(q) == Ok((Some(Expression(q).value.0), Expression(q).value.1))
  {
  }

  /** A well-formed expression's tokens parse back to it. */
  lemma {:induction false} ParseExprTokens(e: Expr, rest: seq<Token>)
    requires WellFormed(e) && EndsExpression(rest)
    ensures TryExpression(ExprTokens(e) + rest) == Ok((Some(e), rest))
    ensures Expression(ExprTokens(e) + rest) == Ok((e, rest))
  {
    var q := ExprTokens(e) + rest;
    if e.IsTerm() {
      assert ExprTokens(e) == [TermToken(e)];
      TermOfTokens(e, rest);
      assert q[1..] == rest;
      TryExpressionStep(q);
    } else {
      var l, op, r := e.left, if e.BinaryExpr? then Binary(e.bop) else Logical(e.lop), e.right;
      assert Combine(l, op, r) == e;
      CombineTokens(l, op, r);
      TermTokens(l);
      var tail := [op] + (ExprTokens(r) + rest);
      Assoc([TermToken(l)] + [op], ExprTokens(r), rest);
      assert q == [TermToken(l)] + tail;
      TermOfTokens(l, tail);
      assert q[1] == op && q[2..] == tail[1..] == ExprTokens(r) + rest;
      ParseExprTokens(r, rest);
      TryExpressionStep(q);
    }
  }

  /** Conversely, whatever `TryExpression` parses is well formed and was spelled by its tokens. */
  lemma {:induction false} ExprTokensOfParse(q: seq<Token>)
    requires TryExpression(q).Ok? && TryExpression(q).value.0.Some?
    ensures WellFormed(TryExpression(q).value.0.value)
    ensures q == ExprTokens(TryExpression(q).value.0.value) + TryExpression(q).value.1
    ensures EndsExpression(TryExpression(q).value.1)
    decreases |q|
  {
    TryExpressionFront(q);
    TermSpelled(q);
    var left := Term(q).value.0.value;
    TryExpressionStep(q);
    if q[1].Binary? || q[1].Logical? {
      var q2 := q[2..];
      ExpressionIsTry(q2);
      ExprTokensOfParse(q2);
      var right, rest := Expression(q2).value.0, Expression(q2).value.1;
      var e := Combine(left, q[1], right);
      assert TryExpression(q).value == (Some(e), rest);
      CombineTokens(left, q[1], right);
      assert q2 == ExprTokens(right) + rest;
      Assoc([q[0]] + [q[1]], ExprTokens(right), rest);
      assert q == [q[0]] + [q[1]] + q2;
    } else {
      assert q == [q[0]] + q[1..];
    }
  }

  lemma Assoc<T>(a: seq<T>, b: seq<T>, c: seq<T>)
    ensures a + (b + c) == a + b + c
  {
  }

  lemma PrefixOfConcat<T>(a: seq<T>, b: seq<T>)
    ensures (a + b)[..|a|] == a
  {
  }

  /** With no term at the front, `TryExpression` consumes nothing. */
  lemma NoTermNoExpression(q: seq<Token>)
    requires TryExpression(q).Ok? && TryExpression(q).value.0.None?
    ensures q != [] && !q[0].Boolean? && !q[0].Integer? && !q[0].String? && !q[0].Identifier?
    ensures TryExpression(q).value.1 == q
  {
  }

  lemma ParseArgTokens(a: Option<Expr>, rest: seq<Token>)
    requires WellFormedArg(a) && rest != [] && rest[0] == SemiColon
    ensures TryExpression(ArgTokens(a) + rest) == Ok((a, rest))
  {
    if a.Some? {
      ParseExprTokens(a.value, rest);
    } else {
      assert ArgTokens(a) + rest == rest;
    }
  }

  lemma ParseLetTokens(x: string, e: Expr, rest: seq<Token>)
    requires WellFormed(e)
    ensures LetStatement(StmtTokens(LetStmt(x, e)) + rest) == Ok((LetStmt(x, e), rest))
  {
    var semi := [SemiColon] + rest;
    var q3 := ExprTokens(e) + semi;
    var q := [Let, Identifier(x), Equal] + q3;
    assert StmtTokens(LetStmt(x, e)) + rest == q;
    LetSteps(q, x, q3);
    ParseExprTokens(e, semi);
    assert Consume(semi, SemiColon) == Ok(rest) by { assert semi[1..] == rest; }
  }

  lemma LetSteps(q: seq<Token>, x: string, q3: seq<Token>)
    requires q == [Let, Identifier(x), Equal] + q3
    ensures Consume(q, Let).Ok? && IdentifierName(Consume(q, Let).value) == Ok((x, [Equal] + q3))
    ensures Consume([Equal] + q3, Equal) == Ok(q3)
  {
    assert q[1..] == [Identifier(x), Equal] + q3;
    assert q[1..][1..] == [Equal] + q3;
    assert ([Equal] + q3)[1..] == q3;
  }

  lemma ParseArgStmtTokens(keyword: Token, a: Option<Expr>, rest: seq<Token>)
    requires WellFormedArg(a) && (keyword == Print || keyword == Return)
    ensures var q := [keyword] + ArgTokens(a) + [SemiColon] + rest;
      Consume(q, keyword).Ok? && TryExpression(Consume(q, keyword).value) == Ok((a, [SemiColon] + rest))
      && Consume([SemiColon] + rest, SemiColon) == Ok(rest)
  {
    var semi := [SemiColon] + rest;
    var q1 := ArgTokens(a) + semi;
    var q := [keyword] + q1;
    assert [keyword] + ArgTokens(a) + [SemiColon] + rest == q;
    assert Consume(q, keyword) == Ok(q1) by { assert q[1..] == q1; }
    ParseArgTokens(a, semi);
    assert Consume(semi, SemiColon) == Ok(rest) by { assert semi[1..] == rest; }
  }

  lemma ParseStmtTokens(s: Stmt, rest: seq<Token>)
    requires WellFormedStmt(s)
    ensures Statement(StmtTokens(s) + rest) == Ok((s, rest))
  {
    match s
    case LetStmt(x, e) =>
      ParseLetTokens(x, e, rest);
    case PrintStmt(a) =>
      ParseArgStmtTokens(Print, a, rest);
      assert StmtTokens(s) + rest == [Print] + ArgTokens(a) + [SemiColon] + rest;
    case ReturnStmt(a) =>
      ParseArgStmtTokens(Return, a, rest);
      assert StmtTokens(s) + rest == [Return] + ArgTokens(a) + [SemiColon] + rest;
  }

  lemma {:induction false} ParseStmtsTokens(ss: seq<Stmt>, rest: seq<Token>)
    requires forall i :: 0 <= i < |ss| ==> WellFormedStmt(ss[i])
    requires rest != [] && rest[0] == EOF
    ensures Statements(StmtsTokens(ss) + rest) == Ok((ss, rest))
  {
    if ss == [] {
      assert StmtsTokens(ss) + rest == rest;
    } else {
      var tail := StmtsTokens(ss[1..]) + rest;
      assert StmtsTokens(ss) + rest == StmtTokens(ss[0]) + tail;
      ParseStmtTokens(ss[0], tail);
      ParseStmtsTokens(ss[1..], rest);
      assert StmtTokens(ss[0]) != [] && (StmtTokens(ss[0]) + tail)[0] != EOF;
      assert [ss[0]] + ss[1..] == ss;
    }
  }

  /** Round trip: a well-formed program's tokens parse back to it, whatever follows `EOF`. */
  lemma ParseProgramTokens(p: Program, rest: seq<Token>)
    requires WellFormedProgram(p)
    ensures ProgramOf(ProgramTokens(p) + rest) == Ok(p)
  {
    var after := [EOF] + rest;
    Assoc(StmtsTokens(p.statements), [EOF], rest);
    assert ProgramTokens(p) + rest == StmtsTokens(p.statements) + after;
    ParseStmtsTokens(p.statements, after);
    assert Consume(after, EOF) == Ok(rest);
  }

  // ---- What the parser accepts is what the grammar spells ----

  lemma StmtTokensOfParse(q: seq<Token>)
    requires Statement(q).Ok?
    ensures WellFormedStmt(Statement(q).value.0)
    ensures q == StmtTokens(Statement(q).value.0) + Statement(q).value.1
  {
    match q[0]
    case Return => ReturnOfParse(q);
    case Print => PrintOfParse(q);
    case Let => LetOfParse(q);
  }

  lemma ReturnOfParse(q: seq<Token>)
    requires ReturnStatement(q).Ok?
    ensures WellFormedStmt(ReturnStatement(q).value.0)
    ensures q == StmtTokens(ReturnStatement(q).value.0) + ReturnStatement(q).value.1
  {
    var q1 := Consume(q, Return).value;
    var v := TryExpression(q1).value;
    assert ReturnStatement(q) == Ok((ReturnStmt(v.0), v.1[1..]));
    ArgOfParse(q1);
    var rest := v.1[1..];
    assert v.1 == [SemiColon] + rest;
    assert q == [Return] + (ArgTokens(v.0) + ([SemiColon] + rest));
    SpellArgStatement(Return, v.0, rest);
  }

  lemma PrintOfParse(q: seq<Token>)
    requires PrintStatement(q).Ok?
    ensures WellFormedStmt(PrintStatement(q).value.0)
    ensures q == StmtTokens(PrintStatement(q).value.0) + PrintStatement(q).value.1
  {
    var q1 := Consume(q, Print).value;
    var v := TryExpression(q1).value;
    assert PrintStatement(q) == Ok((PrintStmt(v.0), v.1[1..]));
    ArgOfParse(q1);
    var rest := v.1[1..];
    assert v.1 == [SemiColon] + rest;
    assert q == [Print] + (ArgTokens(v.0) + ([SemiColon] + rest));
    SpellArgStatement(Print, v.0, rest);
  }

  lemma SpellArgStatement(keyword: Token, a: Option<Expr>, rest: seq<Token>)
    ensures keyword == Return ==> StmtTokens(ReturnStmt(a)) + rest == [keyword] + (ArgTokens(a) + ([SemiColon] + rest))
    ensures keyword == Print ==> StmtTokens(PrintStmt(a)) + rest == [keyword] + (ArgTokens(a) + ([SemiColon] + rest))
  {
  }

  lemma LetOfParse(q: seq<Token>)
    requires LetStatement(q).Ok?
    ensures WellFormedStmt(LetStatement(q).value.0)
    ensures q == StmtTokens(LetStatement(q).value.0) + LetStatement(q).value.1
  {
    LetParts(q);
    var q3 := q[3..];
    var v := Expression(q3).value;
    ExpressionIsTry(q3);
    ExprTokensOfParse(q3);
    assert q == [Let] + q[1..] && q[1..] == [q[1]] + q[2..] && q[2..] == [Equal] + q3;
    SpellLet(q, q[1..], q[2..], q3, q[1].name, v.0, v.1, v.1[1..]);
  }

  /** What a successful `LetStatement` read: `let`, a name, `=`, an expression and `;`. */
  lemma LetParts(q: seq<Token>)
    requires LetStatement(q).Ok?
    ensures |q| >= 3 && q[0] == Let && q[1].Identifier? && q[2] == Equal && Expression(q[3..]).Ok?
    ensures var v := Expression(q[3..]).value;
      v.1 != [] && v.1[0] == SemiColon && LetStatement(q) == Ok((LetStmt(q[1].name, v.0), v.1[1..]))
  {
    assert q[1..][1..] == q[2..] && q[2..][1..] == q[3..];
  }

  lemma SpellLet(q: seq<Token>, q1: seq<Token>, q2: seq<Token>, q3: seq<Token>, x: string, e: Expr, q4: seq<Token>, rest: seq<Token>)
    requires q == [Let] + q1 && q1 == [Identifier(x)] + q2 && q2 == [Equal] + q3
    requires q3 == ExprTokens(e) + q4 && q4 == [SemiColon] + rest
    ensures q == StmtTokens(LetStmt(x, e)) + rest
  {
    assert q == [Let, Identifier(x), Equal] + (ExprTokens(e) + ([SemiColon] + rest));
  }

  lemma ArgOfParse(q: seq<Token>)
    requires TryExpression(q).Ok?
    ensures WellFormedArg(TryExpression(q).value.0)
    ensures q == ArgTokens(TryExpression(q).value.0) + TryExpression(q).value.1
  {
    var r := TryExpression(q).value;
    if r.0.Some? {
      ExprTokensOfParse(q);
      assert ArgTokens(r.0) == ExprTokens(r.0.value);
    } else {
      assert r.1 == q;
      assert ArgTokens(r.0) == [];
      assert ArgTokens(r.0) + r.1 == q;
    }
  }

  lemma {:induction false} StmtsTokensOfParse(q: seq<Token>)
    requires Statements(q).Ok?
    ensures forall i :: 0 <= i < |Statements(q).value.0| ==> WellFormedStmt(Statements(q).value.0[i])
    ensures q == StmtsTokens(Statements(q).value.0) + Statements(q).value.1
    ensures Statements(q).value.1 != [] && Statements(q).value.1[0] == EOF
    decreases |q|
  {
    if q[0] == EOF {
      assert StmtsTokens([]) + q == q;
    } else {
      StatementsStep(q);
      var s, q1 := Statement(q).value.0, Statement(q).value.1;
      StmtTokensOfParse(q);
      StmtsTokensOfParse(q1);
      var more, rest := Statements(q1).value.0, Statements(q1).value.1;
      var ss := [s] + more;
      assert Statements(q).value == (ss, rest);
      assert q == StmtTokens(s) + q1;
      assert q1 == StmtsTokens(more) + rest;
      StmtsTokensCons(s, more);
      Assoc(StmtTokens(s), StmtsTokens(more), rest);
      assert forall i :: 0 <= i < |ss| ==> WellFormedStmt(ss[i]) by {
        forall i | 0 <= i < |ss|
          ensures WellFormedStmt(ss[i])
        {
          if i > 0 {
            assert ss[i] == more[i - 1];
          }
        }
      }
    }
  }

  /** `Statements` on a queue that does not start with `EOF`: one statement, then the rest. */
  lemma StatementsStep(q: seq<Token>)
    requires Statements(q).Ok? && q[0] != EOF
    ensures Statement(q).Ok? && Statements(Statement(q).value.1).Ok?
    ensures Statements(q).value ==
      ([Statement(q).value.0] + Statements(Statement(q).value.1).value.0, Statements(Statement(q).value.1).value.1)
  {
  }

  lemma StmtsTokensCons(s: Stmt, ss: seq<Stmt>)
    ensures StmtsTokens([s] + ss) == StmtTokens(s) + StmtsTokens(ss)
  {
    assert ([s] + ss)[0] == s && ([s] + ss)[1..] == ss;
  }

  /** Conversely, a token sequence that parses to `p` begins with the tokens of `p` (ending
      with the `EOF` that was consumed), and `p` is well formed. */
  lemma ProgramTokensOfParse(q: seq<Token>)
    requires ProgramOf(q).Ok?
    ensures WellFormedProgram(ProgramOf(q).value)
    ensures |ProgramTokens(ProgramOf(q).value)| <= |q|
    ensures q[..|ProgramTokens(ProgramOf(q).value)|] == ProgramTokens(ProgramOf(q).value)
  {
    StmtsTokensOfParse(q);
    var body := Statements(q).value;
    var p := Program(body.0);
    assert Consume(body.1, EOF).Ok? && ProgramOf(q) == Ok(p);
    var spelled, rest := StmtsTokens(body.0), body.1;
    assert q == spelled + rest;
    assert rest[0] == EOF;
    assert rest == [EOF] + rest[1..];
    Assoc(spelled, [EOF], rest[1..]);
    assert ProgramTokens(p) == spelled + [EOF];
    PrefixOfConcat(ProgramTokens(p), rest[1..]);
  }

  // ---- Consequences ----

  /** `t1 op1 t2 op2 t3` parses as `op1(t1, op2(t2, t3))`, for arithmetic and logical operators alike. */
  lemma RightAssociative(t1: Expr, op1: Token, t2: Expr, op2: Token, t3: Expr, rest: seq<Token>)
    requires t1.IsTerm() && t2.IsTerm() && t3.IsTerm()
    requires (op1.Binary? || op1.Logical?) && (op2.Binary? || op2.Logical?)
    requires EndsExpression(rest)
    ensures TryExpression([TermToken(t1), op1, TermToken(t2), op2, TermToken(t3)] + rest)
         == Ok((Some(Combine(t1, op1, Combine(t2, op2, t3))), rest))
  {
    var inner := Combine(t2, op2, t3);
    var e := Combine(t1, op1, inner);
    TermTokens(t1);
    TermTokens(t2);
    TermTokens(t3);
    CombineTokens(t2, op2, t3);
    assert ExprTokens(inner) == [TermToken(t2), op2, TermToken(t3)];
    CombineTokens(t1, op1, inner);
    assert ExprTokens(e) + rest == [TermToken(t1), op1, TermToken(t2), op2, TermToken(t3)] + rest;
    ParseExprTokens(e, rest);
  }

  lemma TermTokens(t: Expr)
    requires t.IsTerm()
    ensures ExprTokens(t) == [TermToken(t)] && WellFormed(t)
  {
  }

  /** `(` is never a term, so `return (` is rejected at the parenthesis. */
  lemma ParenthesisIsNotATerm(q: seq<Token>)
    ensures Term([LParen] + q) == Ok((None, [LParen] + q))
    ensures Expression([LParen] + q) == Err(ParseErr(ExpectedExpression(LParen)))
    ensures ProgramOf([Return, LParen] + q) == Err(ParseErr(UnexpectedToken(LParen, SemiColon)))
  {
    assert ([Return, LParen] + q)[1..] == [LParen] + q;
  }

  /** A statement must start with `return`, `let` or `print`. */
  lemma StatementNeedsKeyword(q: seq<Token>)
    requires q != [] && q[0] != Return && q[0] != Let && q[0] != Print && q[0] != EOF
    ensures ProgramOf(q) == Err(ParseErr(ExpectedStatement(q[0])))
  {
  }
}
