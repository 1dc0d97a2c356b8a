/** The recursive-descent parser: a token sequence to a program.

    The specification functions (`Consume`, `Term`, `TryExpression`, `Expression`, ...,
    `ProgramOf`) work on the queue's contents, front first, and give back what is left of it.
    The class `Parser` keeps that queue as a field that `Dequeue` shortens, as the source's
    `Queue<Token>` does, and each of its methods is proved against the matching function. */
module Parser {
  import opened Tokens
  import opened Errors
  import opened Ast

  // ---- Specification over the queue contents ----

  /** `ConsumeToken(kind)`: dequeue the front token, which must be `kind`. */
  function Consume(q: seq<Token>, kind: Token): (r: Result<seq<Token>>)
    ensures r.Ok? ==> q != [] && r.value == q[1..]
  {
    if q == [] then Err(ParseErr(Exhausted))
    else if q[0] != kind then Err(ParseErr(UnexpectedToken(q[0], kind)))
    else Ok(q[1..])
  }

  /** `TryParseTerm`: a boolean, integer, string or identifier token, tried in that order;
      any other front token is left in place. */
  function Term(q: seq<Token>): (r: Result<(Option<Expr>, seq<Token>)>)
    ensures r.Ok? ==> q != []
    ensures r.Ok? && r.value.0.Some? ==> r.value.0.value.IsTerm() && r.value.1 == q[1..]
    ensures r.Ok? && r.value.0.None? ==> r.value.1 == q
  {
    if q == [] then Err(ParseErr(Exhausted))
    else
      match q[0]
      case Boolean(b) => Ok((Some(BoolLit(b)), q[1..]))
      case Integer(n) => Ok((Some(IntLit(n)), q[1..]))
      case String(s) => Ok((Some(StrLit(s)), q[1..]))
      case Identifier(x) => Ok((Some(Var(x)), q[1..]))
      case _ => Ok((None, q))
  }

  /** The node an operator token builds from its two operands. */
  function Combine(left: Expr, op: Token, right: Expr): Expr
    requires op.Binary? || op.Logical?
  {
    if op.Binary? then BinaryExpr(left, op.bop, right) else LogicalExpr(left, op.lop, right)
  }

  /** `TryBinaryOrLogicalExpression`: a term, then optionally one operator and a required
      expression, so that operators nest to the right. */
  function TryExpression(q: seq<Token>): (r: Result<(Option<Expr>, seq<Token>)>)
    ensures r.Ok? ==> |r.value.1| <= |q|
    ensures r.Ok? && r.value.0.None? ==> q != [] && r.value.1 == q
    ensures r.Ok? && r.value.0.Some? ==> |r.value.1| < |q|
    decreases |q|, 0
  {
    match Term(q)
    case Err(e) => Err(e)
    case Ok((None, _)) => Ok((None, q))
    case Ok((Some(left), q1)) =>
      if q1 == [] then Err(ParseErr(Exhausted))
      else if q1[0].Binary? || q1[0].Logical? then
        match Expression(q1[1..])
        case Err(e) => Err(e)
        case Ok((right, q2)) =>
          Ok((Some(Combine(left, q1[0], right)), q2))
      else Ok((Some(left), q1))
  }

  /** `ParseExpression`: an expression is required; the error names the front token. */
  function Expression(q: seq<Token>): (r: Result<(Expr, seq<Token>)>)
    ensures r.Ok? ==> |r.value.1| < |q|
    decreases |q|, 1
  {
    match TryExpression(q)
    case Err(e) => Err(e)
    case Ok((None, _)) => Err(ParseErr(ExpectedExpression(q[0])))
    case Ok((Some(e), rest)) => Ok((e, rest))
  }

  /** `ParseIdentifier`: the front token must be an identifier. */
  function IdentifierName(q: seq<Token>): (r: Result<(string, seq<Token>)>)
    ensures r.Ok? ==> q != [] && r.value.1 == q[1..]
  {
    if q == [] then Err(ParseErr(Exhausted))
    else if q[0].Identifier? then Ok((q[0].name, q[1..]))
    else Err(ParseErr(ExpectedIdentifier(q[0])))
  }

  /** `ParseReturn`: `return` [expression] `;`. */
  function ReturnStatement(q: seq<Token>): (r: Result<(Stmt, seq<Token>)>)
    ensures r.Ok? ==> |r.value.1| < |q|
  {
    var q1 :- Consume(q, Return);
    var value :- TryExpression(q1);
    var q2 :- Consume(value.1, SemiColon);
    Ok((ReturnStmt(value.0), q2))
  }

  /** `ParseLet`: `let` identifier `=` expression `;`. */
  function LetStatement(q: seq<Token>): (r: Result<(Stmt, seq<Token>)>)
    ensures r.Ok? ==> |r.value.1| < |q|
  {
    var q1 :- Consume(q, Let);
    var name :- IdentifierName(q1);
    var q2 :- Consume(name.1, Equal);
    var value :- Expression(q2);
    var q3 :- Consume(value.1, SemiColon);
    Ok((LetStmt(name.0, value.0), q3))
  }

  /** `ParsePrint`: `print` [expression] `;`. */
  function PrintStatement(q: seq<Token>): (r: Result<(Stmt, seq<Token>)>)
    ensures r.Ok? ==> |r.value.1| < |q|
  {
    var q1 :- Consume(q, Print);
    var value :- TryExpression(q1);
    var q2 :- Consume(value.1, SemiColon);
    Ok((PrintStmt(value.0), q2))
  }

  /** `ParseStatement`: dispatch on the keyword at the front. */
  function Statement(q: seq<Token>): (r: Result<(Stmt, seq<Token>)>)
    ensures r.Ok? ==> |r.value.1| < |q|
  {
    if q == [] then Err(ParseErr(Exhausted))
    else
      match q[0]
      case Return => ReturnStatement(q)
      case Let => LetStatement(q)
      case Print => PrintStatement(q)
      case _ => Err(ParseErr(ExpectedStatement(q[0])))
  }

  /** `ParseStatements`: statements until `EOF` is at the front (it is not consumed here). */
  function Statements(q: seq<Token>): (r: Result<(seq<Stmt>, seq<Token>)>)
    ensures r.Ok? ==> |r.value.1| <= |q|
    decreases |q|
  {
    if q == [] then Err(ParseErr(Exhausted))
    else if q[0] == EOF then Ok(([], q))
    else
      var first :- Statement(q);
      var more :- Statements(first.1);
      Ok(([first.0] + more.0, more.1))
  }

  /** `ParseProgram`: the statements, then `EOF`. */
  function ProgramOf(q: seq<Token>): Result<Program> {
    var body :- Statements(q);
    var rest :- Consume(body.1, EOF);
    Ok(Program(body.0))
  }

  // ---- Agreement between a method's result and a specification ----

  /** `r` is the value the specification gives and `now` is the queue it leaves. */
  ghost predicate Advanced<T>(r: Result<T>, spec: Result<(T, seq<Token>)>, now: seq<Token>) {
    match spec
    case Err(e) => r == Err(e)
    case Ok((v, rest)) => r == Ok(v) && now == rest
  }

  predicate Consumed(r: Result<()>, spec: Result<seq<Token>>, now: seq<Token>) {
    match spec
    case Err(e) => r == Err(e)
    case Ok(rest) => r == Ok(()) && now == rest
  }

  function PrependStatements(done: seq<Stmt>, r: Result<(seq<Stmt>, seq<Token>)>): Result<(seq<Stmt>, seq<Token>)> {
    match r
    case Err(e) => Err(e)
    case Ok((more, rest)) => Ok((done + more, rest))
  }

  /** `Statements` on a queue that does not start with `EOF`: one statement, then the rest. */
  lemma StatementsFront(q: seq<Token>)
    requires q != [] && q[0] != EOF
    ensures Statement(q).Err? ==> Statements(q) == Err(Statement(q).error)
    ensures Statement(q).Ok? ==>
      Statements(q) == PrependStatements([Statement(q).value.0], Statements(Statement(q).value.1))
  {
  }

  lemma PrependStatementsTwice(a: seq<Stmt>, b: seq<Stmt>, r: Result<(seq<Stmt>, seq<Token>)>)
    ensures PrependStatements(a, PrependStatements(b, r)) == PrependStatements(a + b, r)
  {
    if r.Ok? {
      assert a + (b + r.value.0) == (a + b) + r.value.0;
    }
  }

  /** The token tests `TryConsumeToken<TToken>` is instantiated with. */
  datatype TokenClass = BooleanToken | IntegerToken | StringToken | IdentifierToken | BinaryToken | LogicalToken

  predicate IsA(cls: TokenClass, t: Token) {
    match cls
    case BooleanToken => t.Boolean?
    case IntegerToken => t.Integer?
    case StringToken => t.String?
    case IdentifierToken => t.Identifier?
    case BinaryToken => t.Binary?
    case LogicalToken => t.Logical?
  }

  // ---- The parser object ----

  class Parser {
    /** The queue of tokens not yet consumed, front first. */
    var tokens: seq<Token>

    constructor (tokenStream: seq<Token>)
      ensures tokens == tokenStream
    {
      tokens := tokenStream;
    }

    /** `Queue.Peek`, which fails on an empty queue. */
    method Peek() returns (r: Result<Token>)
      ensures tokens == [] ==> r == Err(ParseErr(Exhausted))
      ensures tokens != [] ==> r == Ok(tokens[0])
    {
      if tokens == [] {
        return Err(ParseErr(Exhausted));
      }
      return Ok(tokens[0]);
    }

    /** `Queue.Dequeue`, which fails on an empty queue. */
    method Dequeue() returns (r: Result<Token>)
      modifies this
      ensures old(tokens) == [] ==> r == Err(ParseErr(Exhausted)) && tokens == old(tokens)
      ensures old(tokens) != [] ==> r == Ok(old(tokens)[0]) && tokens == old(tokens)[1..]
    {
      if tokens == [] {
        return Err(ParseErr(Exhausted));
      }
      r := Ok(tokens[0]);
      tokens := tokens[1..];
    }

    method ConsumeToken(kind: Token) returns (r: Result<()>)
      modifies this
      ensures Consumed(r, Consume(old(tokens), kind), tokens)
    {
      var token :- Dequeue();
      if token != kind {
        return Err(ParseErr(UnexpectedToken(token, kind)));
      }
      return Ok(());
    }

    method TryConsumeToken(cls: TokenClass) returns (r: Result<Option<Token>>)
      modifies this
      ensures old(tokens) == [] ==> r == Err(ParseErr(Exhausted))
      ensures old(tokens) != [] && IsA(cls, old(tokens)[0]) ==>
                r == Ok(Some(old(tokens)[0])) && tokens == old(tokens)[1..]
      ensures old(tokens) != [] && !IsA(cls, old(tokens)[0]) ==> r == Ok(None) && tokens == old(tokens)
    {
      var token :- Peek();
      if IsA(cls, token) {
        var taken := Dequeue();
        return Ok(Some(taken.value));
      }
      return Ok(None);
    }

    method TryParseTerm() returns (r: Result<Option<Expr>>)
      modifies this
      ensures Advanced(r, Term(old(tokens)), tokens)
    {
      var b :- TryConsumeToken(BooleanToken);
      if b.Some? {
        return Ok(Some(BoolLit(b.value.b)));
      }
      // the queue is not empty now, so the remaining peeks succeed
      var i := TryConsumeToken(IntegerToken);
      if i.value.Some? {
        return Ok(Some(IntLit(i.value.value.n)));
      }
      var s := TryConsumeToken(StringToken);
      if s.value.Some? {
        return Ok(Some(StrLit(s.value.value.text)));
      }
      var x := TryConsumeToken(IdentifierToken);
      if x.value.Some? {
        return Ok(Some(Var(x.value.value.name)));
      }
      return Ok(None);
    }

    method TryBinaryOrLogicalExpression() returns (r: Result<Option<Expr>>)
      modifies this
      ensures Advanced(r, TryExpression(old(tokens)), tokens)
      decreases |tokens|, 0
    {
      var leftTerm :- TryParseTerm();
      if leftTerm.None? {
        return Ok(None);
      }
      var op :- TryConsumeToken(BinaryToken);
      if op.None? {
        var logical := TryConsumeToken(LogicalToken);
        op := logical.value;
      }
      if op.None? {
        return Ok(leftTerm);
      }
      var rightTerm :- ParseExpression();
      if op.value.Binary? {
        return Ok(Some(BinaryExpr(leftTerm.value, op.value.bop, rightTerm)));
      }
      return Ok(Some(LogicalExpr(leftTerm.value, op.value.lop, rightTerm)));
    }

    method ParseExpression() returns (r: Result<Expr>)
      modifies this
      ensures Advanced(r, Expression(old(tokens)), tokens)
      decreases |tokens|, 1
    {
      var e :- TryBinaryOrLogicalExpression();
      if e.None? {
        var found := Peek();
        return Err(ParseErr(ExpectedExpression(found.value)));
      }
      return Ok(e.value);
    }

    method ParseIdentifier() returns (r: Result<string>)
      modifies this
      ensures Advanced(r, IdentifierName(old(tokens)), tokens)
    {
      var token :- TryConsumeToken(IdentifierToken);
      if token.None? {
        var found := Peek();
        return Err(ParseErr(ExpectedIdentifier(found.value)));
      }
      return Ok(token.value.name);
    }

    method ParseReturn() returns (r: Result<Stmt>)
      modifies this
      ensures Advanced(r, ReturnStatement(old(tokens)), tokens)
    {
      var _ :- ConsumeToken(Return);
      var value :- TryBinaryOrLogicalExpression();
      var _ :- ConsumeToken(SemiColon);
      return Ok(ReturnStmt(value));
    }

    method ParseLet() returns (r: Result<Stmt>)
      modifies this
      ensures Advanced(r, LetStatement(old(tokens)), tokens)
    {
      var _ :- ConsumeToken(Let);
      var identifier :- ParseIdentifier();
      var _ :- ConsumeToken(Equal);
      var value :- ParseExpression();
      var _ :- ConsumeToken(SemiColon);
      return Ok(LetStmt(identifier, value));
    }

    method ParsePrint() returns (r: Result<Stmt>)
      modifies this
      ensures Advanced(r, PrintStatement(old(tokens)), tokens)
    {
      var _ :- ConsumeToken(Print);
      var value :- TryBinaryOrLogicalExpression();
      var _ :- ConsumeToken(SemiColon);
      return Ok(PrintStmt(value));
    }

    method ParseStatement() returns (r: Result<Stmt>)
      modifies this
      ensures Advanced(r, Statement(old(tokens)), tokens)
    {
      var token :- Peek();
      match token
      case Return => r := ParseReturn();
      case Let => r := ParseLet();
      case Print => r := ParsePrint();
      case _ => r := Err(ParseErr(ExpectedStatement(token)));
    }

    /** The loop of `ParseStatements`: parse statements while the front token is not `EOF`. */
    method ParseStatements() returns (r: Result<seq<Stmt>>)
      modifies this
      ensures Advanced(r, Statements(old(tokens)), tokens)
    {
      var statements: seq<Stmt> := [];
      if Statements(tokens).Ok? {
        assert statements + Statements(tokens).value.0 == Statements(tokens).value.0;
      }
      while true
        invariant Statements(old(tokens)) == PrependStatements(statements, Statements(tokens))
        decreases |tokens|
      {
        var token :- Peek();
        if token == EOF {
          assert statements + [] == statements;
          return Ok(statements);
        }
        StatementsFront(tokens);
        var statement :- ParseStatement();
        PrependStatementsTwice(statements, [statement], Statements(tokens));
        statements := statements + [statement];
      }
    }

    method ParseProgram() returns (r: Result<Program>)
      modifies this
      ensures r == ProgramOf(old(tokens))
    {
      var statements :- ParseStatements();
      var _ :- ConsumeToken(EOF);
      return Ok(Program(statements));
    }
  }

  /** `Parser.Parse`: materialise the token stream into a queue and parse a whole program. */
  method Parse(tokenStream: seq<Token>) returns (r: Result<Program>)
    ensures r == ProgramOf(tokenStream)
  {
    var parser := new Parser(tokenStream);
    r := parser.ParseProgram();
  }
}
