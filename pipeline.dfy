/** The whole program: source text is tokenized, parsed and run, and the first stage that fails
    ends it with its error. */
module Pipeline {
  import opened Tokens
  import opened Errors
  import opened Ast
  import opened Lexer
  import opened LexerProperties
  import opened Parser
  import opened ParserProperties
  import opened Interpreter

  /** The result and the printed lines of running the source text `src`. */
  function Interpret(src: string): (Result<Value>, seq<string>) {
    match Lex(src)
    case Err(e) => (Err(e), [])
    case Ok(tokens) =>
      match ProgramOf(tokens)
      case Err(e) => (Err(e), [])
      case Ok(program) => RunProgram(program)
  }

  /** The three stages run one after the other, as the top-level statements do. */
  method Execute(src: string) returns (result: Result<Value>, output: seq<string>)
    ensures (result, output) == Interpret(src)
  {
    var tokens := Tokenize(src);
    if tokens.Err? {
      return Err(tokens.error), [];
    }
    var program := Parse(tokens.value);
    if program.Err? {
      return Err(program.error), [];
    }
    result, output := Run(program.value);
  }

  /** The lexer's output always ends in `EOF`, so the parser never runs out of tokens. */
  lemma NeverExhausted(src: string)
    ensures Interpret(src).0 != Err(ParseErr(Exhausted))
  {
    match Lex(src)
    case Err(e) =>
      LexErrorsAreLexErrors(src);
    case Ok(tokens) =>
      LexEndsWithSingleEof(src);
      ParserNeverExhausted(tokens);
  }

  /** Writing out a well-formed program's tokens, each followed by a space, gives source text
      that runs exactly as the program does. */
  lemma RunsAsWritten(p: Program)
    requires WellFormedProgram(p) && AllLexable(StmtsTokens(p.statements))
    ensures Interpret(Render(StmtsTokens(p.statements))) == RunProgram(p)
  {
    LexRender(StmtsTokens(p.statements));
    ParseProgramTokens(p, []);
    assert ProgramTokens(p) + [] == StmtsTokens(p.statements) + [EOF];
  }

  /** Errors come in pipeline order: text that the lexer rejects is never parsed, and a program
      that does not parse is never run, so it prints nothing. */
  lemma StageErrors(src: string)
    ensures Lex(src).Err? ==> Interpret(src) == (Err(Lex(src).error), [])
    ensures Lex(src).Ok? && ProgramOf(Lex(src).value).Err? ==>
      Interpret(src) == (Err(ProgramOf(Lex(src).value).error), []) && Interpret(src).0.error.ParseErr?
    ensures Interpret(src).0.Err? && Interpret(src).0.error.RuntimeErr? ==> Lex(src).Ok? && ProgramOf(Lex(src).value).Ok?
  {
    if Lex(src).Ok? && ProgramOf(Lex(src).value).Err? {
      ParseErrorsAreParseErrors(Lex(src).value);
    }
    if Lex(src).Err? {
      LexErrorsAreLexErrors(src);
    }
  }

  lemma ParseErrorsAreParseErrors(q: seq<Token>)
    requires ProgramOf(q).Err?
    ensures ProgramOf(q).error.ParseErr?
  {
    StatementsErrors(q);
  }

  lemma {:induction false} StatementsErrors(q: seq<Token>)
    ensures Statements(q).Err? ==> Statements(q).error.ParseErr?
    decreases |q|
  {
    if q != [] && q[0] != EOF {
      StatementErrors(q);
      if Statement(q).Ok? {
        StatementsErrors(Statement(q).value.1);
      }
    }
  }

  lemma StatementErrors(q: seq<Token>)
    ensures Statement(q).Err? ==> Statement(q).error.ParseErr?
  {
    if q != [] {
      match q[0]
      case Return =>
        ExpressionErrors(Consume(q, Return).value);
      case Print =>
        ExpressionErrors(Consume(q, Print).value);
      case Let =>
        if IdentifierName(q[1..]).Ok? && Consume(q[1..][1..], Equal).Ok? {
          ExpressionErrors(q[1..][1..][1..]);
        }
      case _ =>
    }
  }

  lemma {:induction false} ExpressionErrors(q: seq<Token>)
    ensures TryExpression(q).Err? ==> TryExpression(q).error.ParseErr?
    ensures Expression(q).Err? ==> Expression(q).error.ParseErr?
    decreases |q|
  {
    if Term(q).Ok? && Term(q).value.0.Some? && |q| > 1 && (q[1].Binary? || q[1].Logical?) {
      assert q[1..][1..] == q[2..];
      ExpressionErrors(q[2..]);
    }
  }

  lemma {:induction false} LexErrorsAreLexErrors(s: string)
    ensures Lex(s).Err? ==> Lex(s).error.LexErr?
    decreases |s|
  {
    if ScanToken(s).Ok? && ScanToken(s).value.0 != EOF {
      LexErrorsAreLexErrors(ScanToken(s).value.1);
    }
  }
}
