# Wee: a verified model of the lexer, parser and interpreter

Wee is a tiny scripting language whose whole implementation lives in `Program.cs`. Source
text goes through three stages:

- the **lexer** (`Lexer.Tokenize`) turns characters into tokens that end in `EOF`;
- the **parser** (`Parser.Parse`) turns tokens into a program of `return`, `let` and `print`
  statements by recursive descent;
- the **interpreter** (`Interpreter.Run`) executes the statements against a growing variable
  dictionary. It prints lines and stops at the first `return`.

This project models each stage in Dafny and proves what each stage promises.

- **Lexer.** The reader's position is an index into the source string, advanced by the
  methods `ReadChars`, `ReadInteger`, `ReadText`, `ReadString`, `ReadToken`, `NextToken` and
  `Tokenize`. Each method is proved equal to a specification function over the unread
  suffix: `MaximalRun`, `ScanInteger`, `ScanWord`, `ScanString`, `ScanSymbol`, `ScanToken`
  and `Lex`.
- **Parser.** The token queue is a field of the class `Parser.Parser`; `Peek` reads it and
  `Dequeue` updates it. Each parsing method (`TryParseTerm` … `ParseProgram`) is proved against a
  function over the queue contents (`Term` … `ProgramOf`).
- **Interpreter.** Expressions are pure functions over a variable map: `Evaluate`,
  `Arithmetic`, `Logic` and `Display`. A statement's effect is `Step`, and a statement list's
  is `Exec`. The class `Interpreter.Machine` holds the variable map and the printed lines,
  which `RunLet`, `RunPrint` and `RunStatement` update. The `for` loop in `Run` is proved to
  compute `RunProgram`.
- **Whole program.** `Pipeline.Execute` chains the three stages and is proved equal to
  `Pipeline.Interpret`.

The proved properties include:

- the token sequence ends in exactly one `EOF`;
- the classification of words, string payloads, and each lex error;
- a token-to-text-to-token round trip;
- a program-to-tokens-to-program round trip, and its converse;
- right associativity;
- the parser never running out of tokens;
- left-to-right evaluation of both operands;
- the typing of every operator;
- division that truncates toward zero;
- the `let` rules;
- sequential composition, and the cut-off at `return`;
- a variable map that only grows.

Errors are values: the type `Result` carries a lex, parse or runtime error. Each error stands
for one exception the source throws.

### Where the code and its description differ

`and` and `or` are described as requiring two booleans. The code writes them as
`(bool)left && (bool)right` and `(bool)left || (bool)right` (Program.cs:493-495). Both operands
are always evaluated first, but C#'s `&&` and `||` skip the right-hand cast when the left
operand already decides the result. So `false and 1` is `false` and `true or "x"` is `true`;
neither is a type error. The model follows the code:

- `Interpreter.Logic` states this behaviour;
- `InterpreterProperties.DecidedByLeft` proves it;
- `InterpreterProperties.UndecidedNeedsBoolean` proves the other case, where the left
  operand does not decide and a non-boolean on the right is a type error.

## Model

| member | source | states |
|---|---|---|
| Decimal.DecimalValue | Program.cs:68 | the value `int.Parse` gives a run of ASCII digits, leading zeros allowed; `DecimalRoundTrip` and `ScanDigitRun` state its meaning |
| Decimal.NatToDecimal | Program.cs:498-502 | the decimal text of a natural number is a non-empty run of digits that starts with `0` only for the number 0; `DecimalRoundTrip` states that it reads back as the number |
| Decimal.DecimalRoundTrip | Program.cs:68 | reading a natural number's decimal digits back (what `int.Parse` does with a digit run) gives the number |
| Decimal.IntToDecimal | Program.cs:498-502 | the display text of an integer is non-empty and starts with `-` exactly when the integer is negative |
| Decimal.IntToDecimalInjective | Program.cs:498-502 | different integers have different display texts |
| Lexer.RunLength | Program.cs:95-111 | the run length stays within the input; every character before it is accepted; the character at it, if any, is refused |
| Lexer.MaximalRun | Program.cs:95-111 | the run and the rest together are the input; every character of the run is accepted; the rest is empty or starts with a refused character |
| Lexer.SkipWhiteSpace | Program.cs:31-44 | what is left after skipping whitespace is no longer than the input |
| Lexer.ClassifyWord | Program.cs:70-78 | a word is an identifier exactly when no keyword, boolean or logical-operator table holds it, and the identifier keeps the word as its name |
| Lexer.ScanInteger | Program.cs:68 | a successful integer scan consumes at least one character; `ScanDigitRun` states its value or its out-of-range error for every digit run |
| Lexer.ScanWord | Program.cs:70-78 | a successful word scan consumes at least one character |
| Lexer.ScanString | Program.cs:80-93 | a successful string scan consumes at least one character |
| Lexer.ScanSymbol | Program.cs:59-66 | an operator or punctuation character consumes exactly one character |
| Lexer.ScanFrom | Program.cs:33-56 | the end of input gives `EOF` and consumes nothing; `EOF` comes only at the end of input; any other token consumes at least one character |
| Lexer.ScanToken | Program.cs:29-57 | what is left is no longer than the input, and a token other than `EOF` consumes at least one character |
| Lexer.Lex | Program.cs:12-27 | the tokens up to and including the first `EOF`, or the first lex error; its meaning is stated by `LexEndsWithSingleEof`, `LexIgnoresLeadingWhiteSpace`, `LexRender` and the error lemmas |
| Lexer.IsWhiteSpace | Program.cs:40 | the characters `char.IsWhiteSpace` accepts; `SkipWhiteSpaceSpec` and `SkippedAreWhiteSpace` state how they are skipped |
| Lexer.MaximalRunAt | Program.cs:99-108 | a prefix that is all accepted and followed by a refused character, or by the end, is the maximal run |
| Lexer.ReadChars | Program.cs:95-111 | the builder loop returns the maximal accepted run from the position, and the position after it |
| Lexer.ReadInteger | Program.cs:68 | reads a digit run as `ScanInteger` does, rejecting a value above 2147483647 |
| Lexer.ReadText | Program.cs:70-78 | reads and classifies a word as `ScanWord` does |
| Lexer.ReadString | Program.cs:80-93 | reads up to the matching quote, or fails with "string not closed", as `ScanString` does |
| Lexer.ReadToken | Program.cs:59-66 | reads an operator or punctuation character, or fails with "invalid character", as `ScanSymbol` does |
| Lexer.NextToken | Program.cs:29-57 | the whitespace loop followed by the dispatch gives the token and the position that `ScanToken` gives |
| Lexer.Tokenize | Program.cs:12-27 | the token loop returns exactly `Lex(src)`: the tokens up to and including `EOF`, or the first lex error |
| LexerProperties.LexEndsWithSingleEof | Program.cs:17-36 | a successful lex ends in `EOF`, and no earlier token is `EOF` |
| LexerProperties.SkipWhiteSpaceSpec | Program.cs:31-44 | skipping whitespace leaves a suffix of the input that is empty or starts with a non-whitespace character |
| LexerProperties.SkippedAreWhiteSpace | Program.cs:40-44 | every character skipped is whitespace |
| LexerProperties.ScanTokenSuffix | Program.cs:29-111 | the reader only moves forward: what is left after a token is a suffix of the input |
| LexerProperties.ScanFromSuffix | Program.cs:46-111 | each of the four readers leaves a suffix of its input |
| LexerProperties.ScanStringSuffix | Program.cs:80-93 | the string reader leaves a suffix of its input |
| LexerProperties.EofOnlyAtEnd | Program.cs:31-44 | `EOF` comes exactly when nothing but whitespace remains, and it consumes all of that whitespace |
| LexerProperties.SkipLeadingWhiteSpace | Program.cs:40-44 | skipping whitespace ignores any leading whitespace |
| LexerProperties.LexIgnoresLeadingWhiteSpace | Program.cs:40-44 | whitespace in front of the input changes neither the next token nor the whole token sequence |
| LexerProperties.LexBlank | Program.cs:31-44 | empty or all-whitespace input lexes to `[EOF]` |
| LexerProperties.ScanWordToken | Program.cs:51-53 | a word is the maximal run of ASCII letters and digits that starts at a letter, classified |
| LexerProperties.ClassifyWordTables | Program.cs:122-139 | each table word gives that table's token, so `let`, `true`, `and` and the rest are never identifiers; any other word is an identifier |
| LexerProperties.ScanStringToken | Program.cs:80-93 | a string token's payload is exactly the characters between the opening quote and the next copy of the same quote |
| LexerProperties.LexUnclosedString | Program.cs:86-90 | input that starts with a quote never closed before the end is the "string not closed" error, carrying the rest of the input |
| LexerProperties.LexInvalidCharacter | Program.cs:63-65 | a character that starts no token and is in neither operator table is the "invalid character" error |
| LexerProperties.ScanDigitRun | Program.cs:68 | any maximal digit run, leading zeros included, lexes to the integer it denotes when that is at most 2147483647, and to the out-of-range error carrying the digits otherwise |
| LexerProperties.ScanDecimal | Program.cs:68 | the decimal text of `v` lexes to `Integer(v)` when `v` fits in an `int`, and to the out-of-range error otherwise |
| LexerProperties.ScanWordText | Program.cs:70-78 | a word followed by whitespace scans to its classification |
| LexerProperties.ScanStringText | Program.cs:80-93 | a quoted text scans back to the string token |
| LexerProperties.ScanSymbolChar | Program.cs:59-66 | an operator or punctuation character scans to its table entry |
| LexerProperties.ScanSymbolText | Program.cs:141-147 | every operator and punctuation token scans back from its character |
| LexerProperties.ScanKeywordText | Program.cs:122-127 | `return`, `let` and `print` scan back to their keyword tokens |
| LexerProperties.ScanLiteralWordText | Program.cs:129-139 | `true`, `false`, `and` and `or` scan back to their boolean and logical-operator tokens |
| LexerProperties.ScanTokenText | Program.cs:29-93 | any lexable token's text, followed by whitespace, scans back to the token |
| LexerProperties.LexTokenText | Program.cs:17-57 | a token's text and a space, in front of any input, lexes to that token followed by the input's tokens |
| LexerProperties.LexRender | Program.cs:12-111 | round trip: the rendered text of any lexable token sequence lexes to that sequence followed by `EOF` |
| Parser.Consume | Program.cs:334-341 | consuming a token succeeds only on a non-empty queue and removes exactly its front |
| Parser.Term | Program.cs:304-332 | a term consumes exactly one boolean, integer, string or identifier token; otherwise the queue is untouched |
| Parser.TryExpression | Program.cs:277-302 | no expression leaves the queue unchanged; an expression consumes at least one token |
| Parser.Expression | Program.cs:272-273 | a required expression consumes at least one token |
| Parser.IdentifierName | Program.cs:270 | an identifier consumes exactly the front token |
| Parser.ReturnStatement | Program.cs:233-242 | a parsed `return` statement consumes tokens |
| Parser.LetStatement | Program.cs:244-257 | a parsed `let` statement consumes tokens |
| Parser.PrintStatement | Program.cs:259-268 | a parsed `print` statement consumes tokens |
| Parser.Statement | Program.cs:221-231 | a parsed statement consumes tokens |
| Parser.Statements | Program.cs:205-219 | the statement list leaves no more tokens than it was given |
| Parser.ProgramOf | Program.cs:196-203 | the statements, then `EOF` consumed; `ParseProgramTokens` and `ProgramTokensOfParse` state its meaning in both directions, and `ParserNeverExhausted` that it never runs out of tokens |
| Parser.StatementsFront | Program.cs:207-213 | before `EOF`, the statement list is one statement followed by the list of the rest, and a failing statement fails the list |
| Parser.Parser.constructor | Program.cs:192 | the queue starts as the whole token stream |
| Parser.Parser.Peek | Program.cs:344 | peeking gives the front token, or the empty-queue error |
| Parser.Parser.Dequeue | Program.cs:336 | dequeuing removes and returns the front token, or fails on an empty queue and changes nothing |
| Parser.Parser.ConsumeToken | Program.cs:334-341 | the queue and result are as `Consume` gives |
| Parser.Parser.TryConsumeToken | Program.cs:343-344 | a front token of the requested class is dequeued and returned; any other leaves the queue unchanged |
| Parser.Parser.TryParseTerm | Program.cs:304-332 | the result and the queue are as `Term` gives |
| Parser.Parser.TryBinaryOrLogicalExpression | Program.cs:277-302 | the result and the queue are as `TryExpression` gives |
| Parser.Parser.ParseExpression | Program.cs:272-273 | the result and the queue are as `Expression` gives |
| Parser.Parser.ParseIdentifier | Program.cs:270 | the result and the queue are as `IdentifierName` gives |
| Parser.Parser.ParseReturn | Program.cs:233-242 | the result and the queue are as `ReturnStatement` gives |
| Parser.Parser.ParseLet | Program.cs:244-257 | the result and the queue are as `LetStatement` gives |
| Parser.Parser.ParsePrint | Program.cs:259-268 | the result and the queue are as `PrintStatement` gives |
| Parser.Parser.ParseStatement | Program.cs:221-231 | the result and the queue are as `Statement` gives |
| Parser.Parser.ParseStatements | Program.cs:205-219 | the loop's result and the queue are as `Statements` gives |
| Parser.Parser.ParseProgram | Program.cs:196-203 | the result is `ProgramOf` of the queue |
| Parser.Parse | Program.cs:190-194 | parsing a token stream gives exactly `ProgramOf(tokenStream)` |
| ParserProperties.DropFront | Program.cs:336 | dequeuing a token that is not `EOF` leaves a queue that still ends in `EOF` |
| ParserProperties.ConsumeNotExhausted | Program.cs:334-341 | `ConsumeToken` on a queue ending in `EOF` never finds it empty |
| ParserProperties.TryExpressionNotExhausted | Program.cs:272-308 | expression parsing on a queue ending in `EOF` never finds it empty, and leaves a queue ending in `EOF` |
| ParserProperties.StatementNotExhausted | Program.cs:221-268 | statement parsing on a queue ending in `EOF` never finds it empty, and leaves a queue ending in `EOF` |
| ParserProperties.StatementsNotExhausted | Program.cs:205-219 | the statement loop on a queue ending in `EOF` never finds it empty |
| ParserProperties.ParserNeverExhausted | Program.cs:205-344 | on a token sequence that ends in `EOF`, the parser never peeks at or dequeues from an empty queue |
| ParserProperties.CombineTokens | Program.cs:296-299 | an operator node is spelled as its left operand's tokens, the operator, then the right operand's tokens |
| ParserProperties.TermOfTokens | Program.cs:304-332 | a term's token parses back to the term |
| ParserProperties.TryExpressionStep | Program.cs:279-294 | after a term with no operator, the term is the expression; after a term and an operator, the rest is the right operand |
| ParserProperties.TryExpressionFront | Program.cs:279-294 | an expression that parses starts with a term |
| ParserProperties.TermSpelled | Program.cs:304-332 | a parsed term is spelled by the one token it consumed |
| ParserProperties.ExpressionIsTry | Program.cs:272-273 | a required expression is the optional one, present |
| ParserProperties.ParseExprTokens | Program.cs:277-308 | a well-formed expression's tokens, followed by a non-operator, parse back to it |
| ParserProperties.ExprTokensOfParse | Program.cs:277-308 | converse: whatever parses as an expression is well formed, is spelled by the tokens it consumed, and is followed by a non-operator |
| ParserProperties.NoTermNoExpression | Program.cs:279-284 | with no term at the front, expression parsing consumes nothing |
| ParserProperties.ParseArgTokens | Program.cs:237-239 | an optional expression followed by `;` parses back to itself |
| ParserProperties.ParseLetTokens | Program.cs:244-257 | `let x = e ;` parses back to that `let` statement |
| ParserProperties.LetSteps | Program.cs:246-250 | `let`, an identifier and `=` are consumed in that order |
| ParserProperties.ParseArgStmtTokens | Program.cs:233-268 | `return`/`print`, an optional expression and `;` parse back to that statement |
| ParserProperties.ParseStmtTokens | Program.cs:221-268 | every well-formed statement's tokens parse back to it |
| ParserProperties.ParseStmtsTokens | Program.cs:205-219 | a list of well-formed statements' tokens, followed by `EOF`, parse back to the list |
| ParserProperties.ParseProgramTokens | Program.cs:196-203 | round trip: a well-formed program's tokens parse back to it, whatever follows `EOF` |
| ParserProperties.StmtTokensOfParse | Program.cs:221-268 | converse: a parsed statement is well formed and is spelled by the tokens it consumed |
| ParserProperties.ReturnOfParse | Program.cs:233-242 | a parsed `return` is spelled by the tokens it consumed |
| ParserProperties.PrintOfParse | Program.cs:259-268 | a parsed `print` is spelled by the tokens it consumed |
| ParserProperties.SpellArgStatement | Program.cs:233-268 | how `return`/`print` statements are spelled |
| ParserProperties.LetOfParse | Program.cs:244-257 | a parsed `let` is spelled by the tokens it consumed |
| ParserProperties.LetParts | Program.cs:244-257 | a parsed `let` was `let`, an identifier, `=`, an expression and `;` |
| ParserProperties.SpellLet | Program.cs:244-257 | those parts spell the `let` statement |
| ParserProperties.ArgOfParse | Program.cs:237 | a parsed optional expression is spelled by the tokens it consumed |
| ParserProperties.StmtsTokensOfParse | Program.cs:205-219 | a parsed statement list is well formed, is spelled by the tokens it consumed, and stops at `EOF` |
| ParserProperties.StatementsStep | Program.cs:207-213 | a statement list that parses, not at `EOF`, is a statement followed by the list of the rest |
| ParserProperties.StmtsTokensCons | Program.cs:205-219 | a statement list is spelled statement by statement |
| ParserProperties.ProgramTokensOfParse | Program.cs:196-203 | converse: a parsed program is well formed, and its tokens followed by `EOF` begin the input |
| ParserProperties.RightAssociative | Program.cs:277-302 | `t1 op1 t2 op2 t3` parses as `op1(t1, op2(t2, t3))`, for arithmetic and logical operators alike |
| ParserProperties.TermTokens | Program.cs:304-308 | a term is spelled by its token and is well formed |
| ParserProperties.ParenthesisIsNotATerm | Program.cs:304-308 | `(` is never a term: a required expression fails there, and `return (` is rejected at the parenthesis |
| ParserProperties.StatementNeedsKeyword | Program.cs:221-231 | a program whose first token is not `return`, `let`, `print` or `EOF` is the "expected statement" error |
| Interpreter.Display | Program.cs:498-502 | the text `print` writes and `+` concatenates; `DisplayForms` states it for each kind of value |
| Interpreter.TruncDiv | Program.cs:478 | C#'s integer division; `TruncatesTowardZero` and `TruncDivExamples` state that it rounds toward zero |
| Interpreter.ArgValue | Program.cs:428-433 | an optional expression's value, with a given value when it is absent; `PrintNothing` and `ReturnNothing` state the absent cases |
| Interpreter.Lookup | Program.cs:446-454 | an identifier reads its bound value exactly when it is bound, and is "not defined" otherwise |
| Interpreter.Arithmetic | Program.cs:456-479 | a string result exactly for `+` with a string operand; otherwise an integer or a type-mismatch or division-by-zero error |
| Interpreter.Logic | Program.cs:481-496 | succeeds exactly when the left operand is a boolean and either decides the result or the right one is a boolean too; gives the decided value, or the conjunction or disjunction; otherwise a type mismatch |
| Interpreter.Evaluate | Program.cs:435-444 | errors are runtime errors; an unbound name in the error is read by the expression and is not bound in the map; a logical expression gives a boolean |
| Interpreter.Step | Program.cs:396-433 | only `return` stops with a value; a failure is a runtime error; carrying on keeps every binding and prints at most one line |
| Interpreter.Exec | Program.cs:385-394 | no more lines are printed than there are statements, and a failure is a runtime error |
| Interpreter.RunProgram | Program.cs:381-394 | a program runs from an empty variable map; `Run` is proved to compute it, and `ExecAfter`, `ReturnCutsOff` and `NoReturnGivesZero` state its meaning |
| Interpreter.Machine.constructor | Program.cs:383 | the variable dictionary starts empty, and nothing has been printed |
| Interpreter.Machine.RunLet | Program.cs:415-424 | the dictionary and the console are updated as `Step` says for a `let` statement, and a failure changes nothing |
| Interpreter.Machine.RunPrint | Program.cs:426-431 | one display line is appended as `Step` says for a `print` statement, and a failure changes nothing |
| Interpreter.Machine.RunStatement | Program.cs:396-412 | the state and result are as `Step` says; only `return` gives back a value |
| Interpreter.Run | Program.cs:381-394 | the statement loop, stopping at the first `return` or failure, gives exactly `RunProgram`: the result and every printed line |
| Interpreter.ExecFrom | Program.cs:385-392 | running from position `i` is the statement there, then the rest |
| InterpreterProperties.TruncatesTowardZero | Program.cs:478 | `/` rounds toward zero: `q * b` has the sign of `a` and falls short of it in magnitude by less than the divisor |
| InterpreterProperties.TruncDivExamples | Program.cs:478 | `-7 / 2` is `-3`, `7 / -2` is `-3`, and `-7 / -2` is `3`, unlike Euclidean division |
| InterpreterProperties.LeftEvaluatedFirst | Program.cs:458-459 | a failing left operand decides the error of a binary or logical expression |
| InterpreterProperties.NoShortCircuit | Program.cs:483-484 | both operands are always evaluated: a failing right operand fails `and`/`or` even when the left would decide |
| InterpreterProperties.OperatorApplied | Program.cs:456-496 | with both operands evaluated, the operator's function is applied to them |
| InterpreterProperties.IdentifierReads | Program.cs:446-454 | a bound identifier reads its value; an unbound one is "not defined" |
| InterpreterProperties.PlusMeaning | Program.cs:470-472 | `+` concatenates display forms when either side is a string, adds two integers, and fails exactly on a boolean with no string |
| InterpreterProperties.ArithmeticTyping | Program.cs:474-478 | `-`, `*`, `/` succeed exactly on two integers with a nonzero divisor for `/`; the type check comes before the zero check |
| InterpreterProperties.IntegerArithmetic | Program.cs:474-478 | on two integers, `-` is subtraction, `*` is multiplication, and `/` by a nonzero divisor is `TruncDiv`, the quotient rounded toward zero |
| InterpreterProperties.LogicMeaning | Program.cs:493-495 | on two booleans, `and` is conjunction and `or` is disjunction |
| InterpreterProperties.DecidedByLeft | Program.cs:493-495 | `false and x` is `false` and `true or x` is `true` for any value `x` |
| InterpreterProperties.UndecidedNeedsBoolean | Program.cs:493-495 | with a left operand that does not decide, the result is the right operand, which must be a boolean |
| InterpreterProperties.DisplayForms | Program.cs:498-502 | booleans display as `true`/`false`, strings as themselves, integers as their decimal text with `-` when negative |
| InterpreterProperties.EvaluateReadsNames | Program.cs:435-454 | an expression's value depends only on the bindings of the names it reads |
| InterpreterProperties.EvaluateKeepsValue | Program.cs:435-454 | more bindings never change a value that could already be computed |
| InterpreterProperties.ReadsBound | Program.cs:446-454 | an expression that evaluates reads only bound names |
| InterpreterProperties.LetAlreadyDefined | Program.cs:418-421 | `let` of a bound name fails before its expression is evaluated, whatever the expression |
| InterpreterProperties.LetBinds | Program.cs:423 | otherwise `let` adds exactly the one binding, prints nothing, and keeps every other binding |
| InterpreterProperties.LetThenRead | Program.cs:415-454 | a name bound by `let` reads back as its value |
| InterpreterProperties.PrintNothing | Program.cs:428-430 | `print;` prints an empty line |
| InterpreterProperties.PrintDisplays | Program.cs:426-431 | `print e;` prints the display form of `e`, and the program carries on unchanged |
| InterpreterProperties.ReturnNothing | Program.cs:433 | `return;` gives 0, and nothing after it runs or prints |
| InterpreterProperties.ExecAfter | Program.cs:385-392 | when `pre` runs to its end, `pre + post` prints `pre`'s lines, then runs `post` from `pre`'s final variables |
| InterpreterProperties.ExecStopped | Program.cs:385-392 | when `pre` stops the program, `post` never runs |
| InterpreterProperties.ReturnCutsOff | Program.cs:388-391 | whatever follows a `return` is never evaluated |
| InterpreterProperties.StopsAtReturn | Program.cs:399-401 | a `return` always stops the program |
| InterpreterProperties.NoReturnGivesZero | Program.cs:394 | a program with no `return` that succeeds has result 0 |
| InterpreterProperties.ThroughGrows | Program.cs:423 | the variable map only grows: a binding keeps its value to the end |
| Pipeline.Interpret | Program.cs:3-6 | lex, parse and run; a lex or parse failure ends it with no output, a runtime failure keeps the lines printed before it; `StageErrors`, `NeverExhausted` and `RunsAsWritten` state its meaning |
| Pipeline.Execute | Program.cs:3-6 | tokenize, parse and run, stopping at the first failing stage, give exactly `Interpret(src)` |
| Pipeline.NeverExhausted | Program.cs:4-5 | with the lexer's output, the parser never runs out of tokens |
| Pipeline.RunsAsWritten | Program.cs:4-6 | the written-out text of a well-formed program runs exactly as the program does |
| Pipeline.StageErrors | Program.cs:4-6 | a lex error ends the run with no output; a parse error is a parse error with no output; a runtime error means lexing and parsing succeeded |
| Pipeline.ParseErrorsAreParseErrors | Program.cs:196-203 | every parser failure is a parse error |
| Pipeline.StatementsErrors | Program.cs:205-219 | every statement-list failure is a parse error |
| Pipeline.StatementErrors | Program.cs:221-268 | every statement failure is a parse error |
| Pipeline.ExpressionErrors | Program.cs:272-308 | every expression failure is a parse error |
| Pipeline.LexErrorsAreLexErrors | Program.cs:12-111 | every lexer failure is a lex error |

## Left out

- File input (Program.cs:3): the source text is the parameter `src` of `Pipeline.Execute`.
- Console output: `print` appends its line to `Machine.output`, or to the output of `Exec`, instead of calling `Console.WriteLine` (Program.cs:430).
- The final result line (Program.cs:8): it is not modelled. It uses .NET `ToString`, so it writes a boolean result as `True`/`False`.
- The lazy `IEnumerable`/`yield` machinery (Program.cs:17-27, 205-219): tokens and statements are finished sequences. `Parse` reads the whole token stream into its queue before parsing (Program.cs:192), so every lex error comes before any parse error.
- Unicode digits: `char.IsDigit` (Program.cs:46, 68) is modelled as ASCII `0`-`9`. The source sends a non-ASCII digit to `int.Parse`, which rejects it. The model rejects it as an invalid character. Both are lex errors, of a different kind. Whitespace is `char.IsWhiteSpace`'s full list.
- Lexer.ReadInteger: the value is checked against 2147483647 only. `int.Parse`'s other failures cannot happen on an ASCII digit run.
- Interpreter.Arithmetic: `+`, `-` and `*` use unbounded integers. They do not model C#'s 32-bit wrap-around, and `/` does not model the exception that `int.MinValue / -1` raises; overflow is out of scope.
- Exception texts and .NET exception types: each exception is one error constructor:
  - `InvalidCastException` is `TypeMismatch`;
  - `DivideByZeroException` is `DivisionByZero`;
  - an empty-queue `InvalidOperationException` is `Exhausted`;
  - a failing `int.Parse` is `IntegerOutOfRange`.
- Character width: the model's `char` is a Unicode scalar value, while `StringReader` yields UTF-16 code units (Program.cs:14, 32-38). A character outside the Basic Multilingual Plane is one character in the model and two in the source. It matters only for the payload of the invalid-character error, where the source reports the first surrogate.
- The unreachable default arms (Program.cs:300, 408, 443, 467, 490): the model's datatypes are closed, so there is nothing to fall through to.
- The `StringBuilder` that `ReadChars` shares between calls (Program.cs:15, 97): it is cleared on every call, so each call builds its own string.
- Parser.Statements, Parser.Statement and the other parser specification functions: their own contracts state only that input is consumed. What is consumed, and in what order, is stated by the round-trip lemmas in `ParserProperties`.
