/** The token vocabulary shared by the lexer and the parser, and the lexer's fixed tables. */
module Tokens {

  datatype BinaryOperator = Plus | Minus | Asterisk | Slash

  datatype LogicalOperator = And | Or

  /** One token. The payload-free constructors correspond to the plain `Token(kind)` records;
      the others to the `TokenInteger`, `TokenIdentifier`, `TokenString`, `TokenBoolean`,
      `TokenBinaryOperator` and `TokenLogicalOperator` records. */
  datatype Token =
    | EOF
    | Binary(bop: BinaryOperator)
    | Logical(lop: LogicalOperator)
    | LParen
    | RParen
    | Equal
    | SemiColon
    | Integer(n: int)
    | Identifier(name: string)
    | String(text: string)
    | Boolean(b: bool)
    | Return
    | Let
    | Print

  /** Single-character punctuation (`TokenKindMap`). */
  const PunctuationMap: map<char, Token> := map['(' := LParen, ')' := RParen, ';' := SemiColon, '=' := Equal]

  /** Statement keywords (`TokenKeywordMap`). */
  const KeywordMap: map<string, Token> := map["return" := Return, "let" := Let, "print" := Print]

  /** Boolean literals (`TokenBooleanMap`). */
  const BooleanMap: map<string, bool> := map["true" := true, "false" := false]

  /** Word-shaped logical operators (`TokenLogicalOperatorMap`). */
  const LogicalOperatorMap: map<string, LogicalOperator> := map["or" := Or, "and" := And]

  /** Single-character arithmetic operators (`TokenBinaryOperatorMap`). */
  const BinaryOperatorMap: map<char, BinaryOperator> := map['+' := Plus, '-' := Minus, '*' := Asterisk, '/' := Slash]

  /** A word that one of the three word tables claims, so it can never be an identifier. */
  predicate IsReservedWord(w: string) {
    w in KeywordMap || w in BooleanMap || w in LogicalOperatorMap
  }
}
