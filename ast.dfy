/** The syntax tree the parser builds and the interpreter walks. */
module Ast {
  import opened Tokens
  import opened Errors

  /** Expressions: the four terms (`NodeBoolean`, `NodeInteger`, `NodeString`, `NodeIdentifier`)
      and the two composite nodes, which keep the operator token they were built from. */
  datatype Expr =
    | BoolLit(b: bool)
    | IntLit(n: int)
    | StrLit(s: string)
    | Var(name: string)
    | BinaryExpr(left: Expr, bop: BinaryOperator, right: Expr)
    | LogicalExpr(left: Expr, lop: LogicalOperator, right: Expr)
  {
    predicate IsTerm() {
      BoolLit? || IntLit? || StrLit? || Var?
    }
  }

  /** Statements: `let`, and `print` and `return` with an optional expression. */
  datatype Stmt =
    | LetStmt(name: string, value: Expr)
    | PrintStmt(arg: Option<Expr>)
    | ReturnStmt(arg: Option<Expr>)

  datatype Program = Program(statements: seq<Stmt>)
}
