/** Tokens, literals and the statement and expression trees the evaluator walks.
    The scanner and the parser that build them are not part of this model; the
    shapes below are the ones the evaluator matches on. */
module Syntax {

  /** The token kinds the evaluator dispatches on. Identifiers carry their name,
      which is what the environment looks variables up by. */
  datatype TokenType =
    | Bang | BangEqual | EqualEqual
    | Minus | Plus | Slash | Star
    | Greater | GreaterEqual | Less | LessEqual
    | And | Or
    | Identifier(name: string)

  /** A token is used only for its kind and, in runtime errors, its line. */
  datatype Token = Token(kind: TokenType, line: nat)

  datatype Literal =
    | Number(n: real)
    | String(s: string)
    | Boolean(b: bool)
    | Nil

  datatype Expr =
    | Literal(lit: Literal)
    | Grouping(inner: Expr)
    | Unary(op: Token, right: Expr)
    | Binary(left: Expr, op: Token, right: Expr)
    | Variable(name: Token)
    | Assign(target: Token, value: Expr)
    | Logical(left: Expr, op: Token, right: Expr)

  /** An `If` always has an else branch; a missing one is `Empty`. */
  datatype Stmt =
    | Empty
    | Block(stmts: seq<Stmt>)
    | Expression(expr: Expr)
    | If(cond: Expr, thenBranch: Stmt, elseBranch: Stmt)
    | Print(expr: Expr)
    | Var(name: string, init: Expr)
    | While(cond: Expr, body: Stmt)

  predicate IsUnaryOperator(k: TokenType) {
    k == Bang || k == Minus
  }

  /** The operators on which the arithmetic type rule applies. */
  predicate IsNumericOperator(k: TokenType) {
    k in {Minus, Slash, Star, Greater, GreaterEqual, Less, LessEqual}
  }

  predicate IsBinaryOperator(k: TokenType) {
    k == EqualEqual || k == BangEqual || k == Plus || IsNumericOperator(k)
  }

  /** What the parser guarantees of an expression tree: operator tokens have a
      kind the evaluator handles in their position, and variable and assignment
      targets are identifiers. A logical operator may be any token: every kind
      other than `or` is evaluated as `and`. */
  predicate WellFormedExpr(e: Expr) {
    match e
    case Literal(_) => true
    case Grouping(inner) => WellFormedExpr(inner)
    case Unary(op, right) => IsUnaryOperator(op.kind) && WellFormedExpr(right)
    case Binary(left, op, right) =>
      IsBinaryOperator(op.kind) && WellFormedExpr(left) && WellFormedExpr(right)
    case Variable(name) => name.kind.Identifier?
    case Assign(target, value) => target.kind.Identifier? && WellFormedExpr(value)
    case Logical(left, _, right) => WellFormedExpr(left) && WellFormedExpr(right)
  }

  predicate WellFormedStmt(s: Stmt) {
    match s
    case Empty => true
    case Block(stmts) => forall i :: 0 <= i < |stmts| ==> WellFormedStmt(stmts[i])
    case Expression(e) => WellFormedExpr(e)
    case If(c, t, e) => WellFormedExpr(c) && WellFormedStmt(t) && WellFormedStmt(e)
    case Print(e) => WellFormedExpr(e)
    case Var(_, init) => WellFormedExpr(init)
    case While(c, body) => WellFormedExpr(c) && WellFormedStmt(body)
  }

  predicate WellFormedStmts(ss: seq<Stmt>) {
    forall i :: 0 <= i < |ss| ==> WellFormedStmt(ss[i])
  }
}
