/** The tree-walking interpreter: one object owning one environment, running
    statements and reducing expressions by recursion over the tree. Every
    method is proved to compute what the reference semantics says. */
module Interpreter {
  import opened Syntax
  import opened Values
  import opened Environment
  import opened Operators
  import opened Semantics

  class Interpreter {
    /** The scope stack; the first frame is the global scope. */
    var env: Env
    /** The lines printed so far, each without its line terminator. */
    ghost var output: seq<string>
    /** The host's floating-point arithmetic and number formatting. */
    const float: FloatOps

    ghost predicate Valid()
      reads this
    {
      |env| >= 1
    }

    ghost function Current(): State
      reads this
    {
      State(env, output)
    }

    /** A fresh interpreter has only the empty global scope and has printed
        nothing. */
    constructor (float: FloatOps)
      ensures Valid() && env == [map[]] && output == [] && this.float == float
    {
      env := [map[]];
      output := [];
      this.float := float;
    }

    /** Runs the statements in order and stops at the first that does not
        complete. */
    method Interpret(statements: seq<Stmt>, fuel: nat) returns (r: Completion)
      requires Valid() && WellFormedStmts(statements)
      modifies this
      ensures Valid()
      ensures Executed(r, Current()) == ExecList(statements, old(Current()), fuel, float)
    {
      ghost var start := Current();
      var i := 0;
      while i < |statements|
        invariant 0 <= i <= |statements| && Valid()
        invariant WellFormedStmts(statements[i..])
        invariant ExecList(statements, start, fuel, float) ==
          ExecList(statements[i..], Current(), fuel, float)
      {
        assert statements[i..][0] == statements[i];
        assert statements[i..][1..] == statements[i + 1..];
        :- Execute(statements[i], fuel);
        i := i + 1;
      }
      r := Completed;
    }

    method Execute(stmt: Stmt, fuel: nat) returns (r: Completion)
      requires Valid() && WellFormedStmt(stmt)
      modifies this
      ensures Valid()
      ensures Executed(r, Current()) == Exec(stmt, old(Current()), fuel, float)
      decreases fuel, stmt, 1
    {
      match stmt
      case Empty =>
        r := Completed;
      case Block(block) =>
        r := ExecuteBlock(block, fuel);
      case Expression(e) =>
        var v := EvalExpr(e);
        r := if v.Ok? then Completed else Failed(v.error);
      case Print(e) =>
        var v := EvalExpr(e);
        if v.Err? {
          return Failed(v.error);
        }
        output := output + [Display(v.value, float.show)];
        r := Completed;
      case Var(name, init) =>
        var v := EvalExpr(init);
        if v.Err? {
          return Failed(v.error);
        }
        env := Define(env, name, v.value);
        r := Completed;
      case If(cond, thenBranch, elseBranch) =>
        var v := EvalExpr(cond);
        if v.Err? {
          return Failed(v.error);
        }
        if IsTruthy(v.value) {
          r := Execute(thenBranch, fuel);
        } else {
          r := Execute(elseBranch, fuel);
        }
      case While(cond, body) =>
        r := ExecuteWhile(cond, body, fuel);
    }

    /** Pushes a scope, runs the statements in order and pops the scope only
        if they all complete. */
    method ExecuteBlock(block: seq<Stmt>, fuel: nat) returns (r: Completion)
      requires Valid() && WellFormedStmt(Block(block))
      modifies this
      ensures Valid()
      ensures Executed(r, Current()) == Exec(Block(block), old(Current()), fuel, float)
      decreases fuel, Block(block), 0
    {
      env := PushScope(env);
      ghost var inner := Current();
      var i := 0;
      while i < |block|
        invariant 0 <= i <= |block| && Valid()
        invariant WellFormedStmts(block[i..])
        invariant ExecList(block, inner, fuel, float) == ExecList(block[i..], Current(), fuel, float)
      {
        assert block[i..][0] == block[i];
        assert block[i..][1..] == block[i + 1..];
        :- Execute(block[i], fuel);
        i := i + 1;
      }
      env := PopScope(env);
      r := Completed;
    }

    /** Re-evaluates the condition before every iteration and runs the body
        while it is truthy, each iteration spending one unit of fuel. */
    method ExecuteWhile(cond: Expr, body: Stmt, fuel: nat) returns (r: Completion)
      requires Valid() && WellFormedStmt(While(cond, body))
      modifies this
      ensures Valid()
      ensures Executed(r, Current()) == Exec(While(cond, body), old(Current()), fuel, float)
      decreases fuel, While(cond, body), 0
    {
      ghost var start := Current();
      var f: nat := fuel;
      while true
        invariant f <= fuel && Valid()
        invariant Exec(While(cond, body), start, fuel, float) == Exec(While(cond, body), Current(), f, float)
        decreases f
      {
        var v := EvalExpr(cond);
        if v.Err? {
          return Failed(v.error);
        }
        if !IsTruthy(v.value) {
          return Completed;
        }
        if f == 0 {
          return OutOfFuel;
        }
        :- Execute(body, f - 1);
        f := f - 1;
      }
    }

    method EvalExpr(e: Expr) returns (r: Result<Value>)
      requires WellFormedExpr(e)
      modifies this`env
      ensures Evaluated(r, env) == Eval(e, old(env), float)
      decreases e, 1
    {
      match e
      case Literal(lit) =>
        r := Ok(FromLiteral(lit));
      case Grouping(inner) =>
        r := EvalExpr(inner);
      case Unary(op, right) =>
        r := EvalUnaryExpr(op, right);
      case Binary(left, op, right) =>
        r := EvalBinaryExpr(left, op, right);
      case Variable(name) =>
        r := Get(env, name);
      case Assign(target, value) =>
        var v :- EvalExpr(value);
        var updated :- Environment.Assign(env, target, v);
        env := updated;
        r := Ok(v);
      case Logical(left, op, right) =>
        var leftVal :- EvalExpr(left);
        var leftTrue := IsTruthy(leftVal);
        if op.kind.Or? {
          if leftTrue {
            r := Ok(leftVal);
          } else {
            r := EvalExpr(right);
          }
        } else {
          if leftTrue {
            r := EvalExpr(right);
          } else {
            r := Ok(leftVal);
          }
        }
    }

    method EvalUnaryExpr(op: Token, right: Expr) returns (r: Result<Value>)
      requires WellFormedExpr(Unary(op, right))
      modifies this`env
      ensures Evaluated(r, env) == Eval(Unary(op, right), old(env), float)
      decreases Unary(op, right), 0
    {
      var v :- EvalExpr(right);
      r := UnaryOp(op, v);
    }

    method EvalBinaryExpr(left: Expr, op: Token, right: Expr) returns (r: Result<Value>)
      requires WellFormedExpr(Binary(left, op, right))
      modifies this`env
      ensures Evaluated(r, env) == Eval(Binary(left, op, right), old(env), float)
      decreases Binary(left, op, right), 0
    {
      var l :- EvalExpr(left);
      var rv :- EvalExpr(right);
      r := BinaryOp(op, l, rv, float);
    }
  }
}
