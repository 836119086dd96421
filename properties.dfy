/** The evaluator's rules stated over the reference semantics: evaluation
    order, short-circuit logic, assignment, branching, loops, scoping and
    fail-fast execution of statement sequences. */
module Properties {
  import opened Syntax
  import opened Values
  import opened Environment
  import opened Operators
  import opened Semantics

  /** An error in the left operand is the result of the whole binary
      expression: the right operand is never evaluated, so it can neither fail
      nor change the environment. */
  lemma LeftErrorSkipsRight(left: Expr, op: Token, right: Expr, env: Env, float: FloatOps)
    requires WellFormedExpr(Binary(left, op, right))
    requires Eval(left, env, float).result.Err?
    ensures Eval(Binary(left, op, right), env, float) == Eval(left, env, float)
  {
  }

  /** `or` returns a truthy left value and `and` a falsy one, untouched and
      without evaluating the right operand; otherwise the right operand,
      evaluated after the left, gives the result. */
  lemma ShortCircuit(left: Expr, op: Token, right: Expr, env: Env, float: FloatOps)
    requires WellFormedExpr(Logical(left, op, right))
    requires Eval(left, env, float).result.Ok?
    ensures var l := Eval(left, env, float);
      op.kind.Or? == IsTruthy(l.result.value) ==> Eval(Logical(left, op, right), env, float) == l
    ensures var l := Eval(left, env, float);
      op.kind.Or? != IsTruthy(l.result.value) ==>
        Eval(Logical(left, op, right), env, float) == Eval(right, l.env, float)
  {
  }

  /** An assignment to a bound name whose right-hand side evaluates succeeds,
      yields that value, and the target then reads as it; assigning a name no
      scope binds fails with an error carrying the target token. */
  lemma AssignYieldsValue(target: Token, value: Expr, env: Env, float: FloatOps)
    requires WellFormedExpr(Expr.Assign(target, value))
    ensures var v := Eval(value, env, float);
      var r := Eval(Expr.Assign(target, value), env, float);
      && (r.result.Ok? <==> v.result.Ok? && Get(v.env, target).Ok?)
      && (r.result.Ok? ==> r.result == v.result && Get(r.env, target) == v.result)
    ensures var v := Eval(value, env, float);
      v.result.Ok? && Get(v.env, target).Err? ==>
        Eval(Expr.Assign(target, value), env, float).result == Err(Runtime(target, "undefined variable"))
  {
    var v := Eval(value, env, float);
    if v.result.Ok? && Environment.Assign(v.env, target, v.result.value).Ok? {
      GetAfterAssign(v.env, target, v.result.value, target);
    }
  }

  /** After the condition, exactly one branch of an `if` runs: the first when
      the condition is truthy, the second otherwise. */
  lemma IfRunsOneBranch(cond: Expr, thenBranch: Stmt, elseBranch: Stmt, st: State, fuel: nat, float: FloatOps)
    requires WellFormedStmt(If(cond, thenBranch, elseBranch)) && |st.env| >= 1
    requires Eval(cond, st.env, float).result.Ok?
    ensures var v := Eval(cond, st.env, float);
      Exec(If(cond, thenBranch, elseBranch), st, fuel, float) ==
        if IsTruthy(v.result.value) then Exec(thenBranch, State(v.env, st.out), fuel, float)
        else Exec(elseBranch, State(v.env, st.out), fuel, float)
  {
  }

  /** A loop whose condition is falsy at the start runs its body zero times
      and completes, whatever the fuel. */
  lemma WhileFalseSkipsBody(cond: Expr, body: Stmt, st: State, fuel: nat, float: FloatOps)
    requires WellFormedStmt(While(cond, body)) && |st.env| >= 1
    requires Eval(cond, st.env, float).result.Ok?
    requires !IsTruthy(Eval(cond, st.env, float).result.value)
    ensures Exec(While(cond, body), st, fuel, float) ==
      Executed(Completed, State(Eval(cond, st.env, float).env, st.out))
  {
  }

  /** A block that completes leaves the scope stack as deep as it found it and
      every scope binding the same names: declarations inside it do not leak.
      A block that fails leaves its scope pushed. */
  lemma BlockScopesDeclarations(stmts: seq<Stmt>, st: State, fuel: nat, float: FloatOps)
    requires WellFormedStmt(Block(stmts)) && |st.env| >= 1
    ensures var r := Exec(Block(stmts), st, fuel, float);
      r.completion.Completed? ==> SameShape(st.env, r.state.env)
    ensures var r := Exec(Block(stmts), st, fuel, float);
      !r.completion.Completed? ==> |r.state.env| > |st.env|
  {
    var r := ExecList(stmts, State(PushScope(st.env), st.out), fuel, float);
    GrowsInsideScope(st, r.state);
  }

  /** Running two statement sequences one after the other is running their
      concatenation; in particular nothing after a failing statement runs. */
  lemma {:induction false} ExecListAppend(a: seq<Stmt>, b: seq<Stmt>, st: State, fuel: nat, float: FloatOps)
    requires WellFormedStmts(a) && WellFormedStmts(b) && |st.env| >= 1
    ensures WellFormedStmts(a + b)
    ensures var r := ExecList(a, st, fuel, float);
      ExecList(a + b, st, fuel, float) ==
        if r.completion.Completed? then ExecList(b, r.state, fuel, float) else r
  {
    assert WellFormedStmts(a + b) by {
      forall i | 0 <= i < |a + b|
        ensures WellFormedStmt((a + b)[i])
      {
        if i < |a| {
          assert (a + b)[i] == a[i];
        } else {
          assert (a + b)[i] == b[i - |a|];
        }
      }
    }
    if a != [] {
      var r := Exec(a[0], st, fuel, float);
      assert (a + b)[0] == a[0];
      assert (a + b)[1..] == a[1..] + b;
      if r.completion.Completed? {
        ExecListAppend(a[1..], b, r.state, fuel, float);
      }
    } else {
      assert a + b == b;
    }
  }

  /** If the statements before position `k` all complete and the statement at
      `k` does not, its outcome is the outcome of the whole sequence. */
  lemma FirstFailureStops(ss: seq<Stmt>, k: nat, st: State, fuel: nat, float: FloatOps)
    requires WellFormedStmts(ss) && |st.env| >= 1 && k < |ss|
    requires ExecList(ss[..k], st, fuel, float).completion.Completed?
    requires !Exec(ss[k], ExecList(ss[..k], st, fuel, float).state, fuel, float).completion.Completed?
    ensures ExecList(ss, st, fuel, float) ==
      Exec(ss[k], ExecList(ss[..k], st, fuel, float).state, fuel, float)
  {
    var pre := ExecList(ss[..k], st, fuel, float);
    assert ss == ss[..k] + ss[k..];
    ExecListAppend(ss[..k], ss[k..], st, fuel, float);
    assert ss[k..][0] == ss[k];
  }

  function Ident(name: string): Token {
    Token(Identifier(name), 1)
  }

  function Num(n: real): Expr {
    Expr.Literal(Literal.Number(n))
  }

  /** `var x = 1; { var x = 2; print x; } print x;` prints 2 then 1: the inner
      declaration shadows the outer one and the outer binding is visible again
      after the block. */
  lemma ShadowingExample(float: FloatOps)
    ensures var program := [
        Var("x", Num(1.0)),
        Block([Var("x", Num(2.0)), Print(Variable(Ident("x")))]),
        Print(Variable(Ident("x")))];
      ExecList(program, State([map[]], []), 0, float) ==
        Executed(Completed, State([map["x" := Value.Number(1.0)]], [float.show(2.0), float.show(1.0)]))
  {
  }

  /** `var x = 1; print x = 5;` prints 5, and `x` then reads as 5. */
  lemma AssignmentExample(float: FloatOps)
    ensures var program := [Var("x", Num(1.0)), Print(Expr.Assign(Ident("x"), Num(5.0)))];
      ExecList(program, State([map[]], []), 0, float) ==
        Executed(Completed, State([map["x" := Value.Number(5.0)]], [float.show(5.0)]))
  {
    var declared := [map["x" := Value.Number(1.0)]];
    var updated := [map["x" := Value.Number(5.0)]];
    assert Name(Ident("x")) == "x";
    assert Resolve(declared, "x") == Some(0);
    assert declared[0 := updated[0]] == updated;
    assert declared[0]["x" := Value.Number(5.0)] == updated[0];
    assert Environment.Assign(declared, Ident("x"), Value.Number(5.0)) == Ok(updated);
    assert Eval(Expr.Assign(Ident("x"), Num(5.0)), declared, float) ==
      Evaluated(Ok(Value.Number(5.0)), updated);
  }

  /** The block `{ var x = 2; x = 3; }` run under a global `x = 1` completes
      and, once its scope is popped, leaves the global binding as it was. */
  lemma ShadowedBlock(float: FloatOps)
    ensures var body := [Var("x", Num(2.0)), Expression(Expr.Assign(Ident("x"), Num(3.0)))];
      var globals := [map["x" := Value.Number(1.0)]];
      Exec(Block(body), State(globals, []), 0, float) == Executed(Completed, State(globals, []))
  {
    var x := Ident("x");
    var outer := map["x" := Value.Number(1.0)];
    var inner := [outer, map["x" := Value.Number(2.0)]];
    var after := [outer, map["x" := Value.Number(3.0)]];
    var body := [Var("x", Num(2.0)), Expression(Expr.Assign(x, Num(3.0)))];
    assert Name(x) == "x";
    assert Exec(Var("x", Num(2.0)), State([outer, map[]], []), 0, float) ==
      Executed(Completed, State(inner, []));
    assert Resolve(inner, "x") == Some(1);
    assert inner[1]["x" := Value.Number(3.0)] == after[1];
    assert inner[1 := after[1]] == after;
    assert Environment.Assign(inner, x, Value.Number(3.0)) == Ok(after);
    assert Eval(Expr.Assign(x, Num(3.0)), inner, float) == Evaluated(Ok(Value.Number(3.0)), after);
    assert Exec(Expression(Expr.Assign(x, Num(3.0))), State(inner, []), 0, float) ==
      Executed(Completed, State(after, []));
    assert body[0] == Var("x", Num(2.0)) && body[1..] == [Expression(Expr.Assign(x, Num(3.0)))];
    assert ExecList(body[1..][1..], State(after, []), 0, float) == Executed(Completed, State(after, []));
    assert ExecList(body[1..], State(inner, []), 0, float) == Executed(Completed, State(after, []));
    assert ExecList(body, State([outer, map[]], []), 0, float) == Executed(Completed, State(after, []));
    assert PushScope([outer]) == [outer, map[]] && PopScope(after) == [outer];
  }

  /** `var x = 1; { var x = 2; x = 3; } print x;` prints 1: assignment
      overwrites only the innermost binding, never a shadowed one. */
  lemma ShadowedAssignmentExample(float: FloatOps)
    ensures var program := [
        Var("x", Num(1.0)),
        Block([Var("x", Num(2.0)), Expression(Expr.Assign(Ident("x"), Num(3.0)))]),
        Print(Variable(Ident("x")))];
      ExecList(program, State([map[]], []), 0, float) ==
        Executed(Completed, State([map["x" := Value.Number(1.0)]], [float.show(1.0)]))
  {
    var x := Ident("x");
    var outer := map["x" := Value.Number(1.0)];
    assert Name(x) == "x";
    assert Exec(Var("x", Num(1.0)), State([map[]], []), 0, float) ==
      Executed(Completed, State([outer], []));
    ShadowedBlock(float);
    assert Resolve([outer], "x") == Some(0);
    assert Exec(Print(Variable(x)), State([outer], []), 0, float) ==
      Executed(Completed, State([outer], [float.show(1.0)]));
  }

  /** Fuel only cuts off loops: a run that did not exhaust its fuel gives the
      same outcome and state with any larger amount. */
  lemma {:induction false} ExecFuelMono(s: Stmt, st: State, f: nat, f': nat, float: FloatOps)
    requires WellFormedStmt(s) && |st.env| >= 1 && f <= f'
    requires !Exec(s, st, f, float).completion.OutOfFuel?
    ensures Exec(s, st, f', float) == Exec(s, st, f, float)
    decreases f, s, 1
  {
    match s
    case Block(stmts) =>
      ExecListFuelMono(stmts, State(PushScope(st.env), st.out), f, f', float);
    case If(cond, thenBranch, elseBranch) =>
      var v := Eval(cond, st.env, float);
      if v.result.Ok? {
        var branch := if IsTruthy(v.result.value) then thenBranch else elseBranch;
        ExecFuelMono(branch, State(v.env, st.out), f, f', float);
      }
    case While(cond, body) =>
      WhileFuelMono(cond, body, st, f, f', float);
    case _ =>
  }

  /** The loop case: each iteration spends one unit under either amount. */
  lemma {:induction false} WhileFuelMono(cond: Expr, body: Stmt, st: State, f: nat, f': nat, float: FloatOps)
    requires WellFormedStmt(While(cond, body)) && |st.env| >= 1 && f <= f'
    requires !Exec(While(cond, body), st, f, float).completion.OutOfFuel?
    ensures Exec(While(cond, body), st, f', float) == Exec(While(cond, body), st, f, float)
    decreases f, While(cond, body), 0
  {
    var v := Eval(cond, st.env, float);
    if v.result.Ok? && IsTruthy(v.result.value) {
      var r := Exec(body, State(v.env, st.out), f - 1, float);
      ExecFuelMono(body, State(v.env, st.out), f - 1, f' - 1, float);
      if r.completion.Completed? {
        ExecFuelMono(While(cond, body), r.state, f - 1, f' - 1, float);
      }
    }
  }

  /** The same for a statement sequence. */
  lemma {:induction false} ExecListFuelMono(ss: seq<Stmt>, st: State, f: nat, f': nat, float: FloatOps)
    requires WellFormedStmts(ss) && |st.env| >= 1 && f <= f'
    requires !ExecList(ss, st, f, float).completion.OutOfFuel?
    ensures ExecList(ss, st, f', float) == ExecList(ss, st, f, float)
    decreases f, ss
  {
    if ss != [] {
      var r := Exec(ss[0], st, f, float);
      ExecFuelMono(ss[0], st, f, f', float);
      if r.completion.Completed? {
        ExecListFuelMono(ss[1..], r.state, f, f', float);
      }
    }
  }
}
