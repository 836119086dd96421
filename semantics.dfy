/** The meaning of expressions and statements as functions of the environment
    and the printed output. The interpreter's methods are proved to compute
    exactly these functions; the lemmas below state the language's rules in
    terms of them. */
module Semantics {
  import opened Syntax
  import opened Values
  import opened Environment
  import opened Operators

  /** The outcome of evaluating an expression and the environment after it. */
  datatype Evaluated = Evaluated(result: Result<Value>, env: Env)

  /** Reduces an expression to a value, left to right, stopping at the first
      error. Only assignment changes the environment, and only the values of
      names already bound. */
  function Eval(e: Expr, env: Env, float: FloatOps): (r: Evaluated)
    requires WellFormedExpr(e)
    ensures SameShape(env, r.env)
    decreases e
  {
    match e
    case Literal(lit) => Evaluated(Ok(FromLiteral(lit)), env)
    case Grouping(inner) => Eval(inner, env, float)
    case Unary(op, right) =>
      var r := Eval(right, env, float);
      if r.result.Err? then r
      else Evaluated(UnaryOp(op, r.result.value), r.env)
    case Binary(left, op, right) =>
      var l := Eval(left, env, float);
      if l.result.Err? then l
      else
        var r := Eval(right, l.env, float);
        if r.result.Err? then r
        else Evaluated(BinaryOp(op, l.result.value, r.result.value, float), r.env)
    case Variable(name) => Evaluated(Get(env, name), env)
    case Assign(target, value) =>
      var r := Eval(value, env, float);
      if r.result.Err? then r
      else
        (match Environment.Assign(r.env, target, r.result.value)
         case Ok(env') => Evaluated(r.result, env')
         case Err(error) => Evaluated(Err(error), r.env))
    case Logical(left, op, right) =>
      var l := Eval(left, env, float);
      if l.result.Err? then l
      else if op.kind.Or? then
        if IsTruthy(l.result.value) then l else Eval(right, l.env, float)
      else
        if IsTruthy(l.result.value) then Eval(right, l.env, float) else l
  }

  /** What the interpreter can observe: its environment and the lines it has
      printed so far. */
  datatype State = State(env: Env, out: seq<string>)

  /** How a statement finished. `OutOfFuel` marks a loop that ran longer than
      the fuel allowed; the language itself has no such outcome. */
  datatype Completion = Completed | Failed(error: Error) | OutOfFuel {
    predicate IsFailure() {
      !Completed?
    }

    function PropagateFailure(): Completion
      requires !Completed?
    {
      this
    }
  }

  datatype Executed = Executed(completion: Completion, state: State)

  /** `after` is what running statements can make of `before`: scopes may be
      left pushed (only after a failure), the frames below the innermost keep
      their names, the innermost only gains names, and output only grows. */
  ghost predicate Grows(before: State, after: State)
    requires |before.env| >= 1
  {
    var d := |before.env|;
    && |after.env| >= d
    && (forall i :: 0 <= i < d - 1 ==> after.env[i].Keys == before.env[i].Keys)
    && before.env[d - 1].Keys <= after.env[d - 1].Keys
    && before.out <= after.out
  }

  lemma GrowsByShape(before: State, env: Env, out: seq<string>)
    requires |before.env| >= 1 && SameShape(before.env, env) && before.out <= out
    ensures Grows(before, State(env, out))
  {
  }

  lemma GrowsByDefine(before: State, env: Env, name: string, v: Value)
    requires |before.env| >= 1 && SameShape(before.env, env)
    ensures Grows(before, State(Define(env, name, v), before.out))
  {
  }

  lemma GrowsTransitive(a: State, b: State, c: State)
    requires |a.env| >= 1 && |b.env| == |a.env|
    requires Grows(a, b) && Grows(b, c)
    ensures Grows(a, c)
  {
  }

  /** Running inside a pushed scope leaves the enclosing frames' names alone. */
  lemma GrowsInsideScope(before: State, after: State)
    requires |before.env| >= 1
    requires Grows(State(PushScope(before.env), before.out), after)
    ensures Grows(before, after)
    ensures |after.env| == |before.env| + 1 ==>
      SameShape(before.env, PopScope(after.env)) &&
      Grows(before, State(PopScope(after.env), after.out))
  {
  }

  /** The state after an expression is evaluated for its effect only. */
  function AfterExpr(v: Evaluated, out: seq<string>): Executed
  {
    Executed(if v.result.Ok? then Completed else Failed(v.result.error), State(v.env, out))
  }

  /** Runs one statement with `fuel` bounding how often loops may iterate. A
      block pushes a scope and pops it only when its statements all
      complete; a failure propagates with the scope left pushed. */
  function Exec(s: Stmt, st: State, fuel: nat, float: FloatOps): (r: Executed)
    requires WellFormedStmt(s) && |st.env| >= 1
    ensures Grows(st, r.state)
    ensures r.completion.Completed? ==> |r.state.env| == |st.env|
    decreases fuel, s
  {
    match s
    case Empty => Executed(Completed, st)
    case Block(stmts) =>
      var r := ExecList(stmts, State(PushScope(st.env), st.out), fuel, float);
      GrowsInsideScope(st, r.state);
      if r.completion.Completed? then Executed(Completed, State(PopScope(r.state.env), r.state.out))
      else r
    case Expression(e) =>
      var v := Eval(e, st.env, float);
      GrowsByShape(st, v.env, st.out);
      AfterExpr(v, st.out)
    case Print(e) =>
      var v := Eval(e, st.env, float);
      GrowsByShape(st, v.env, st.out);
      if v.result.Err? then AfterExpr(v, st.out)
      else
        var line := Display(v.result.value, float.show);
        GrowsByShape(st, v.env, st.out + [line]);
        Executed(Completed, State(v.env, st.out + [line]))
    case Var(name, init) =>
      var v := Eval(init, st.env, float);
      GrowsByShape(st, v.env, st.out);
      if v.result.Err? then AfterExpr(v, st.out)
      else
        GrowsByDefine(st, v.env, name, v.result.value);
        Executed(Completed, State(Define(v.env, name, v.result.value), st.out))
    case If(cond, thenBranch, elseBranch) =>
      var v := Eval(cond, st.env, float);
      var st' := State(v.env, st.out);
      GrowsByShape(st, v.env, st.out);
      if v.result.Err? then AfterExpr(v, st.out)
      else
        var r := Exec(if IsTruthy(v.result.value) then thenBranch else elseBranch, st', fuel, float);
        GrowsTransitive(st, st', r.state);
        r
    case While(cond, body) =>
      var v := Eval(cond, st.env, float);
      var st' := State(v.env, st.out);
      GrowsByShape(st, v.env, st.out);
      if v.result.Err? || !IsTruthy(v.result.value) then AfterExpr(v, st.out)
      else if fuel == 0 then Executed(OutOfFuel, st')
      else
        var r := Exec(body, st', fuel - 1, float);
        GrowsTransitive(st, st', r.state);
        if !r.completion.Completed? then r
        else
          var r' := Exec(s, r.state, fuel - 1, float);
          GrowsTransitive(st, r.state, r'.state);
          r'
  }

  /** Runs statements in order, stopping at the first that does not complete. */
  function ExecList(ss: seq<Stmt>, st: State, fuel: nat, float: FloatOps): (r: Executed)
    requires WellFormedStmts(ss) && |st.env| >= 1
    ensures Grows(st, r.state)
    ensures r.completion.Completed? ==> |r.state.env| == |st.env|
    decreases fuel, ss
  {
    if ss == [] then Executed(Completed, st)
    else
      var r := Exec(ss[0], st, fuel, float);
      if !r.completion.Completed? then r
      else
        var r' := ExecList(ss[1..], r.state, fuel, float);
        GrowsTransitive(st, r.state, r'.state);
        r'
  }
}
