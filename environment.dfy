/** The scope stack the evaluator mutates. Its source is not part of this model:
    this is the behaviour the evaluator relies on, stated as an assumption. The
    first frame is the global scope; the last is the innermost. Lookups and
    assignments search from the innermost frame outwards. */
module Environment {
  import opened Syntax
  import opened Values

  datatype Option<+T> = None | Some(value: T)

  type Env = seq<map<string, Value>>

  /** The name a variable token refers to. */
  function Name(tok: Token): string
    requires tok.kind.Identifier?
  {
    tok.kind.name
  }

  /** The innermost frame binding `name`, if any. */
  function Resolve(env: Env, name: string): (r: Option<nat>)
    ensures r.Some? ==> r.value < |env| && name in env[r.value]
    ensures r.Some? ==> forall j :: r.value < j < |env| ==> name !in env[j]
    ensures r.None? <==> forall j :: 0 <= j < |env| ==> name !in env[j]
  {
    if |env| == 0 then None
    else if name in env[|env| - 1] then Some(|env| - 1)
    else Resolve(env[..|env| - 1], name)
  }

  /** Resolution only looks at which frames bind the name. */
  lemma ResolveByMembership(a: Env, b: Env, name: string)
    requires |a| == |b|
    requires forall i :: 0 <= i < |a| ==> (name in a[i] <==> name in b[i])
    ensures Resolve(a, name) == Resolve(b, name)
  {
    var ra, rb := Resolve(a, name), Resolve(b, name);
    if ra.Some? {
      assert name in b[ra.value];
    }
    if rb.Some? {
      assert name in a[rb.value];
    }
  }

  /** Two environments with the same depth whose frames bind the same names. */
  ghost predicate SameShape(a: Env, b: Env) {
    |a| == |b| && forall i :: 0 <= i < |a| ==> a[i].Keys == b[i].Keys
  }

  /** Binds `name` in the innermost frame, overwriting an existing binding
      there. Never fails. */
  function Define(env: Env, name: string, v: Value): (r: Env)
    requires |env| >= 1
    ensures |r| == |env| && forall i :: 0 <= i < |env| - 1 ==> r[i] == env[i]
    ensures r[|env| - 1] == env[|env| - 1][name := v]
  {
    env[|env| - 1 := env[|env| - 1][name := v]]
  }

  /** The value of the innermost binding, or an error carrying the token. */
  function Get(env: Env, tok: Token): (r: Result<Value>)
    requires tok.kind.Identifier?
    ensures r.Ok? <==> exists i :: 0 <= i < |env| && Name(tok) in env[i]
    ensures r.Ok? ==> r.value == env[Resolve(env, Name(tok)).value][Name(tok)]
    ensures r.Err? ==> r.error == Runtime(tok, "undefined variable")
  {
    match Resolve(env, Name(tok))
    case Some(i) => Ok(env[i][Name(tok)])
    case None => Err(Runtime(tok, "undefined variable"))
  }

  /** Overwrites the innermost binding; never creates one, and leaves every
      other frame, including frames with a shadowed binding of the same
      name, as it was. */
  function Assign(env: Env, tok: Token, v: Value): (r: Result<Env>)
    requires tok.kind.Identifier?
    ensures r.Ok? <==> Get(env, tok).Ok?
    ensures r.Ok? ==> SameShape(env, r.value)
    ensures r.Ok? ==>
      var i := Resolve(env, Name(tok)).value;
      r.value[i] == env[i][Name(tok) := v] &&
      forall j :: 0 <= j < |env| && j != i ==> r.value[j] == env[j]
    ensures r.Err? ==> r.error == Runtime(tok, "undefined variable")
  {
    match Resolve(env, Name(tok))
    case Some(i) => Ok(env[i := env[i][Name(tok) := v]])
    case None => Err(Runtime(tok, "undefined variable"))
  }

  function PushScope(env: Env): (r: Env)
    ensures |r| == |env| + 1 && r[..|env|] == env && r[|env|] == map[]
  {
    env + [map[]]
  }

  /** Drops the innermost frame; the global frame is never dropped. */
  function PopScope(env: Env): (r: Env)
    requires |env| >= 2
    ensures |r| == |env| - 1 && r == env[..|env| - 1]
  {
    env[..|env| - 1]
  }

  /** Reading a name just defined yields the defined value; other names read
      as before. */
  lemma GetAfterDefine(env: Env, name: string, v: Value, tok: Token)
    requires |env| >= 1 && tok.kind.Identifier?
    ensures Name(tok) == name ==> Get(Define(env, name, v), tok) == Ok(v)
    ensures Name(tok) != name ==> Get(Define(env, name, v), tok) == Get(env, tok)
  {
    var env' := Define(env, name, v);
    if Name(tok) == name {
      assert Resolve(env', name) == Some(|env| - 1);
    } else {
      ResolveByMembership(env, env', Name(tok));
    }
  }

  /** After a successful assignment the name reads as the assigned value, and
      every other name reads as before. */
  lemma GetAfterAssign(env: Env, tok: Token, v: Value, other: Token)
    requires tok.kind.Identifier? && other.kind.Identifier?
    requires Assign(env, tok, v).Ok?
    ensures Get(Assign(env, tok, v).value, tok) == Ok(v)
    ensures Name(other) != Name(tok) ==>
      Get(Assign(env, tok, v).value, other) == Get(env, other)
  {
    var env' := Assign(env, tok, v).value;
    ResolveByMembership(env, env', Name(tok));
    ResolveByMembership(env, env', Name(other));
  }

  /** A declaration in a pushed scope shadows the outer binding, and popping
      the scope restores the environment exactly. */
  lemma ShadowThenPop(env: Env, name: string, v: Value, tok: Token)
    requires |env| >= 1 && tok.kind.Identifier? && Name(tok) == name
    ensures Get(Define(PushScope(env), name, v), tok) == Ok(v)
    ensures PopScope(Define(PushScope(env), name, v)) == env
  {
    GetAfterDefine(PushScope(env), name, v, tok);
  }
}
