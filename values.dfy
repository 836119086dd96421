/** Runtime values of the language and the rules on them: truthiness, variant
    checks and projections, conversion from literals and to numbers, rendering
    and equality. */
module Values {
  import opened Syntax

  /** A function value. Only its name and arity are modelled; the host closure
      it wraps is never invoked by any statement or expression. */
  datatype Callable = Callable(name: string, arity: nat)

  /** Numbers are reals: the IEEE values NaN and the infinities are not
      represented. */
  datatype Value =
    | Number(n: real)
    | String(s: string)
    | Boolean(b: bool)
    | Function(callable: Callable)
    | Nil

  /** `Runtime` is a user-facing error attributed to a token. `TryFrom` is the
      failed conversion of `culprit` to a number, whose message is the debug
      rendering of the culprit followed by "is not a number". */
  datatype Error =
    | Runtime(token: Token, message: string)
    | TryFrom(culprit: Value)

  datatype Result<+T> = Ok(value: T) | Err(error: Error) {
    predicate IsFailure() {
      Err?
    }

    function PropagateFailure<U>(): Result<U>
      requires Err?
    {
      Err(error)
    }

    function Extract(): T
      requires Ok?
    {
      value
    }
  }

  /** The host's double-precision arithmetic and its default number formatting,
      left abstract. */
  datatype FloatOps = FloatOps(
    add: (real, real) -> real,
    sub: (real, real) -> real,
    mul: (real, real) -> real,
    div: (real, real) -> real,
    show: real -> string)

  /** Only `nil` and `false` are falsy. */
  function IsTruthy(v: Value): (r: bool)
    ensures r <==> v != Value.Nil && v != Value.Boolean(false)
  {
    match v
    case Nil => false
    case Boolean(b) => b
    case _ => true
  }

  function IsNumber(v: Value): (r: bool)
    ensures r <==> exists n :: v == Value.Number(n)
  {
    if v.Number? then true else false
  }

  /** The payload of a number; calling it on any other variant is a defect. */
  function AsNumber(v: Value): (n: real)
    requires IsNumber(v)
    ensures Value.Number(n) == v
  {
    match v
    case Number(n) => n
  }

  function IsCallable(v: Value): (r: bool)
    ensures r <==> exists c :: v == Value.Function(c)
  {
    match v
    case Function(_) => true
    case _ => false
  }

  /** The callable inside a function value; calling it on any other variant is
      a defect. */
  function AsCallable(v: Value): (c: Callable)
    requires IsCallable(v)
    ensures Value.Function(c) == v
  {
    match v
    case Function(c) => c
  }

  /** The position of the variant in the declaration, as the host's
      discriminant. */
  function Discriminant(v: Value): nat {
    match v
    case Number(_) => 0
    case String(_) => 1
    case Boolean(_) => 2
    case Function(_) => 3
    case Nil => 4
  }

  /** Whether two values are of the same variant, payloads ignored. */
  function TypeMatches(a: Value, b: Value): (r: bool)
    ensures r <==>
      || (a.Number? && b.Number?)
      || (a.String? && b.String?)
      || (a.Boolean? && b.Boolean?)
      || (a.Function? && b.Function?)
      || (a.Nil? && b.Nil?)
  {
    Discriminant(a) == Discriminant(b)
  }

  /** Same-variant is an equivalence relation. */
  lemma TypeMatchesIsEquivalence(a: Value, b: Value, c: Value)
    ensures TypeMatches(a, a)
    ensures TypeMatches(a, b) == TypeMatches(b, a)
    ensures TypeMatches(a, b) && TypeMatches(b, c) ==> TypeMatches(a, c)
  {
  }

  /** A literal becomes the value of the same variant with the same payload. */
  function FromLiteral(lit: Literal): (r: Value)
    ensures lit.Number? <==> r.Number?
    ensures lit.String? <==> r.String?
    ensures lit.Boolean? <==> r.Boolean?
    ensures lit.Nil? <==> r.Nil?
    ensures lit.Number? ==> r.n == lit.n
    ensures lit.String? ==> r.s == lit.s
    ensures lit.Boolean? ==> r.b == lit.b
  {
    match lit
    case Number(n) => Value.Number(n)
    case String(s) => Value.String(s)
    case Boolean(b) => Value.Boolean(b)
    case Nil => Value.Nil
  }

  /** No literal produces a function, and distinct literals produce distinct
      values. */
  lemma FromLiteralIsInjective(a: Literal, b: Literal)
    ensures !FromLiteral(a).Function?
    ensures FromLiteral(a) == FromLiteral(b) ==> a == b
  {
  }

  /** The fallible conversion to a number. */
  function TryToNumber(v: Value): (r: Result<real>)
    ensures r.Ok? <==> IsNumber(v)
    ensures r.Ok? ==> r.value == AsNumber(v)
    ensures r.Err? ==> r.error == TryFrom(v)
  {
    if v.Number? then Ok(v.n) else Err(TryFrom(v))
  }

  /** The text a value prints as; numbers use the host's default formatting. */
  function Display(v: Value, show: real -> string): (r: string)
    ensures v.Number? ==> r == show(v.n)
    ensures v.String? ==> r == v.s
    ensures v.Boolean? ==> r == if v.b then "true" else "false"
    ensures v.Function? ==> r == "<function " + v.callable.name + ">"
    ensures v.Nil? ==> r == "nil"
  {
    match v
    case Number(n) => show(n)
    case String(s) => s
    case Boolean(b) => if b then "true" else "false"
    case Function(c) => "<function " + c.name + ">"
    case Nil => "nil"
  }

  /** Equality: values of different variants differ, numbers, strings and
      booleans compare by payload, `nil` equals `nil`, and a function equals
      nothing, itself included. */
  function Equals(a: Value, b: Value): (r: bool)
    ensures r <==> a == b && !a.Function?
  {
    match (a, b)
    case (Number(x), Number(y)) => x == y
    case (String(x), String(y)) => x == y
    case (Boolean(x), Boolean(y)) => x == y
    case (Function(_), Function(_)) => false
    case (Nil, Nil) => true
    case _ => false
  }

  /** Equality is symmetric on all pairs, implies same variant, and is
      reflexive exactly on the non-function values. */
  lemma EqualsLaws(a: Value, b: Value)
    ensures Equals(a, b) == Equals(b, a)
    ensures Equals(a, b) ==> TypeMatches(a, b)
    ensures Equals(a, a) <==> !IsCallable(a)
  {
  }
}
