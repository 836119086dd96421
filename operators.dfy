/** The operator rules of the evaluator, once the operands are values: the
    number check shared by the arithmetic and comparison operators, and the
    dispatch on the operator token of unary and binary expressions. */
module Operators {
  import opened Syntax
  import opened Values

  /** Succeeds exactly when both operands are numbers; otherwise the error
      names the operator. */
  function AssertTwoNumbers(op: Token, left: Value, right: Value): (r: Result<()>)
    ensures r.Ok? <==> left.Number? && right.Number?
    ensures r.Err? ==> r.error == Runtime(op, "operands must be two numbers")
  {
    if TypeMatches(left, right) && IsNumber(left) then Ok(())
    else Err(Runtime(op, "operands must be two numbers"))
  }

  /** `!` negates truthiness of any operand and never fails; `-` negates a
      number and fails on anything else. The host computes `-1.0 * n`, which is
      exact for every non-NaN double up to the sign of zero: `-0` is the host's
      negative zero, which reals do not distinguish from `0.0`. */
  function UnaryOp(op: Token, right: Value): (r: Result<Value>)
    requires IsUnaryOperator(op.kind)
    ensures op.kind == Bang ==> r.Ok? && r.value.Boolean? && (r.value.b <==> !IsTruthy(right))
    ensures op.kind == Minus ==> (r.Ok? <==> right.Number?)
    ensures op.kind == Minus && r.Ok? ==> r.value == Value.Number(-right.n)
    ensures r.Err? ==> r.error == Runtime(op, "unary minus only applicable to numbers")
  {
    match op.kind
    case Bang => Ok(Value.Boolean(!IsTruthy(right)))
    case Minus =>
      if right.Number? then Ok(Value.Number(-1.0 * right.n))
      else Err(Runtime(op, "unary minus only applicable to numbers"))
  }

  /** The operator rule of a binary expression on already evaluated operands. */
  function BinaryOp(op: Token, left: Value, right: Value, float: FloatOps): (r: Result<Value>)
    requires IsBinaryOperator(op.kind)
    // equality takes any two operands and never fails
    ensures op.kind == EqualEqual ==> r == Ok(Value.Boolean(left == right && !left.Function?))
    ensures op.kind == BangEqual ==> r == Ok(Value.Boolean(!(left == right && !left.Function?)))
    // arithmetic and comparison need two numbers
    ensures IsNumericOperator(op.kind) ==> (r.Ok? <==> left.Number? && right.Number?)
    ensures IsNumericOperator(op.kind) && r.Err? ==>
      r.error == Runtime(op, "operands must be two numbers")
    ensures op.kind == Minus && r.Ok? ==> r.value == Value.Number(float.sub(left.n, right.n))
    ensures op.kind == Slash && r.Ok? ==> r.value == Value.Number(float.div(left.n, right.n))
    ensures op.kind == Star && r.Ok? ==> r.value == Value.Number(float.mul(left.n, right.n))
    ensures op.kind == Greater && r.Ok? ==> r.value == Value.Boolean(left.n > right.n)
    ensures op.kind == GreaterEqual && r.Ok? ==> r.value == Value.Boolean(left.n >= right.n)
    ensures op.kind == Less && r.Ok? ==> r.value == Value.Boolean(left.n < right.n)
    ensures op.kind == LessEqual && r.Ok? ==> r.value == Value.Boolean(left.n <= right.n)
    // `+` adds two numbers or concatenates two strings, and nothing else
    ensures op.kind == Plus ==>
      (r.Ok? <==> (left.Number? && right.Number?) || (left.String? && right.String?))
    ensures op.kind == Plus && left.Number? && right.Number? ==>
      r == Ok(Value.Number(float.add(left.n, right.n)))
    ensures op.kind == Plus && left.String? && right.String? ==>
      r == Ok(Value.String(left.s + right.s))
    ensures op.kind == Plus && r.Err? ==>
      r.error == Runtime(op, "+ needs either strings or numbers")
  {
    match op.kind
    case EqualEqual => Ok(Value.Boolean(Equals(left, right)))
    case BangEqual => Ok(Value.Boolean(!Equals(left, right)))
    case Minus =>
      var _ :- AssertTwoNumbers(op, left, right);
      Ok(Value.Number(float.sub(AsNumber(left), AsNumber(right))))
    case Slash =>
      var _ :- AssertTwoNumbers(op, left, right);
      Ok(Value.Number(float.div(AsNumber(left), AsNumber(right))))
    case Star =>
      var _ :- AssertTwoNumbers(op, left, right);
      Ok(Value.Number(float.mul(AsNumber(left), AsNumber(right))))
    case Plus =>
      (match (left, right)
       case (Number(a), Number(b)) => Ok(Value.Number(float.add(a, b)))
       case (String(a), String(b)) => Ok(Value.String(a + b))
       case _ => Err(Runtime(op, "+ needs either strings or numbers")))
    case Greater =>
      var _ :- AssertTwoNumbers(op, left, right);
      Ok(Value.Boolean(AsNumber(left) > AsNumber(right)))
    case GreaterEqual =>
      var _ :- AssertTwoNumbers(op, left, right);
      Ok(Value.Boolean(AsNumber(left) >= AsNumber(right)))
    case Less =>
      var _ :- AssertTwoNumbers(op, left, right);
      Ok(Value.Boolean(AsNumber(left) < AsNumber(right)))
    case LessEqual =>
      var _ :- AssertTwoNumbers(op, left, right);
      Ok(Value.Boolean(AsNumber(left) <= AsNumber(right)))
  }

  /** `!=` is always the boolean negation of `==`, for operands of any
      variants. */
  lemma BangEqualNegatesEqualEqual(line: nat, left: Value, right: Value, float: FloatOps)
    ensures BinaryOp(Token(BangEqual, line), left, right, float).Ok?
    ensures BinaryOp(Token(EqualEqual, line), left, right, float).Ok?
    ensures BinaryOp(Token(BangEqual, line), left, right, float).value.b
        == !BinaryOp(Token(EqualEqual, line), left, right, float).value.b
  {
  }

  /** Every error a binary operator raises is a runtime error naming that
      operator. */
  lemma BinaryErrorsNameOperator(op: Token, left: Value, right: Value, float: FloatOps)
    requires IsBinaryOperator(op.kind)
    ensures BinaryOp(op, left, right, float).Err? ==>
      BinaryOp(op, left, right, float).error.Runtime? &&
      BinaryOp(op, left, right, float).error.token == op
  {
  }
}
