# Lox tree-walking evaluator, modelled in Dafny

This project models the runtime core of a small Lox-style scripting language
(the language of *Crafting Interpreters*) written in Rust: the runtime value
type `LoxValue` with its truthiness, projection, conversion, rendering and
equality rules, and the `Interpreter` that walks an already parsed tree of
statements and expressions over one mutable scope stack.

Modules, leaves first:

- `Syntax` (`syntax.dfy`): tokens, literals, expressions and statements as the
  evaluator matches on them, plus `WellFormedExpr`/`WellFormedStmt`, the
  guarantees the parser gives (operator tokens the evaluator handles in their
  position, identifier tokens as variable and assignment targets).
- `Values` (`values.dfy`): `Value` (Number, String, Boolean, Function, Nil) and
  the rules of `src/value.rs`, each a function with a contract; the two
  projections require the matching variant.
- `Environment` (`environment.dfy`): the scope stack as `seq<map<string, Value>>`
  with define, get, assign, push and pop. Its source is not part of this
  model; this is the behaviour the interpreter relies on, stated as an
  assumption.
- `Operators` (`operators.dfy`): the pure part of `src/interpreter.rs`, namely
  the two-numbers check and the operator dispatch of unary and binary
  expressions once the operands are values.
- `Semantics` (`semantics.dfy`): reference functions `Eval`, `Exec` and
  `ExecList` giving the meaning of expressions and statements as functions of
  the environment and the printed output.
- `Properties` (`properties.dfy`): the language rules stated over those
  functions.
- `Interpreter` (`interpreter.dfy`): the `Interpreter` class, whose `env` field
  the methods update in place, each method proved to compute exactly what the
  reference functions say.

Numbers are Dafny `real`s. The host's `+`, `-`, `*`, `/` on doubles and its
default number formatting are left abstract as the function values of a
`FloatOps` record held by the interpreter. Negation (`-1.0 * n`) and the four
comparisons are exact on non-NaN doubles up to the sign of zero, and are
modelled as exact operations on reals.

Decisions where the source is silent or differs from the prose description:

- `src/stmt.rs` declares no `While` statement, yet `execute` matches on
  `Stmt::While(cond, body)`; the model's `Stmt` has that variant.
- A logical expression tests only whether its operator is `or`; any other
  token is evaluated as `and`. The model does the same and places no
  requirement on that token.
- `Token::new(kind, line)` takes no lexeme, so a variable's name is modelled
  as the payload of an `Identifier` token kind.
- `Environment::new` is assumed to create one empty global scope.
- The environment's "undefined variable" error text is an assumption; only
  "a runtime error carrying the variable's token" is relied on.

## Model

| member | source | states |
|---|---|---|
| Values.IsTruthy | src/value.rs:25-31 | false exactly for `Nil` and `Boolean(false)`; every number, string (empty included) and function is truthy |
| Values.IsNumber | src/value.rs:33-39 | holds iff the value is a Number of some payload |
| Values.AsNumber | src/value.rs:41-47 | callable only on a Number, and returns the payload (wrapping it again gives back the value) |
| Values.IsCallable | src/value.rs:49-54 | holds iff the value is a Function |
| Values.AsCallable | src/value.rs:56-61 | callable only on a Function, and returns its callable |
| Values.TypeMatches | src/value.rs:63-66 | holds iff both values are of the same variant, payloads ignored |
| Values.TypeMatchesIsEquivalence | src/value.rs:63-66 | same-variant is reflexive, symmetric and transitive |
| Values.FromLiteral | src/value.rs:69-78 | a literal becomes the value of the same variant with the same payload |
| Values.FromLiteralIsInjective | src/value.rs:69-78 | no literal yields a function, and distinct literals yield distinct values |
| Values.TryToNumber | src/value.rs:80-90 | succeeds iff the value is a Number, returning its payload; otherwise fails with a TryFrom error about that value |
| Values.Display | src/value.rs:92-102 | Nil renders `nil`, booleans `true`/`false`, strings their raw contents, functions `<function NAME>`, numbers by the host formatter |
| Values.Equals | src/value.rs:104-117 | equal iff structurally equal and not a function: different variants never equal, payloads compared otherwise, `nil == nil` |
| Values.EqualsLaws | src/value.rs:104-117 | equality is symmetric, implies same variant, and is reflexive exactly on non-function values |
| Environment.Resolve | src/interpreter.rs:85-88 | the innermost scope binding the name: it binds it, no inner scope does, and none is found iff no scope binds it |
| Environment.Define | src/interpreter.rs:50-53 | binds the name in the innermost scope only, leaving the outer scopes untouched |
| Environment.Get | src/interpreter.rs:85 | succeeds iff some scope binds the name, returning its value in the innermost scope binding it; otherwise a runtime error carrying the token |
| Environment.Assign | src/interpreter.rs:88 | succeeds iff the name is bound, overwrites it in the innermost scope binding it and leaves every other scope (shadowed ones included) as it was, never creates a binding; otherwise fails with an error carrying the token |
| Environment.PushScope | src/interpreter.rs:31 | adds one empty innermost scope above the unchanged stack |
| Environment.PopScope | src/interpreter.rs:41 | drops the innermost scope and never the global one |
| Environment.GetAfterDefine | src/interpreter.rs:50-53 | a defined name reads as its new value; every other name reads as before |
| Environment.GetAfterAssign | src/interpreter.rs:86-90 | after assignment the name reads as the assigned value; every other name reads as before |
| Environment.ShadowThenPop | src/interpreter.rs:30-42 | a declaration in a pushed scope shadows the outer one, and popping restores the stack exactly |
| Operators.AssertTwoNumbers | src/interpreter.rs:199-208 | succeeds iff both operands are numbers; otherwise the runtime error "operands must be two numbers" carrying the operator |
| Operators.UnaryOp | src/interpreter.rs:114-131 | `!` never fails and yields the negated truthiness; `-` succeeds iff the operand is a number and yields its negation, otherwise fails naming the operator |
| Operators.BinaryOp | src/interpreter.rs:133-197 | `==`/`!=` never fail; `- / * > >= < <=` succeed iff both operands are numbers and compute the operation; `+` adds numbers, concatenates strings and fails with "+ needs either strings or numbers" otherwise |
| Operators.BangEqualNegatesEqualEqual | src/interpreter.rs:146-147 | `!=` always yields the boolean negation of `==`, for operands of any variants |
| Operators.BinaryErrorsNameOperator | src/interpreter.rs:133-197 | every error of a binary operator is a runtime error carrying that operator's token |
| Semantics.Eval | src/interpreter.rs:77-112 | evaluating an expression keeps the scope stack's depth and every scope's set of names (only values of bound names change) |
| Semantics.Exec | src/interpreter.rs:27-75 | a statement never pops scopes it did not push, leaves the depth unchanged when it completes, never changes outer scopes' names, and only appends output |
| Semantics.ExecList | src/interpreter.rs:19-25 | the same frame and output guarantees for a statement sequence run in order |
| Properties.LeftErrorSkipsRight | src/interpreter.rs:141-142 | an error in the left operand is the whole result: the right operand is never evaluated |
| Properties.ShortCircuit | src/interpreter.rs:91-108 | `or` returns a truthy left value and `and` a falsy one without evaluating the right; otherwise the right, evaluated after the left, is the result |
| Properties.AssignYieldsValue | src/interpreter.rs:86-90 | assignment succeeds iff the right-hand side evaluates and the target is then bound; it yields the right-hand value and the target then reads as it; an unbound target fails with an error carrying the target token |
| Properties.IfRunsOneBranch | src/interpreter.rs:56-62 | exactly one branch runs, chosen by the truthiness of the condition |
| Properties.WhileFalseSkipsBody | src/interpreter.rs:64-71 | a loop whose condition is falsy at the start runs the body zero times and completes |
| Properties.BlockScopesDeclarations | src/interpreter.rs:30-42 | a completed block leaves the same scopes binding the same names; a failed block leaves its scope pushed |
| Properties.ExecListAppend | src/interpreter.rs:19-25 | running a concatenation is running the parts in turn, the second only if the first completed |
| Properties.FirstFailureStops | src/interpreter.rs:19-25 | the first statement that does not complete decides the outcome; none after it runs |
| Properties.ShadowingExample | src/interpreter.rs:30-42 | `var x = 1; { var x = 2; print x; } print x;` prints 2 then 1 |
| Properties.AssignmentExample | src/interpreter.rs:86-90 | `var x = 1; print x = 5;` prints 5 and leaves `x` bound to 5 |
| Properties.ShadowedBlock | src/interpreter.rs:30-42 | `{ var x = 2; x = 3; }` under a global `x = 1` completes and, after the pop, leaves the global stack as it was |
| Properties.ShadowedAssignmentExample | src/interpreter.rs:86-90 | `var x = 1; { var x = 2; x = 3; } print x;` assigns the inner `x` only and prints 1 |
| Properties.ExecFuelMono | src/interpreter.rs:64-71 | a statement that does not run out of fuel has the same outcome and state under any larger fuel: fuel only cuts off loops |
| Properties.WhileFuelMono | src/interpreter.rs:64-71 | a loop that does not run out of fuel has the same outcome and state under any larger fuel |
| Properties.ExecListFuelMono | src/interpreter.rs:19-25 | the same for a statement sequence |
| Interpreter.Interpreter.constructor | src/interpreter.rs:13-17 | a new interpreter has one empty global scope and no output |
| Interpreter.Interpreter.Interpret | src/interpreter.rs:19-25 | the loop over statements computes `ExecList`: stops at the first statement that does not complete |
| Interpreter.Interpreter.Execute | src/interpreter.rs:27-75 | the statement dispatch computes `Exec` on the interpreter's environment and output |
| Interpreter.Interpreter.ExecuteBlock | src/interpreter.rs:30-42 | push, run the statements, pop only on success, as `Exec` of a block |
| Interpreter.Interpreter.ExecuteWhile | src/interpreter.rs:64-71 | the loop re-evaluates the condition before every iteration, as `Exec` of a while statement |
| Interpreter.Interpreter.EvalExpr | src/interpreter.rs:77-112 | the expression dispatch computes `Eval`, updating the environment only through assignment |
| Interpreter.Interpreter.EvalUnaryExpr | src/interpreter.rs:114-131 | evaluates the operand, then applies the unary rule, as `Eval` of a unary expression |
| Interpreter.Interpreter.EvalBinaryExpr | src/interpreter.rs:133-197 | evaluates left then right, then applies the binary rule, as `Eval` of a binary expression |

## Left out

- IEEE-754 behaviour of `f64`: NaN, the infinities, rounding, signed zero
  (`-0.0`, which `-0` yields and the host prints as `-0`, is the real `0.0`
  here) and division by zero (which yields an infinity or NaN in the source)
  are not represented; `+`, `-`, `*`, `/` and number formatting are abstract
  host operations.
- Operators.UnaryOp: negation of zero yields `0.0`, where the source yields
  `-0.0`; reals have no negative zero.
- Interpreter.Interpreter.ExecuteWhile: a loop may iterate only as often as
  the fuel allows and then reports `OutOfFuel`, where the source would keep
  looping; Dafny needs the bound to prove termination.
- Semantics.Exec: the same fuel bound applies to the reference semantics, and
  every property about loops holds for the fuel given.
- The closure inside a function value (`Func`, `new_callable`) and the
  `callable` module are not part of this model: no statement or expression
  invokes a function, so a function value is a name and an arity.
- Writing to standard output: `println!` is modelled as appending the rendered
  line, without its terminator, to a ghost output sequence.
- The `unreachable!` and `panic!` defects (unexpected operator kinds,
  projecting the wrong variant) are preconditions, not modelled errors.
- The `Error` type beyond "a runtime error carrying a token and a message"
  and "a conversion error about a value"; the debug rendering in the
  conversion error's message is not modelled.
- The environment's own source, its error texts and `Environment::new`: they
  are not part of this model and are stated as assumptions above.
- Call-stack exhaustion on deeply nested input: the recursion is modelled
  without a depth limit.
- `src/bin/ast_printer.rs`, a demonstration driver that prints one fixed tree.
