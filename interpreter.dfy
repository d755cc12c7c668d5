/** The tree-walking evaluator of losos/interpreter.py. The visitor's
    `accept` dispatch is `match`; a raised LososRuntimeError is a `Failure`
    carrying the operator token and message it was raised with.

    Values are Python's None, bool, float and str. Python's float arithmetic
    and comparisons are not modelled: a `NumOps` record supplies them, so
    every statement below holds whatever the float operations compute. */
module Evaluation {
  import opened Wrappers
  import opened Tokens
  import opened Exprs
  import opened Grammar
  import opened Precedence
  import opened Printing

  /** Python's float operations as the evaluator uses them: `-x`, the four
      arithmetic operators, the four orderings, `==`, the floats 0.0 and 1.0
      (what False and True compare equal to) and `str`. */
  datatype NumOps = NumOps(
    negate: Number -> Number,
    add: (Number, Number) -> Number,
    subtract: (Number, Number) -> Number,
    multiply: (Number, Number) -> Number,
    divide: (Number, Number) -> Number,
    greater: (Number, Number) -> bool,
    greaterEqual: (Number, Number) -> bool,
    less: (Number, Number) -> bool,
    lessEqual: (Number, Number) -> bool,
    equal: (Number, Number) -> bool,
    zero: Number,
    one: Number,
    text: Number -> string)

  /** What evaluation can raise: the language's runtime error, or the
      ZeroDivisionError Python's float `/` raises for a zero divisor, which
      is not a LososRuntimeError. */
  datatype Raised = LoxError(token: Token, message: string) | DivisionByZero

  const OperandMustBeNumber := "Operand must be a number."
  const OperandsMustBeNumbers := "Operands must be numbers."
  const NumbersOrStrings := "Operands must be two numbers or two strings."

  /** The operators that demand two numbers: the orderings and `- / *`. */
  predicate IsNumericOperator(kind: TokenType)
  {
    kind == Greater || kind == GreaterEqual || kind == Less || kind == LessEqual ||
    kind == Minus || kind == Slash || kind == Star
  }

  predicate IsOrdering(kind: TokenType)
  {
    kind == Greater || kind == GreaterEqual || kind == Less || kind == LessEqual
  }

  /** `_is_truthy`: None and False are falsey, everything else is truthy. */
  predicate IsTruthy(v: Value)
  {
    match v
    case Nil => false
    case Bool(b) => b
    case _ => true
  }

  /** The float a bool compares equal to under Python's `==`. */
  function BoolNumber(b: bool, ops: NumOps): Number
  {
    if b then ops.one else ops.zero
  }

  /** `_is_equal`: None equals only None; otherwise Python's `==`, under which
      a bool equals the float 0.0 or 1.0 and a string equals only a string. */
  predicate IsEqual(a: Value, b: Value, ops: NumOps)
  {
    if a.Nil? && b.Nil? then true
    else if a.Nil? then false
    else match (a, b)
      case (Bool(x), Bool(y)) => x == y
      case (Bool(x), Num(n)) => ops.equal(BoolNumber(x, ops), n)
      case (Num(m), Bool(y)) => ops.equal(m, BoolNumber(y, ops))
      case (Num(m), Num(n)) => ops.equal(m, n)
      case (Str(s), Str(t)) => s == t
      case _ => false
  }

  /** `_check_number_operand`: the operand's float, or the error at the
      operator. */
  function CheckNumberOperand(operator: Token, operand: Value): (r: Result<Number, Raised>)
    ensures r.Success? <==> operand.Num?
    ensures r.Success? ==> r.value == operand.n
    ensures r.Failure? ==> r.error == LoxError(operator, OperandMustBeNumber)
  {
    if operand.Num? then Success(operand.n)
    else Failure(LoxError(operator, OperandMustBeNumber))
  }

  /** `_check_number_operands`: both floats, or the error at the operator.
      A bool is not a float here. */
  function CheckNumberOperands(operator: Token, left: Value, right: Value): (r: Result<(Number, Number), Raised>)
    ensures r.Success? <==> left.Num? && right.Num?
    ensures r.Success? ==> r.value == (left.n, right.n)
    ensures r.Failure? ==> r.error == LoxError(operator, OperandsMustBeNumbers)
  {
    if left.Num? && right.Num? then Success((left.n, right.n))
    else Failure(LoxError(operator, OperandsMustBeNumbers))
  }

  /** The body of `visit_unary_expr` once the operand is evaluated. An
      operator other than `!` and `-` falls through to None. */
  function ApplyUnary(operator: Token, right: Value, ops: NumOps): Result<Value, Raised>
  {
    if operator.kind == Bang then Success(Bool(!IsTruthy(right)))
    else if operator.kind == Minus then
      match CheckNumberOperand(operator, right)
      case Failure(err) => Failure(err)
      case Success(n) => Success(Num(ops.negate(n)))
    else Success(Nil)
  }

  /** An operator that checks both operands are floats and then applies `f`. */
  function Numeric(operator: Token, left: Value, right: Value, f: (Number, Number) -> Value): Result<Value, Raised>
  {
    match CheckNumberOperands(operator, left, right)
    case Failure(err) => Failure(err)
    case Success(p) => Success(f(p.0, p.1))
  }

  /** The body of `visit_binary_expr` once both operands are evaluated. An
      operator outside the grammar's ten falls through to None. */
  function ApplyBinary(operator: Token, left: Value, right: Value, ops: NumOps): Result<Value, Raised>
  {
    match operator.kind
    case Greater => Numeric(operator, left, right, (x, y) => Bool(ops.greater(x, y)))
    case GreaterEqual => Numeric(operator, left, right, (x, y) => Bool(ops.greaterEqual(x, y)))
    case Less => Numeric(operator, left, right, (x, y) => Bool(ops.less(x, y)))
    case LessEqual => Numeric(operator, left, right, (x, y) => Bool(ops.lessEqual(x, y)))
    case Minus => Numeric(operator, left, right, (x, y) => Num(ops.subtract(x, y)))
    case Plus =>
      if left.Num? && right.Num? then Success(Num(ops.add(left.n, right.n)))
      else if left.Str? && right.Str? then Success(Str(left.s + right.s))
      else Failure(LoxError(operator, NumbersOrStrings))
    case Slash =>
      (match CheckNumberOperands(operator, left, right)
       case Failure(err) => Failure(err)
       case Success(p) =>
         if ops.equal(p.1, ops.zero) then Failure(DivisionByZero)
         else Success(Num(ops.divide(p.0, p.1))))
    case Star => Numeric(operator, left, right, (x, y) => Num(ops.multiply(x, y)))
    case BangEqual => Success(Bool(!IsEqual(left, right, ops)))
    case EqualEqual => Success(Bool(IsEqual(left, right, ops)))
    case _ => Success(Nil)
  }

  /** `_evaluate`: a literal is its value, a grouping its inner expression's
      value; operands are evaluated left before right, both before any check,
      and the first error raised is the result. */
  function Evaluate(e: Expr, ops: NumOps): Result<Value, Raised>
  {
    match e
    case Literal(v) => Success(v)
    case Grouping(x) => Evaluate(x, ops)
    case Unary(op, x) =>
      (match Evaluate(x, ops)
       case Failure(err) => Failure(err)
       case Success(v) => ApplyUnary(op, v, ops))
    case Binary(l, op, r) =>
      match Evaluate(l, ops)
      case Failure(err) => Failure(err)
      case Success(a) =>
        match Evaluate(r, ops)
        case Failure(err) => Failure(err)
        case Success(b) => ApplyBinary(op, a, b, ops)
  }

  /** `_stringify`'s treatment of a float's text: one trailing ".0" goes. */
  function StripPointZero(t: string): (r: string)
    ensures r + ".0" == t || r == t
    ensures r == t <==> !(|t| >= 2 && t[|t| - 2..] == ".0")
  {
    if |t| >= 2 && t[|t| - 2..] == ".0" then t[..|t| - 2] else t
  }

  /** `_stringify`: None is "nil", a float its text without a trailing ".0",
      anything else Python's `str` (so a bool is "True" or "False"). */
  function Stringify(v: Value, ops: NumOps): string
  {
    match v
    case Nil => "nil"
    case Bool(b) => if b then "True" else "False"
    case Num(n) => StripPointZero(ops.text(n))
    case Str(s) => s
  }

  /** Truthiness: only None and False are falsey, so 0.0 and "" are truthy. */
  lemma Truthiness(v: Value, n: Number)
    ensures !IsTruthy(v) <==> v == Nil || v == Bool(false)
    ensures IsTruthy(Num(n)) && IsTruthy(Str(""))
  {
  }

  /** `!` never raises by itself: it yields the negated truthiness of its
      operand, and `!!x` is x's truthiness. */
  lemma BangNegatesTruthiness(bang: Token, x: Expr, ops: NumOps)
    requires bang.kind == Bang
    ensures Evaluate(Unary(bang, x), ops).Failure? <==> Evaluate(x, ops).Failure?
    ensures Evaluate(x, ops).Success? ==>
      Evaluate(Unary(bang, x), ops) == Success(Bool(!IsTruthy(Evaluate(x, ops).value))) &&
      Evaluate(Unary(bang, Unary(bang, x)), ops) == Success(Bool(IsTruthy(Evaluate(x, ops).value)))
  {
  }

  /** Unary `-` negates a float and raises "Operand must be a number." at
      the operator for any other operand, a bool included. */
  lemma NegateNeedsNumber(minus: Token, x: Expr, ops: NumOps)
    requires minus.kind == Minus && Evaluate(x, ops).Success?
    ensures var v := Evaluate(x, ops).value;
      Evaluate(Unary(minus, x), ops) ==
        if v.Num? then Success(Num(ops.negate(v.n))) else Failure(LoxError(minus, OperandMustBeNumber))
  {
  }

  /** What a numeric operator means on two floats `x` (left) and `y`
      (right): `>`, `>=`, `<`, `<=` compare x with y; `-` is x minus y,
      `*` is x times y; `/` is x divided by y, or Python's ZeroDivisionError
      when y equals zero. */
  predicate FloatMeaning(kind: TokenType, x: Number, y: Number, ops: NumOps, v: Result<Value, Raised>)
  {
    match kind
    case Greater => v == Success(Bool(ops.greater(x, y)))
    case GreaterEqual => v == Success(Bool(ops.greaterEqual(x, y)))
    case Less => v == Success(Bool(ops.less(x, y)))
    case LessEqual => v == Success(Bool(ops.lessEqual(x, y)))
    case Minus => v == Success(Num(ops.subtract(x, y)))
    case Star => v == Success(Num(ops.multiply(x, y)))
    case Slash =>
      if ops.equal(y, ops.zero) then v == Failure(DivisionByZero)
      else v == Success(Num(ops.divide(x, y)))
    case _ => false
  }

  /** The orderings and `- / *` raise "Operands must be numbers." at the
      operator unless both operands are floats; on floats each applies its
      own float operation to the left and then the right operand. */
  lemma NumericOperands(l: Expr, op: Token, r: Expr, ops: NumOps)
    requires IsNumericOperator(op.kind)
    requires Evaluate(l, ops).Success? && Evaluate(r, ops).Success?
    ensures var a, b, v := Evaluate(l, ops).value, Evaluate(r, ops).value, Evaluate(Binary(l, op, r), ops);
      (!(a.Num? && b.Num?) ==> v == Failure(LoxError(op, OperandsMustBeNumbers))) &&
      (a.Num? && b.Num? ==> FloatMeaning(op.kind, a.n, b.n, ops, v))
  {
    var a, b := Evaluate(l, ops).value, Evaluate(r, ops).value;
    assert Evaluate(Binary(l, op, r), ops) == ApplyBinary(op, a, b, ops);
    NumericApply(op, a, b, ops);
  }

  /** The same, for the operator applied to two evaluated operands. */
  lemma NumericApply(op: Token, a: Value, b: Value, ops: NumOps)
    requires IsNumericOperator(op.kind)
    ensures var v := ApplyBinary(op, a, b, ops);
      (!(a.Num? && b.Num?) ==> v == Failure(LoxError(op, OperandsMustBeNumbers))) &&
      (a.Num? && b.Num? ==> FloatMeaning(op.kind, a.n, b.n, ops, v))
  {
  }

  /** `+` adds two floats, concatenates two strings, and raises "Operands
      must be two numbers or two strings." for every other pair. */
  lemma PlusOperands(l: Expr, plus: Token, r: Expr, ops: NumOps)
    requires plus.kind == Plus
    requires Evaluate(l, ops).Success? && Evaluate(r, ops).Success?
    ensures var a, b := Evaluate(l, ops).value, Evaluate(r, ops).value;
      Evaluate(Binary(l, plus, r), ops) ==
        if a.Num? && b.Num? then Success(Num(ops.add(a.n, b.n)))
        else if a.Str? && b.Str? then Success(Str(a.s + b.s))
        else Failure(LoxError(plus, NumbersOrStrings))
  {
  }

  /** The left operand is evaluated first and its error wins; the right
      operand's error comes next; only then is the operator applied. */
  lemma LeftErrorFirst(l: Expr, op: Token, r: Expr, ops: NumOps)
    ensures Evaluate(l, ops).Failure? ==> Evaluate(Binary(l, op, r), ops) == Evaluate(l, ops)
    ensures Evaluate(l, ops).Success? && Evaluate(r, ops).Failure? ==>
      Evaluate(Binary(l, op, r), ops) == Evaluate(r, ops)
  {
  }

  /** `!=` is exactly the negation of `==`: the same errors, and otherwise
      opposite bools. */
  lemma NotEqualNegatesEqual(l: Expr, ne: Token, eq: Token, r: Expr, ops: NumOps)
    requires ne.kind == BangEqual && eq.kind == EqualEqual
    ensures var a, b := Evaluate(Binary(l, ne, r), ops), Evaluate(Binary(l, eq, r), ops);
      (a.Failure? <==> b.Failure?) && (a.Failure? ==> a == b) &&
      (a.Success? ==> b.value.Bool? && a.value == Bool(!b.value.b))
  {
  }

  /** None equals None and nothing else, on either side; a string equals
      exactly the equal string; and, as in Python, a bool equals the float
      0.0 or 1.0. Equality is symmetric when float equality is. */
  lemma EqualityCases(a: Value, b: Value, n: Number, s: string, t: string, ops: NumOps)
    ensures IsEqual(Nil, b, ops) <==> b == Nil
    ensures IsEqual(a, Nil, ops) <==> a == Nil
    ensures IsEqual(Str(s), b, ops) <==> b == Str(s)
    ensures IsEqual(Bool(true), Num(n), ops) <==> ops.equal(ops.one, n)
    ensures IsEqual(Num(n), Bool(false), ops) <==> ops.equal(n, ops.zero)
    ensures (forall x, y :: ops.equal(x, y) == ops.equal(y, x)) ==>
      (IsEqual(a, b, ops) <==> IsEqual(b, a, ops))
  {
  }

  /** The operator tokens of a tree, left to right. */
  function OperatorTokens(e: Expr): seq<Token>
  {
    match e
    case Binary(l, op, r) => OperatorTokens(l) + [op] + OperatorTokens(r)
    case Grouping(x) => OperatorTokens(x)
    case Literal(_) => []
    case Unary(op, x) => [op] + OperatorTokens(x)
  }

  /** A runtime error is raised at an operator of the tree, with the message
      that belongs to that operator: "Operand must be a number." at a `-`,
      "Operands must be numbers." at an ordering or `- / *`, and "Operands
      must be two numbers or two strings." at a `+`. */
  lemma {:induction false} ErrorSite(e: Expr, ops: NumOps)
    requires Evaluate(e, ops).Failure? && Evaluate(e, ops).error.LoxError?
    ensures var err := Evaluate(e, ops).error;
      err.token in OperatorTokens(e) &&
      ((err.message == OperandMustBeNumber && err.token.kind == Minus) ||
       (err.message == OperandsMustBeNumbers && IsNumericOperator(err.token.kind)) ||
       (err.message == NumbersOrStrings && err.token.kind == Plus))
  {
    match e
    case Literal(_) =>
    case Grouping(x) => ErrorSite(x, ops);
    case Unary(op, x) =>
      if Evaluate(x, ops).Failure? {
        ErrorSite(x, ops);
      }
    case Binary(l, op, r) =>
      if Evaluate(l, ops).Failure? {
        ErrorSite(l, ops);
      } else if Evaluate(r, ops).Failure? {
        ErrorSite(r, ops);
      }
  }

  /** A nil literal, possibly parenthesised. */
  predicate IsNilAtom(e: Expr)
  {
    match e
    case Literal(v) => v == Nil
    case Grouping(x) => IsNilAtom(x)
    case _ => false
  }

  /** On a tree the parser can build, the "unreachable" fall-throughs of the
      visitors are never taken: only a nil literal, possibly parenthesised,
      evaluates to None. */
  lemma {:induction false} OnlyNilIsNil(e: Expr, ops: NumOps)
    requires WellNested(e)
    ensures Evaluate(e, ops) == Success(Nil) ==> IsNilAtom(e)
  {
    match e
    case Grouping(x) => OnlyNilIsNil(x, ops);
    case _ =>
  }

  /** The tree with every grouping removed. */
  function Ungrouped(e: Expr): Expr
  {
    match e
    case Binary(l, op, r) => Binary(Ungrouped(l), op, Ungrouped(r))
    case Grouping(x) => Ungrouped(x)
    case Literal(v) => Literal(v)
    case Unary(op, x) => Unary(op, Ungrouped(x))
  }

  /** Parentheses only shape the tree: removing every grouping changes
      neither the value nor the error. */
  lemma {:induction false} GroupingTransparent(e: Expr, ops: NumOps)
    ensures Evaluate(Ungrouped(e), ops) == Evaluate(e, ops)
  {
    match e
    case Binary(l, op, r) => GroupingTransparent(l, ops); GroupingTransparent(r, ops);
    case Grouping(x) => GroupingTransparent(x, ops);
    case Literal(_) =>
    case Unary(op, x) => GroupingTransparent(x, ops);
  }

  /** What `_stringify` shows: None as "nil", bools as Python writes them,
      a string as itself without quotes, and a float as its text with one
      trailing ".0" removed when it has one. */
  lemma StringifyCases(n: Number, s: string, ops: NumOps)
    ensures Stringify(Nil, ops) == "nil"
    ensures Stringify(Bool(true), ops) == "True" && Stringify(Bool(false), ops) == "False"
    ensures Stringify(Str(s), ops) == s
    ensures Stringify(Num(n), ops) + ".0" == ops.text(n) || Stringify(Num(n), ops) == ops.text(n)
  {
  }

  /** What `interpret` would print for a value and what the tree printer
      prints for the same value as a literal agree, except that the former
      drops a float's trailing ".0". */
  lemma StringifyAgreesWithPrinter(v: Value, ops: NumOps)
    ensures !v.Num? ==> Stringify(v, ops) == LiteralText(v, ops.text)
    ensures v.Num? ==> Stringify(v, ops) == LiteralText(v, ops.text) ||
                       Stringify(v, ops) + ".0" == LiteralText(v, ops.text)
  {
  }

  /** Worked cases: `!nil` is true, `!0` is false, `"ab" + "cd"` is "abcd",
      `1 + "a"` is the `+` error, and a float whose text is "3.0" shows as
      "3". */
  lemma EvaluationExamples(bang: Token, plus: Token, n: Number, ops: NumOps)
    requires bang.kind == Bang && plus.kind == Plus
    ensures Evaluate(Unary(bang, Literal(Nil)), ops) == Success(Bool(true))
    ensures Evaluate(Unary(bang, Literal(Num(n))), ops) == Success(Bool(false))
    ensures Evaluate(Binary(Literal(Str("ab")), plus, Literal(Str("cd"))), ops) == Success(Str("abcd"))
    ensures Evaluate(Binary(Literal(Num(n)), plus, Literal(Str("a"))), ops) ==
      Failure(LoxError(plus, NumbersOrStrings))
    ensures ops.text(n) == "3.0" ==> Stringify(Num(n), ops) == "3"
  {
    assert "ab" + "cd" == "abcd";
    assert "3.0"[..1] == "3";
  }
}
