/** The expression grammar of losos/parser.py as functions over a token list
    and a cursor position. The precedence ladder is a level number:

      0 equality   (!= ==)          left-associative
      1 comparison (> >= < <=)      left-associative
      2 term       (- +)            left-associative
      3 factor     (/ *)            left-associative
      4 unary      (! -)            prefix, right-recursive
      5 primary    literals and parenthesised expressions

    The parser's sentinel exception becomes a `Failure` carrying the token
    and message it was raised with. The class in module Parsing is proved to
    compute exactly these functions. */
module Grammar {
  import opened Wrappers
  import opened Tokens
  import opened Exprs
  import opened Reporting

  /** What `_error` reports before the parse unwinds. */
  datatype Fault = Fault(token: Token, message: string)

  /** A parsed expression and the position of the first token after it. */
  datatype Parsed = Parsed(expr: Expr, next: nat)

  const ExpectExpression := "Expect expression."
  const ExpectRightParen := "Expect ')' after expression."

  /** A token list as the scanner produces it: it ends with end of input. */
  predicate WellFormed(ts: seq<Token>)
  {
    |ts| >= 1 && ts[|ts| - 1].kind == Eof
  }

  /** The operators of a binary level, in the order `_match` tries them. */
  function Operators(level: nat): (ops: seq<TokenType>)
    requires level < 4
    ensures forall k :: k in ops <==> LevelOf(k) == level
  {
    if level == 0 then [BangEqual, EqualEqual]
    else if level == 1 then [Greater, GreaterEqual, Less, LessEqual]
    else if level == 2 then [Minus, Plus]
    else [Slash, Star]
  }

  /** The binary level an operator kind belongs to; 4 for every other kind. */
  function LevelOf(kind: TokenType): nat
  {
    match kind
    case BangEqual | EqualEqual => 0
    case Greater | GreaterEqual | Less | LessEqual => 1
    case Minus | Plus => 2
    case Slash | Star => 3
    case _ => 4
  }

  /** `_check`: the token under the cursor has this kind, and the cursor is
      not at end of input. */
  predicate Checks(ts: seq<Token>, pos: nat, kind: TokenType)
    requires pos < |ts|
  {
    ts[pos].kind != Eof && ts[pos].kind == kind
  }

  /** `_match` with several kinds succeeds when one of them checks. */
  predicate MatchesAny(ts: seq<Token>, pos: nat, kinds: seq<TokenType>)
    requires pos < |ts|
  {
    ts[pos].kind != Eof && ts[pos].kind in kinds
  }

  /** The token under the cursor is an operator of binary level `level`:
      `_match` over that level's operators succeeds. */
  predicate OperatorAt(ts: seq<Token>, pos: nat, level: nat)
    requires pos < |ts|
  {
    ts[pos].kind != Eof && LevelOf(ts[pos].kind) == level
  }

  /** Matching the operator list of a level is being at an operator of it. */
  lemma OperatorsMatch(ts: seq<Token>, pos: nat, level: nat)
    requires pos < |ts| && level < 4
    ensures MatchesAny(ts, pos, Operators(level)) <==> OperatorAt(ts, pos, level)
  {
  }

  /** The kinds `_unary` matches. */
  predicate IsUnaryOperator(kind: TokenType)
  {
    kind == Bang || kind == Minus
  }

  /** A position whose token is not end of input is followed by another
      token: the cursor never passes end of input. */
  lemma NotLast(ts: seq<Token>, pos: nat)
    requires WellFormed(ts) && pos < |ts| && ts[pos].kind != Eof
    ensures pos + 1 < |ts|
  {
  }

  /** One rung of the ladder at `pos`: levels 0 to 3 parse an operand of the
      next level and then fold in operators of their own level, level 4 is
      unary and level 5 is primary. */
  function ParseLevel(ts: seq<Token>, level: nat, pos: nat): (r: Result<Parsed, Fault>)
    requires WellFormed(ts) && pos < |ts| && level <= 5
    ensures r.Success? ==> pos < r.value.next < |ts|
    decreases |ts| - pos, 6 - level, 1
  {
    if level < 4 then
      match ParseLevel(ts, level + 1, pos)
      case Failure(f) => Failure(f)
      case Success(p) => Fold(ts, level, p.expr, p.next)
    else if level == 4 then
      if IsUnaryOperator(ts[pos].kind) then
        NotLast(ts, pos);
        match ParseLevel(ts, 4, pos + 1)
        case Failure(f) => Failure(f)
        case Success(p) => Success(Parsed(Unary(ts[pos], p.expr), p.next))
      else ParseLevel(ts, 5, pos)
    else Primary(ts, pos)
  }

  /** The loop of a binary level: while an operator of the level follows,
      parse the next operand and make the expression so far its left side. */
  function Fold(ts: seq<Token>, level: nat, left: Expr, pos: nat): (r: Result<Parsed, Fault>)
    requires WellFormed(ts) && pos < |ts| && level < 4
    ensures r.Success? ==> pos <= r.value.next < |ts|
    decreases |ts| - pos, 6 - level, 0
  {
    if OperatorAt(ts, pos, level) then
      NotLast(ts, pos);
      match ParseLevel(ts, level + 1, pos + 1)
      case Failure(f) => Failure(f)
      case Success(p) => Fold(ts, level, Binary(left, ts[pos], p.expr), p.next)
    else Success(Parsed(left, pos))
  }

  /** `_primary`: a literal, a parenthesised expression, or the
      "Expect expression." error at the token under the cursor. */
  function Primary(ts: seq<Token>, pos: nat): (r: Result<Parsed, Fault>)
    requires WellFormed(ts) && pos < |ts|
    ensures r.Success? ==> pos < r.value.next < |ts|
    decreases |ts| - pos, 0, 0
  {
    match LiteralOf(ts[pos])
    case Some(v) => NotLast(ts, pos); Success(Parsed(Literal(v), pos + 1))
    case None =>
      if ts[pos].kind == LeftParen then NotLast(ts, pos); Group(ts, pos + 1)
      else Failure(Fault(ts[pos], ExpectExpression))
  }

  /** The value of a literal token: false, true and nil by kind, numbers and
      strings the literal the scanner stored; none for other tokens. */
  function LiteralOf(t: Token): Option<Value>
  {
    match t.kind
    case KwFalse => Some(Bool(false))
    case KwTrue => Some(Bool(true))
    case KwNil => Some(Nil)
    case NumberLit | StringLit => Some(t.literal)
    case _ => None
  }

  /** The rest of a parenthesised expression after its '(': an expression,
      then a ')' or the "Expect ')' after expression." error at the token
      found instead. */
  function Group(ts: seq<Token>, pos: nat): (r: Result<Parsed, Fault>)
    requires WellFormed(ts) && pos < |ts|
    ensures r.Success? ==> pos < r.value.next < |ts|
    ensures r.Success? ==> r.value.expr.Grouping? && ts[r.value.next - 1].kind == RightParen
    decreases |ts| - pos, 6, 2
  {
    match ParseLevel(ts, 0, pos)
    case Failure(f) => Failure(f)
    case Success(p) =>
      if Checks(ts, p.next, RightParen) then Success(Parsed(Grouping(p.expr), p.next + 1))
      else Failure(Fault(ts[p.next], ExpectRightParen))
  }

  /** `parse`: the first expression of the list, or none after an error.
      Tokens after the expression are not looked at. */
  function Parse(ts: seq<Token>): Option<Expr>
    requires WellFormed(ts)
  {
    match ParseLevel(ts, 0, 0)
    case Success(p) => Some(p.expr)
    case Failure(_) => None
  }

  /** The line `_error` writes for a fault. */
  function FaultText(f: Fault): string
  {
    Diagnostic(f.token.line, TokenLocation(f.token), f.message)
  }

  /** The diagnostics `parse` reports: one for a failed parse, none otherwise. */
  function ParseErrors(ts: seq<Token>): (errs: seq<string>)
    requires WellFormed(ts)
    ensures |errs| <= 1
    ensures errs == [] <==> Parse(ts).Some?
  {
    match ParseLevel(ts, 0, 0)
    case Success(_) => []
    case Failure(f) => [FaultText(f)]
  }
}
