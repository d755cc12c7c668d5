/** The closed expression tree (losos/expr.py). Each node class becomes a
    constructor; the visitor's `accept` dispatch becomes `match`, and the
    `Final` fields become the immutability of a datatype value. */
module Exprs {
  import opened Tokens

  datatype Expr =
    | Binary(left: Expr, operator: Token, right: Expr)
    | Grouping(expression: Expr)
    | Literal(value: Value)
    | Unary(operator: Token, right: Expr)

  /** Number of nodes; a termination measure for visitors over child lists. */
  function Size(e: Expr): (n: nat)
    ensures n >= 1
  {
    match e
    case Binary(l, _, r) => 1 + Size(l) + Size(r)
    case Grouping(x) => 1 + Size(x)
    case Literal(_) => 1
    case Unary(_, x) => 1 + Size(x)
  }

  function SizeSum(es: seq<Expr>): nat
  {
    if es == [] then 0 else Size(es[0]) + SizeSum(es[1..])
  }

  lemma {:induction false} SizeSumBound(es: seq<Expr>, i: nat)
    requires i < |es|
    ensures Size(es[i]) <= SizeSum(es)
  {
    if i > 0 {
      SizeSumBound(es[1..], i - 1);
    }
  }
}
