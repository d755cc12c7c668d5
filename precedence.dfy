/** What the grammar of module Grammar guarantees about the trees it builds:
    they respect the precedence ladder and left associativity, and every
    such tree is recovered from its own tokens (parse after unparse is the
    identity). Also the error cases of `_primary` and `_consume`. */
module Precedence {
  import opened Wrappers
  import opened Tokens
  import opened Exprs
  import opened Grammar

  /** The loosest level a tree can be parsed at without parentheses:
      a binary node its operator's level, a unary node 4, an atom 5. */
  function Tier(e: Expr): nat
  {
    match e
    case Binary(_, op, _) => LevelOf(op.kind)
    case Unary(_, _) => 4
    case _ => 5
  }

  /** Precedence and associativity: a binary node's left side binds at least
      as tightly as its operator and its right side strictly more tightly; a
      unary operand is unary or an atom. */
  predicate WellNested(e: Expr)
  {
    match e
    case Binary(l, op, r) =>
      LevelOf(op.kind) < 4 && Tier(l) >= LevelOf(op.kind) && Tier(r) > LevelOf(op.kind) &&
      WellNested(l) && WellNested(r)
    case Unary(op, x) => (op.kind == Bang || op.kind == Minus) && Tier(x) >= 4 && WellNested(x)
    case Grouping(x) => WellNested(x)
    case Literal(_) => true
  }

  /** The token a literal is written with. Its lexeme and line are not
      looked at by the parser. */
  function LiteralToken(v: Value): (t: Token)
    ensures t.kind == KwFalse || t.kind == KwTrue || t.kind == KwNil || t.kind == NumberLit || t.kind == StringLit
  {
    match v
    case Nil => Token(KwNil, "nil", Nil, 1)
    case Bool(b) => if b then Token(KwTrue, "true", Nil, 1) else Token(KwFalse, "false", Nil, 1)
    case Num(n) => Token(NumberLit, "", Num(n), 1)
    case Str(s) => Token(StringLit, "\"" + s + "\"", Str(s), 1)
  }

  const OpenParen := Token(LeftParen, "(", Nil, 1)
  const CloseParen := Token(RightParen, ")", Nil, 1)

  /** The tokens of a tree written out infix, with the parentheses of its
      groupings and no others. */
  function Unparse(e: Expr): (ts: seq<Token>)
    ensures |ts| >= 1
  {
    match e
    case Binary(l, op, r) => Unparse(l) + [op] + Unparse(r)
    case Grouping(x) => [OpenParen] + Unparse(x) + [CloseParen]
    case Literal(v) => [LiteralToken(v)]
    case Unary(op, x) => [op] + Unparse(x)
  }

  /** The tokens `u` appear in `ts` from position `pos` on. */
  ghost predicate At<T>(ts: seq<T>, pos: nat, u: seq<T>)
    decreases |u|
  {
    pos + |u| <= |ts| && (u == [] || (ts[pos] == u[0] && At(ts, pos + 1, u[1..])))
  }

  lemma AtHead<T>(ts: seq<T>, pos: nat, u: seq<T>)
    requires At(ts, pos, u) && |u| >= 1
    ensures pos < |ts| && ts[pos] == u[0]
  {
  }

  lemma {:induction false} AtSplit<T>(ts: seq<T>, pos: nat, a: seq<T>, b: seq<T>)
    requires At(ts, pos, a + b)
    ensures At(ts, pos, a) && At(ts, pos + |a|, b)
    decreases |a|
  {
    if a == [] {
      assert a + b == b;
    } else {
      assert (a + b)[1..] == a[1..] + b;
      AtSplit(ts, pos + 1, a[1..], b);
    }
  }

  /** A token after which a parse at `level` stops: not a binary operator of
      that level or a tighter one. */
  predicate Stops(t: Token, level: nat)
  {
    !(level <= LevelOf(t.kind) < 4)
  }

  /** No token of an unparsed well-nested tree is end of input. */
  lemma {:induction false} UnparseNoEof(e: Expr)
    requires WellNested(e)
    ensures forall i :: 0 <= i < |Unparse(e)| ==> Unparse(e)[i].kind != Eof
  {
    match e
    case Binary(l, op, r) =>
      UnparseNoEof(l);
      UnparseNoEof(r);
    case Grouping(x) =>
      UnparseNoEof(x);
    case Literal(v) =>
    case Unary(op, x) =>
      UnparseNoEof(x);
  }

  /** Where the three parts of a concatenation lie. */
  lemma AtThree<T>(ts: seq<T>, pos: nat, a: seq<T>, b: seq<T>, c: seq<T>)
    requires At(ts, pos, a + b + c)
    ensures At(ts, pos, a) && At(ts, pos + |a|, b) && At(ts, pos + |a| + |b|, c)
  {
    assert a + b + c == a + (b + c);
    AtSplit(ts, pos, a, b + c);
    AtSplit(ts, pos + |a|, b, c);
  }

  /** Where the parts of a grouping's tokens lie. */
  lemma GroupingTokens(ts: seq<Token>, pos: nat, x: Expr)
    requires At(ts, pos, Unparse(Grouping(x)))
    ensures ts[pos].kind == LeftParen && At(ts, pos + 1, Unparse(x))
    ensures ts[pos + 1 + |Unparse(x)|].kind == RightParen
  {
    AtThree(ts, pos, [OpenParen], Unparse(x), [CloseParen]);
    AtHead(ts, pos, [OpenParen]);
    AtHead(ts, pos + 1 + |Unparse(x)|, [CloseParen]);
  }

  /** Round trip: parsing the tokens of a well-nested tree at any level it
      fits gives back the tree and stops right after its last token. */
  lemma {:induction false} ParseUnparse(ts: seq<Token>, level: nat, pos: nat, e: Expr)
    requires WellFormed(ts) && level <= 5 && WellNested(e) && Tier(e) >= level
    requires At(ts, pos, Unparse(e)) && pos + |Unparse(e)| < |ts|
    requires Stops(ts[pos + |Unparse(e)|], level)
    ensures ParseLevel(ts, level, pos) == Success(Parsed(e, pos + |Unparse(e)|))
    decreases Size(e), 6 - level, 3
  {
    if level < 4 {
      BinaryUnparse(ts, level, pos, e);
    } else if level == 4 {
      UnaryUnparse(ts, pos, e);
    } else {
      PrimaryUnparse(ts, pos, e);
    }
  }

  /** The round trip at a binary level: the operand spine, then no further
      operator of the level. */
  lemma {:induction false} BinaryUnparse(ts: seq<Token>, level: nat, pos: nat, e: Expr)
    requires WellFormed(ts) && level < 4 && WellNested(e) && Tier(e) >= level
    requires At(ts, pos, Unparse(e)) && pos + |Unparse(e)| < |ts|
    requires Stops(ts[pos + |Unparse(e)|], level)
    ensures ParseLevel(ts, level, pos) == Success(Parsed(e, pos + |Unparse(e)|))
    decreases Size(e), 6 - level, 2
  {
    ParseSpine(ts, level, pos, e);
    FoldStop(ts, level, e, pos + |Unparse(e)|);
  }

  /** The round trip at the unary level. */
  lemma {:induction false} UnaryUnparse(ts: seq<Token>, pos: nat, e: Expr)
    requires WellFormed(ts) && WellNested(e) && Tier(e) >= 4
    requires At(ts, pos, Unparse(e)) && pos + |Unparse(e)| < |ts|
    ensures ParseLevel(ts, 4, pos) == Success(Parsed(e, pos + |Unparse(e)|))
    decreases Size(e), 2, 2
  {
    if e.Unary? {
      PrefixUnparse(ts, pos, e.operator, e.right);
    } else {
      AtHead(ts, pos, Unparse(e));
      ParseUnparse(ts, 5, pos, e);
    }
  }

  /** A prefix operator followed by the tokens of its operand. */
  lemma {:induction false} PrefixUnparse(ts: seq<Token>, pos: nat, op: Token, x: Expr)
    requires WellFormed(ts) && IsUnaryOperator(op.kind) && WellNested(x) && Tier(x) >= 4
    requires At(ts, pos, [op] + Unparse(x)) && pos + 1 + |Unparse(x)| < |ts|
    ensures ParseLevel(ts, 4, pos) == Success(Parsed(Unary(op, x), pos + 1 + |Unparse(x)|))
    decreases Size(x) + 1, 2, 1
  {
    AtSplit(ts, pos, [op], Unparse(x));
    AtHead(ts, pos, [op]);
    ParseUnparse(ts, 4, pos + 1, x);
  }

  /** The round trip at the primary level: a literal or a grouping. */
  lemma {:induction false} PrimaryUnparse(ts: seq<Token>, pos: nat, e: Expr)
    requires WellFormed(ts) && WellNested(e) && Tier(e) >= 5
    requires At(ts, pos, Unparse(e)) && pos + |Unparse(e)| < |ts|
    ensures ParseLevel(ts, 5, pos) == Success(Parsed(e, pos + |Unparse(e)|))
    decreases Size(e), 1, 2
  {
    if e.Literal? {
      AtHead(ts, pos, Unparse(e));
    } else {
      ParseGrouping(ts, pos, e.expression);
    }
  }

  lemma {:induction false} ParseGrouping(ts: seq<Token>, pos: nat, x: Expr)
    requires WellFormed(ts) && WellNested(x)
    requires At(ts, pos, Unparse(Grouping(x))) && pos + |Unparse(Grouping(x))| < |ts|
    ensures Primary(ts, pos) == Success(Parsed(Grouping(x), pos + |Unparse(Grouping(x))|))
    decreases Size(x) + 1, 0, 0
  {
    GroupingTokens(ts, pos, x);
    ParseUnparse(ts, 0, pos + 1, x);
  }

  /** The left spine of a binary level: parsing the first operand at the next
      level and folding from there ends where folding the whole tree does. */
  lemma {:induction false} ParseSpine(ts: seq<Token>, level: nat, pos: nat, e: Expr)
    requires WellFormed(ts) && level < 4 && WellNested(e) && Tier(e) >= level
    requires At(ts, pos, Unparse(e)) && pos + |Unparse(e)| < |ts|
    requires Stops(ts[pos + |Unparse(e)|], level + 1)
    ensures ParseLevel(ts, level, pos) == Fold(ts, level, e, pos + |Unparse(e)|)
    decreases Size(e), 6 - level, 1
  {
    if Tier(e) > level {
      ParseUnparse(ts, level + 1, pos, e);
    } else {
      SpineBinary(ts, level, pos, e, e.left, e.operator, e.right);
    }
  }

  /** The spine through a binary node of the level being parsed: its left
      side's spine, then the operator and its right side folded in. */
  lemma {:induction false} SpineBinary(ts: seq<Token>, level: nat, pos: nat, e: Expr, l: Expr, op: Token, r: Expr)
    requires WellFormed(ts) && level < 4 && e == Binary(l, op, r) && LevelOf(op.kind) == level
    requires WellNested(l) && Tier(l) >= level && WellNested(r) && Tier(r) > level
    requires At(ts, pos, Unparse(e)) && pos + |Unparse(e)| < |ts|
    requires Stops(ts[pos + |Unparse(e)|], level + 1)
    ensures ParseLevel(ts, level, pos) == Fold(ts, level, e, pos + |Unparse(e)|)
    decreases Size(l) + Size(r) + 1, 6 - level, 0
  {
    var mid := pos + |Unparse(l)|;
    var end := mid + 1 + |Unparse(r)|;
    assert Unparse(e) == Unparse(l) + [op] + Unparse(r);
    assert end == pos + |Unparse(e)|;
    AtThree(ts, pos, Unparse(l), [op], Unparse(r));
    AtHead(ts, mid, [op]);
    RightOperand(ts, level, l, mid, r);
    ParseSpine(ts, level, pos, l);
    assert ts[mid] == op;
  }

  /** After the tree so far and an operator of the level, the tokens of a
      tighter right operand fold into one more node. */
  lemma {:induction false} RightOperand(ts: seq<Token>, level: nat, left: Expr, mid: nat, r: Expr)
    requires WellFormed(ts) && level < 4 && mid < |ts| && LevelOf(ts[mid].kind) == level
    requires WellNested(r) && Tier(r) > level
    requires At(ts, mid + 1, Unparse(r)) && mid + 1 + |Unparse(r)| < |ts|
    requires Stops(ts[mid + 1 + |Unparse(r)|], level + 1)
    ensures Fold(ts, level, left, mid) == Fold(ts, level, Binary(left, ts[mid], r), mid + 1 + |Unparse(r)|)
    decreases Size(r), 6 - level, 2
  {
    FoldStep(ts, level, left, mid, r, mid + 1 + |Unparse(r)|);
    ParseUnparse(ts, level + 1, mid + 1, r);
  }

  /** A binary level stops folding at a token that is not one of its operators. */
  lemma FoldStop(ts: seq<Token>, level: nat, left: Expr, pos: nat)
    requires WellFormed(ts) && level < 4 && pos < |ts| && Stops(ts[pos], level)
    ensures Fold(ts, level, left, pos) == Success(Parsed(left, pos))
  {
  }

  /** A binary level folds one operator of its own level and its right operand. */
  lemma FoldStep(ts: seq<Token>, level: nat, left: Expr, pos: nat, right: Expr, next: nat)
    requires WellFormed(ts) && level < 4 && pos + 1 < |ts| && LevelOf(ts[pos].kind) == level
    ensures ParseLevel(ts, level + 1, pos + 1) == Success(Parsed(right, next)) ==>
      Fold(ts, level, left, pos) == Fold(ts, level, Binary(left, ts[pos], right), next)
  {
  }

  /** Soundness: whatever a level parses respects the ladder at that level;
      so operators of one level always nest to the left, and a tighter
      operator is always below a looser one. A failure is one of the two
      parse errors. */
  lemma {:induction false} ParseSound(ts: seq<Token>, level: nat, pos: nat)
    requires WellFormed(ts) && pos < |ts| && level <= 5
    ensures var r := ParseLevel(ts, level, pos);
      (r.Success? ==> WellNested(r.value.expr) && Tier(r.value.expr) >= level) &&
      (r.Failure? ==> r.error.message == ExpectExpression || r.error.message == ExpectRightParen)
    decreases |ts| - pos, 6 - level, 1
  {
    if level < 4 {
      ParseSound(ts, level + 1, pos);
      var first := ParseLevel(ts, level + 1, pos);
      if first.Success? {
        FoldSound(ts, level, first.value.expr, first.value.next);
      }
    } else if level == 4 {
      if IsUnaryOperator(ts[pos].kind) {
        NotLast(ts, pos);
        ParseSound(ts, 4, pos + 1);
      } else {
        ParseSound(ts, 5, pos);
      }
    } else {
      PrimarySound(ts, pos);
    }
  }

  /** Folding keeps the tree well nested: each new node has the level's
      operator, the tree so far on its left and a tighter operand on its
      right. */
  lemma {:induction false} FoldSound(ts: seq<Token>, level: nat, left: Expr, pos: nat)
    requires WellFormed(ts) && pos < |ts| && level < 4
    requires WellNested(left) && Tier(left) >= level
    ensures var r := Fold(ts, level, left, pos);
      (r.Success? ==> WellNested(r.value.expr) && Tier(r.value.expr) >= level) &&
      (r.Failure? ==> r.error.message == ExpectExpression || r.error.message == ExpectRightParen)
    decreases |ts| - pos, 6 - level, 0
  {
    if OperatorAt(ts, pos, level) {
      NotLast(ts, pos);
      ParseSound(ts, level + 1, pos + 1);
      var right := ParseLevel(ts, level + 1, pos + 1);
      if right.Success? {
        FoldSound(ts, level, Binary(left, ts[pos], right.value.expr), right.value.next);
      }
    }
  }

  lemma {:induction false} PrimarySound(ts: seq<Token>, pos: nat)
    requires WellFormed(ts) && pos < |ts|
    ensures var r := Primary(ts, pos);
      (r.Success? ==> WellNested(r.value.expr) && Tier(r.value.expr) == 5) &&
      (r.Failure? ==> r.error.message == ExpectExpression || r.error.message == ExpectRightParen)
    decreases |ts| - pos, 0, 0
  {
    if ts[pos].kind == LeftParen {
      NotLast(ts, pos);
      ParseSound(ts, 0, pos + 1);
    }
  }

  lemma {:induction false} AtPrefix<T>(u: seq<T>, rest: seq<T>)
    ensures At(u + rest, 0, u)
    decreases |u|
  {
    if u != [] {
      AtPrefix(u[1..], rest);
      AtShift(u[0], u[1..] + rest, 0, u[1..]);
      assert [u[0]] + (u[1..] + rest) == u + rest;
    }
  }

  lemma {:induction false} AtShift<T>(t: T, ts: seq<T>, pos: nat, u: seq<T>)
    requires At(ts, pos, u)
    ensures At([t] + ts, pos + 1, u)
    decreases |u|
  {
    if u != [] {
      AtShift(t, ts, pos + 1, u[1..]);
    }
  }

  /** The round trip from a fresh token list: the tokens of a well-nested
      tree, then anything that does not start with a binary operator (end of
      input, or tokens `parse` leaves unread), parse back to the tree. */
  lemma ParsePrefix(e: Expr, rest: seq<Token>)
    requires WellNested(e) && WellFormed(rest) && Stops(rest[0], 0)
    ensures WellFormed(Unparse(e) + rest)
    ensures Parse(Unparse(e) + rest) == Some(e)
  {
    var ts := Unparse(e) + rest;
    AtPrefix(Unparse(e), rest);
    assert ts[|Unparse(e)|] == rest[0];
    ParseUnparse(ts, 0, 0, e);
  }
}
