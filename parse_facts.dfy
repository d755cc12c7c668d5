/** What `parse` does with input it cannot parse, and worked examples of
    the trees it builds. */
module ParseFacts {
  import opened Wrappers
  import opened Tokens
  import opened Exprs
  import opened Reporting
  import opened Grammar
  import opened Precedence
  import opened Lexical

  /** The token kinds an expression can begin with: a prefix operator, a
      literal or an opening parenthesis. */
  predicate StartsExpression(kind: TokenType)
  {
    kind == Bang || kind == Minus || kind == KwFalse || kind == KwTrue || kind == KwNil ||
    kind == NumberLit || kind == StringLit || kind == LeftParen
  }

  /** An error in `_primary` at a token that is not a prefix operator
      unwinds every level above it unchanged. */
  lemma {:induction false} PrimaryFailureUnwinds(ts: seq<Token>, level: nat, pos: nat)
    requires WellFormed(ts) && pos < |ts| && level <= 5
    requires !IsUnaryOperator(ts[pos].kind) && Primary(ts, pos).Failure?
    ensures ParseLevel(ts, level, pos) == Primary(ts, pos)
    decreases 5 - level
  {
    if level < 5 {
      PrimaryFailureUnwinds(ts, level + 1, pos);
    }
  }

  /** At a token no expression can begin with, every level fails with
      "Expect expression." reported at that token; in particular at end of
      input. */
  lemma NoExpressionHere(ts: seq<Token>, level: nat, pos: nat)
    requires WellFormed(ts) && pos < |ts| && level <= 5 && !StartsExpression(ts[pos].kind)
    ensures ParseLevel(ts, level, pos) == Failure(Fault(ts[pos], ExpectExpression))
  {
    assert Primary(ts, pos) == Failure(Fault(ts[pos], ExpectExpression));
    PrimaryFailureUnwinds(ts, level, pos);
  }

  /** Empty input: one "Expect expression." error at end. */
  lemma EmptyInput(eof: Token)
    requires eof.kind == Eof
    ensures Parse([eof]) == None
    ensures ParseErrors([eof]) == [Diagnostic(eof.line, " at end", ExpectExpression)]
  {
    NoExpressionHere([eof], 0, 0);
  }

  /** A stray ')' is reported at its own lexeme. */
  lemma StrayRightParen(close: Token, eof: Token)
    requires close.kind == RightParen && close.lexeme == ")" && eof.kind == Eof
    ensures Parse([close, eof]) == None
    ensures ParseErrors([close, eof]) == [Diagnostic(close.line, " at ')'", ExpectExpression)]
  {
    NoExpressionHere([close, eof], 0, 0);
    assert TokenLocation(close) == " at ')'";
  }

  /** "(1" with nothing after: the missing ')' is reported at end of input. */
  lemma UnclosedGroup(v: Value, eof: Token)
    requires eof.kind == Eof
    ensures Parse([OpenParen, LiteralToken(v), eof]) == None
    ensures ParseErrors([OpenParen, LiteralToken(v), eof]) == [Diagnostic(eof.line, " at end", ExpectRightParen)]
  {
    var ts := [OpenParen, LiteralToken(v), eof];
    assert At(ts, 1, Unparse(Literal(v)));
    ParseUnparse(ts, 0, 1, Literal(v));
    assert Primary(ts, 0) == Failure(Fault(eof, ExpectRightParen));
    PrimaryFailureUnwinds(ts, 0, 0);
  }

  /** "a - b - c" groups to the left. */
  lemma LeftAssociative(a: Number, b: Number, c: Number, minus1: Token, minus2: Token, eof: Token)
    requires minus1.kind == Minus && minus2.kind == Minus && eof.kind == Eof
    ensures Parse([LiteralToken(Num(a)), minus1, LiteralToken(Num(b)), minus2, LiteralToken(Num(c)), eof])
         == Some(Binary(Binary(Literal(Num(a)), minus1, Literal(Num(b))), minus2, Literal(Num(c))))
  {
    var l := Binary(Literal(Num(a)), minus1, Literal(Num(b)));
    var e := Binary(l, minus2, Literal(Num(c)));
    assert Unparse(l) == [LiteralToken(Num(a)), minus1, LiteralToken(Num(b))];
    assert Unparse(e) + [eof] == [LiteralToken(Num(a)), minus1, LiteralToken(Num(b)), minus2, LiteralToken(Num(c)), eof];
    ParsePrefix(e, [eof]);
  }

  /** "a + b * c": the tighter operator takes the operand between them. */
  lemma TighterOperatorFirst(a: Number, b: Number, c: Number, plus: Token, star: Token, eof: Token)
    requires plus.kind == Plus && star.kind == Star && eof.kind == Eof
    ensures Parse([LiteralToken(Num(a)), plus, LiteralToken(Num(b)), star, LiteralToken(Num(c)), eof])
         == Some(Binary(Literal(Num(a)), plus, Binary(Literal(Num(b)), star, Literal(Num(c)))))
  {
    var r := Binary(Literal(Num(b)), star, Literal(Num(c)));
    var e := Binary(Literal(Num(a)), plus, r);
    assert Unparse(r) == [LiteralToken(Num(b)), star, LiteralToken(Num(c))];
    assert Unparse(e) + [eof] == [LiteralToken(Num(a)), plus, LiteralToken(Num(b)), star, LiteralToken(Num(c)), eof];
    ParsePrefix(e, [eof]);
  }

  /** "! - x": prefix operators nest to the right, and "- x * y" applies
      the prefix operator before the factor. */
  lemma UnaryNesting(x: Value, y: Value, bang: Token, minus: Token, star: Token, eof: Token)
    requires bang.kind == Bang && minus.kind == Minus && star.kind == Star && eof.kind == Eof
    ensures Parse([bang, minus, LiteralToken(x), eof]) == Some(Unary(bang, Unary(minus, Literal(x))))
    ensures Parse([minus, LiteralToken(x), star, LiteralToken(y), eof])
         == Some(Binary(Unary(minus, Literal(x)), star, Literal(y)))
  {
    var e1 := Unary(bang, Unary(minus, Literal(x)));
    assert Unparse(Unary(minus, Literal(x))) == [minus, LiteralToken(x)];
    assert Unparse(e1) + [eof] == [bang, minus, LiteralToken(x), eof];
    ParsePrefix(e1, [eof]);
    var e2 := Binary(Unary(minus, Literal(x)), star, Literal(y));
    assert Unparse(e2) == [minus, LiteralToken(x)] + [star] + [LiteralToken(y)];
    assert Unparse(e2) + [eof] == [minus, LiteralToken(x), star, LiteralToken(y), eof];
    ParsePrefix(e2, [eof]);
  }

  /** "1 2": the expression ends before the second number, which `parse`
      never looks at; nothing is reported. */
  lemma TrailingTokensIgnored(a: Number, b: Number, eof: Token)
    requires eof.kind == Eof
    ensures Parse([LiteralToken(Num(a)), LiteralToken(Num(b)), eof]) == Some(Literal(Num(a)))
    ensures ParseErrors([LiteralToken(Num(a)), LiteralToken(Num(b)), eof]) == []
  {
    assert Unparse(Literal(Num(a))) + [LiteralToken(Num(b)), eof] == [LiteralToken(Num(a)), LiteralToken(Num(b)), eof];
    ParsePrefix(Literal(Num(a)), [LiteralToken(Num(b)), eof]);
  }

  /** What the scanner hands the parser is always a list it accepts: it
      ends with end of input, and no earlier token is end of input. */
  lemma ScannedTokensParse(src: string, toFloat: string -> Number)
    ensures WellFormed(Scan(src, toFloat).tokens)
    ensures forall i :: 0 <= i < |Scan(src, toFloat).tokens| - 1 ==> Scan(src, toFloat).tokens[i].kind != Eof
  {
    ScanFromEndsWithEof(src, 0, 1, toFloat);
  }
}
