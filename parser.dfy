/** The recursive-descent parser of losos/parser.py as the object it is: a
    cursor over a token list that reports syntax errors to a Reporter. The
    sentinel exception becomes a `None` result that every rule passes
    straight up. Every rule is proved to compute the matching function of
    module Grammar, so what is proved there holds of this class. */
module Parsing {
  import opened Wrappers
  import opened Tokens
  import opened Exprs
  import opened Reporting
  import opened Grammar

  /** A rule's result and effects, given what the grammar function says:
      on success the tree, the cursor after it and nothing reported; on
      failure no tree and exactly the fault's diagnostic added. */
  predicate Outcome(g: Result<Parsed, Fault>, r: Option<Expr>, next: nat,
                    log: seq<string>, hadError: bool, log0: seq<string>, hadError0: bool)
  {
    match g
    case Success(p) => r == Some(p.expr) && next == p.next && log == log0 && hadError == hadError0
    case Failure(f) => r == None && log == log0 + [FaultText(f)] && hadError
  }

  /** The reserved words `_synchronize` stops in front of. */
  predicate StatementKeyword(kind: TokenType)
  {
    kind == KwClass || kind == KwFun || kind == KwVar || kind == KwFor ||
    kind == KwIf || kind == KwWhile || kind == KwPrint || kind == KwReturn
  }

  /** A position `_synchronize` stops at: end of input, just after a ';',
      or in front of a statement keyword. */
  predicate SyncPoint(ts: seq<Token>, q: nat)
    requires q < |ts|
  {
    ts[q].kind == Eof || (q > 0 && ts[q - 1].kind == Semicolon) || StatementKeyword(ts[q].kind)
  }

  class Parser {
    const tokens: seq<Token>
    /** The token about to be looked at. */
    var current: nat
    const reporter: Reporter

    /** The token list ends with end of input and the cursor is on it or
        before it. */
    predicate Valid()
      reads this
    {
      WellFormed(tokens) && current < |tokens|
    }

    constructor (tokens: seq<Token>, reporter: Reporter)
      ensures this.tokens == tokens && this.reporter == reporter && current == 0
      ensures WellFormed(tokens) ==> Valid()
    {
      this.tokens := tokens;
      this.reporter := reporter;
      current := 0;
    }

    function Peek(): Token
      reads this
      requires Valid()
    {
      tokens[current]
    }

    /** The token before the cursor; at position 0 Python's index -1 wraps
        to the last token. */
    function Previous(): Token
      reads this
      requires Valid()
    {
      if current == 0 then tokens[|tokens| - 1] else tokens[current - 1]
    }

    predicate IsAtEnd()
      reads this
      requires Valid()
    {
      Peek().kind == Eof
    }

    /** `_check`: never true at end of input, whatever kind is asked for. */
    predicate Check(kind: TokenType)
      reads this
      requires Valid()
    {
      !IsAtEnd() && Peek().kind == kind
    }

    /** Step past the token under the cursor, except at end of input, and
        return it. The cursor never passes end of input. */
    method Advance() returns (t: Token)
      requires Valid()
      modifies this
      ensures Valid()
      ensures current == if old(tokens[current].kind) == Eof then old(current) else old(current) + 1
      ensures old(tokens[current].kind) != Eof ==> t == old(tokens[current])
      ensures old(tokens[current].kind) == Eof ==>
        t == if current == 0 then tokens[|tokens| - 1] else tokens[current - 1]
    {
      if !IsAtEnd() {
        NotLast(tokens, current);
        current := current + 1;
      }
      t := Previous();
    }

    /** `_match`: advance past the token under the cursor exactly when one
        of the kinds checks. */
    method Match(kinds: seq<TokenType>) returns (matched: bool)
      requires Valid()
      modifies this
      ensures Valid()
      ensures matched <==> MatchesAny(tokens, old(current), kinds)
      ensures current == old(current) + (if matched then 1 else 0)
    {
      for i := 0 to |kinds|
        invariant current == old(current)
        invariant forall j :: 0 <= j < i ==> !Check(kinds[j])
      {
        if Check(kinds[i]) {
          var _ := Advance();
          return true;
        }
      }
      return false;
    }

    /** `_match` with a single kind. */
    method MatchKind(kind: TokenType) returns (matched: bool)
      requires Valid()
      modifies this
      ensures Valid()
      ensures matched <==> Checks(tokens, old(current), kind)
      ensures current == old(current) + (if matched then 1 else 0)
    {
      matched := Match([kind]);
    }

    /** `_match` over the prefix operators. */
    method MatchUnary() returns (matched: bool)
      requires Valid()
      modifies this
      ensures Valid()
      ensures matched <==> IsUnaryOperator(tokens[old(current)].kind)
      ensures current == old(current) + (if matched then 1 else 0)
    {
      matched := Match([Bang, Minus]);
    }

    /** `_match` over the operators of a binary level. */
    method MatchOperator(level: nat) returns (matched: bool)
      requires Valid() && level < 4
      modifies this
      ensures Valid()
      ensures matched <==> OperatorAt(tokens, old(current), level)
      ensures current == old(current) + (if matched then 1 else 0)
    {
      OperatorsMatch(tokens, current, level);
      matched := Match(Operators(level));
    }

    /** `_error`: report at the token and hand back the fault to unwind with. */
    method Error(token: Token, message: string) returns (f: Fault)
      modifies reporter
      ensures f == Fault(token, message)
      ensures reporter.log == old(reporter.log) + [FaultText(f)] && reporter.hadError
    {
      reporter.ErrorAtToken(token, message);
      f := Fault(token, message);
    }

    /** `_consume`: step past a token of the expected kind, or report the
        message at the token under the cursor. */
    method Consume(kind: TokenType, message: string) returns (r: Result<Token, Fault>)
      requires Valid()
      modifies this, reporter
      ensures Valid()
      ensures Checks(tokens, old(current), kind) ==>
        r == Success(tokens[old(current)]) && current == old(current) + 1 &&
        reporter.log == old(reporter.log) && reporter.hadError == old(reporter.hadError)
      ensures !Checks(tokens, old(current), kind) ==>
        r == Failure(Fault(tokens[old(current)], message)) && current == old(current) &&
        reporter.log == old(reporter.log) + [FaultText(r.error)] && reporter.hadError
    {
      if Check(kind) {
        var t := Advance();
        return Success(t);
      }
      var f := Error(Peek(), message);
      return Failure(f);
    }

    /** `parse`: the expression at the cursor, or none after the one error
        it reports. */
    method Parse() returns (r: Option<Expr>)
      requires Valid()
      modifies this, reporter
      ensures Valid()
      ensures Outcome(ParseLevel(tokens, 0, old(current)), r, current,
                      reporter.log, reporter.hadError, old(reporter.log), old(reporter.hadError))
      decreases |tokens| - current, 8, 0
    {
      r := Expression();
    }

    method Expression() returns (r: Option<Expr>)
      requires Valid()
      modifies this, reporter
      ensures Valid()
      ensures Outcome(ParseLevel(tokens, 0, old(current)), r, current,
                      reporter.log, reporter.hadError, old(reporter.log), old(reporter.hadError))
      decreases |tokens| - current, 7, 0
    {
      r := BinaryLevel(0);
    }

    /** `_equality`, `_comparison`, `_term` and `_factor`: one operand, then
        for as long as an operator of the level follows, that operator and
        another operand folded in on the right. */
    method BinaryLevel(level: nat) returns (r: Option<Expr>)
      requires Valid() && level < 4
      modifies this, reporter
      ensures Valid()
      ensures Outcome(ParseLevel(tokens, level, old(current)), r, current,
                      reporter.log, reporter.hadError, old(reporter.log), old(reporter.hadError))
      decreases |tokens| - current, 6 - level, 1
    {
      var left := Operand(level);
      if left.None? {
        return None;
      }
      r := FoldOperators(level, left.value);
    }

    /** The rule one level tighter than a binary level. */
    method Operand(level: nat) returns (r: Option<Expr>)
      requires Valid() && level < 4
      modifies this, reporter
      ensures Valid()
      ensures Outcome(ParseLevel(tokens, level + 1, old(current)), r, current,
                      reporter.log, reporter.hadError, old(reporter.log), old(reporter.hadError))
      ensures r.Some? ==> old(current) < current
      decreases |tokens| - current, 6 - level, 0
    {
      if level == 3 {
        r := Unary();
      } else {
        r := BinaryLevel(level + 1);
      }
    }

    /** The loop of a binary level, from the first operand on. */
    method FoldOperators(level: nat, left: Expr) returns (r: Option<Expr>)
      requires Valid() && level < 4
      modifies this, reporter
      ensures Valid()
      ensures Outcome(Fold(tokens, level, left, old(current)), r, current,
                      reporter.log, reporter.hadError, old(reporter.log), old(reporter.hadError))
      decreases |tokens| - current, 6 - level, 0
    {
      var expr := left;
      var matched := MatchOperator(level);
      while matched
        invariant Valid() && old(current) <= current
        invariant reporter.log == old(reporter.log) && reporter.hadError == old(reporter.hadError)
        invariant matched ==>
          0 < current && OperatorAt(tokens, current - 1, level) &&
          Fold(tokens, level, expr, current - 1) == Fold(tokens, level, left, old(current))
        invariant !matched ==>
          !OperatorAt(tokens, current, level) &&
          Fold(tokens, level, expr, current) == Fold(tokens, level, left, old(current))
        decreases |tokens| - current, if matched then 1 else 0
      {
        var next := FoldNext(level, expr);
        if next.None? {
          return None;
        }
        expr := next.value;
        matched := MatchOperator(level);
      }
      r := Some(expr);
    }

    /** One turn of the loop of a binary level, just after its operator:
        the right operand, and the node that makes the expression so far
        its left side. What is left to fold is unchanged. */
    method FoldNext(level: nat, left: Expr) returns (r: Option<Expr>)
      requires Valid() && level < 4 && 0 < current && OperatorAt(tokens, current - 1, level)
      modifies this, reporter
      ensures Valid()
      ensures r.None? ==> Outcome(Fold(tokens, level, left, old(current) - 1), r, current,
                                  reporter.log, reporter.hadError, old(reporter.log), old(reporter.hadError))
      ensures r.Some? ==>
        old(current) < current &&
        reporter.log == old(reporter.log) && reporter.hadError == old(reporter.hadError) &&
        Fold(tokens, level, left, old(current) - 1) == Fold(tokens, level, r.value, current)
      decreases |tokens| - current, 6 - level, 1
    {
      var operator := Previous();
      var right := Operand(level);
      if right.None? {
        return None;
      }
      r := Some(Binary(left, operator, right.value));
    }

    /** `_unary`: a prefix operator and, recursively, its operand; or a
        primary expression. */
    method Unary() returns (r: Option<Expr>)
      requires Valid()
      modifies this, reporter
      ensures Valid()
      ensures Outcome(ParseLevel(tokens, 4, old(current)), r, current,
                      reporter.log, reporter.hadError, old(reporter.log), old(reporter.hadError))
      decreases |tokens| - current, 2, 1
    {
      var prefixed := MatchUnary();
      if prefixed {
        var operator := Previous();
        var right := Unary();
        if right.None? {
          assert ParseLevel(tokens, 4, old(current)) == ParseLevel(tokens, 4, old(current) + 1);
          return None;
        }
        assert ParseLevel(tokens, 4, old(current)) == Success(Parsed(Expr.Unary(operator, right.value), current));
        return Some(Expr.Unary(operator, right.value));
      }
      r := Primary();
    }

    /** `_primary`: a literal, a parenthesised expression, or the error
        "Expect expression." at the token under the cursor. */
    method Primary() returns (r: Option<Expr>)
      requires Valid()
      modifies this, reporter
      ensures Valid()
      ensures Outcome(Grammar.Primary(tokens, old(current)), r, current,
                      reporter.log, reporter.hadError, old(reporter.log), old(reporter.hadError))
      decreases |tokens| - current, 1, 0
    {
      var literal := MatchLiteral();
      if literal.Some? {
        return Some(Literal(literal.value));
      }
      var m := MatchKind(LeftParen);
      if m {
        r := Group();
        return;
      }
      var _ := Error(Peek(), ExpectExpression);
      return None;
    }

    /** The literal cases of `_primary`, tried in its order. */
    method MatchLiteral() returns (v: Option<Value>)
      requires Valid()
      modifies this
      ensures Valid()
      ensures v == LiteralOf(tokens[old(current)])
      ensures current == old(current) + (if v.Some? then 1 else 0)
    {
      var m := MatchKind(KwFalse);
      if m {
        return Some(Bool(false));
      }
      m := MatchKind(KwTrue);
      if m {
        return Some(Bool(true));
      }
      m := MatchKind(KwNil);
      if m {
        return Some(Nil);
      }
      m := Match([NumberLit, StringLit]);
      if m {
        return Some(Previous().literal);
      }
      return None;
    }

    /** The rest of `_primary`'s parenthesised case, after the '('. */
    method Group() returns (r: Option<Expr>)
      requires Valid()
      modifies this, reporter
      ensures Valid()
      ensures Outcome(Grammar.Group(tokens, old(current)), r, current,
                      reporter.log, reporter.hadError, old(reporter.log), old(reporter.hadError))
      decreases |tokens| - current, 7, 1
    {
      var inner := Expression();
      if inner.None? {
        return None;
      }
      var closing := Consume(RightParen, ExpectRightParen);
      if closing.Failure? {
        return None;
      }
      return Some(Grouping(inner.value));
    }

    /** `_synchronize`: step past the token under the cursor, then on to the
        first point where a statement may begin. */
    method Synchronize()
      requires Valid()
      modifies this
      ensures Valid()
      ensures var first := if old(tokens[current].kind) == Eof then old(current) else old(current) + 1;
        first <= current && SyncPoint(tokens, current) &&
        forall k :: first <= k < current ==> !SyncPoint(tokens, k)
    {
      var _ := Advance();
      ghost var first := current;
      while !IsAtEnd()
        invariant Valid() && first <= current
        invariant first == 0 ==> current == 0
        invariant forall k :: first <= k < current ==> !SyncPoint(tokens, k)
        decreases |tokens| - current
      {
        if Previous().kind == Semicolon {
          return;
        }
        if Peek().kind in [KwClass, KwFun, KwVar, KwFor, KwIf, KwWhile, KwPrint, KwReturn] {
          return;
        }
        NotLast(tokens, current);
        var _ := Advance();
      }
    }
  }

  /** A fresh parser run over a token list: `Parser(tokens).parse()`. */
  method ParseTokens(tokens: seq<Token>, reporter: Reporter) returns (r: Option<Expr>)
    requires WellFormed(tokens)
    modifies reporter
    ensures r == Grammar.Parse(tokens)
    ensures reporter.log == old(reporter.log) + ParseErrors(tokens)
    ensures reporter.hadError == (old(reporter.hadError) || r.None?)
  {
    var parser := new Parser(tokens, reporter);
    r := parser.Parse();
  }
}
