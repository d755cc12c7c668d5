/** The prefix printer of losos/astprinter.py. `Show` says what text a tree
    prints as; the methods are the visitor as written, with `_parenthesize`
    collecting its parts in a list and joining them, and are proved to
    produce exactly `Show`. A float's text is Python's `str`, a parameter. */
module Printing {
  import opened Tokens
  import opened Exprs

  /** `str` of a literal value; None prints as "nil". */
  function LiteralText(v: Value, numText: Number -> string): string
  {
    match v
    case Nil => "nil"
    case Bool(b) => if b then "True" else "False"
    case Num(n) => numText(n)
    case Str(s) => s
  }

  /** `"".join(parts)`. */
  function Join(parts: seq<string>): string
  {
    if parts == [] then "" else Join(parts[..|parts| - 1]) + parts[|parts| - 1]
  }

  /** One space before each child's text, in order. */
  function Spaced(texts: seq<string>): string
  {
    if texts == [] then "" else Spaced(texts[..|texts| - 1]) + " " + texts[|texts| - 1]
  }

  /** What `_parenthesize` returns for a name and its children's texts. */
  function Parenthesized(name: string, texts: seq<string>): string
  {
    "(" + name + Spaced(texts) + ")"
  }

  /** The text of a tree: an operator node is its lexeme and its operands in
      prefix form, a grouping is named "group". */
  function Show(e: Expr, numText: Number -> string): string
  {
    match e
    case Binary(l, op, r) => Parenthesized(op.lexeme, [Show(l, numText), Show(r, numText)])
    case Grouping(x) => Parenthesized("group", [Show(x, numText)])
    case Literal(v) => LiteralText(v, numText)
    case Unary(op, x) => Parenthesized(op.lexeme, [Show(x, numText)])
  }

  /** The texts of several trees, in order. */
  function ShowAll(es: seq<Expr>, numText: Number -> string): (texts: seq<string>)
    ensures |texts| == |es|
    ensures forall i :: 0 <= i < |es| ==> texts[i] == Show(es[i], numText)
  {
    if es == [] then [] else [Show(es[0], numText)] + ShowAll(es[1..], numText)
  }

  /** `print` and the `visit_*_expr` methods. */
  method Print(e: Expr, numText: Number -> string) returns (s: string)
    ensures s == Show(e, numText)
    decreases Size(e), 0
  {
    match e
    case Binary(l, op, r) =>
      Pair(l, r, numText);
      s := Parenthesize(op.lexeme, [l, r], numText);
    case Grouping(x) =>
      Single(x, numText);
      s := Parenthesize("group", [x], numText);
    case Literal(v) =>
      s := LiteralText(v, numText);
    case Unary(op, x) =>
      Single(x, numText);
      s := Parenthesize(op.lexeme, [x], numText);
  }

  /** `_parenthesize`: "(", the name, a space and the text of each child in
      order, then ")". */
  method Parenthesize(name: string, exprs: seq<Expr>, numText: Number -> string) returns (s: string)
    ensures s == Parenthesized(name, ShowAll(exprs, numText))
    decreases SizeSum(exprs), 1
  {
    ghost var texts := ShowAll(exprs, numText);
    var parts := ["(", name];
    assert Join(parts) == Join(["("]) + name;
    for i := 0 to |exprs|
      invariant Join(parts) == "(" + name + Spaced(texts[..i])
    {
      SizeSumBound(exprs, i);
      var text := Print(exprs[i], numText);
      PartsStep(parts, name, texts, i);
      parts := parts + [" ", text];
    }
    assert texts[..|exprs|] == texts;
    JoinLast(parts, ")");
    parts := parts + [")"];
    s := Join(parts);
  }

  lemma Single(x: Expr, numText: Number -> string)
    ensures SizeSum([x]) == Size(x) && ShowAll([x], numText) == [Show(x, numText)]
  {
    assert [x][1..] == [];
  }

  lemma Pair(l: Expr, r: Expr, numText: Number -> string)
    ensures SizeSum([l, r]) == Size(l) + Size(r)
    ensures ShowAll([l, r], numText) == [Show(l, numText), Show(r, numText)]
  {
    assert [l, r][1..] == [r];
    Single(r, numText);
  }

  lemma JoinAppend(parts: seq<string>, a: string, b: string)
    ensures Join(parts + [a, b]) == Join(parts) + a + b
  {
    assert (parts + [a, b])[..|parts| + 1] == parts + [a];
    assert (parts + [a])[..|parts|] == parts;
  }

  lemma JoinLast(parts: seq<string>, a: string)
    ensures Join(parts + [a]) == Join(parts) + a
  {
    assert (parts + [a])[..|parts|] == parts;
  }

  /** One turn of `_parenthesize`'s loop: appending a space and the next
      child's text keeps the joined parts a prefix of the result. */
  lemma PartsStep(parts: seq<string>, name: string, texts: seq<string>, i: nat)
    requires i < |texts| && Join(parts) == "(" + name + Spaced(texts[..i])
    ensures Join(parts + [" ", texts[i]]) == "(" + name + Spaced(texts[..i + 1])
  {
    JoinAppend(parts, " ", texts[i]);
    SpacedStep(texts, i);
  }

  lemma SpacedStep(texts: seq<string>, i: nat)
    requires i < |texts|
    ensures Spaced(texts[..i + 1]) == Spaced(texts[..i]) + " " + texts[i]
  {
    assert texts[..i + 1][..i] == texts[..i];
  }

  /** The children's texts follow the name in order, each after one space. */
  lemma {:induction false} SpacedFront(t: string, rest: seq<string>)
    ensures Spaced([t] + rest) == " " + t + Spaced(rest)
    decreases |rest|
  {
    if rest == [] {
      assert ([t] + rest)[..0] == [];
    } else {
      var last := rest[|rest| - 1];
      assert ([t] + rest)[..|rest|] == [t] + rest[..|rest| - 1];
      SpacedFront(t, rest[..|rest| - 1]);
    }
  }

  lemma SpacedOne(t: string)
    ensures Spaced([t]) == " " + t
  {
    assert [t][..0] == [];
    assert "" + " " == " ";
  }

  lemma Assoc(a: string, b: string, c: string)
    ensures a + (b + c) == a + b + c
  {
  }

  /** `_parenthesize` with one child and with two, written out. */
  lemma ParenthesizedSmall(name: string, a: string, b: string)
    ensures Parenthesized(name, [a]) == "(" + name + " " + a + ")"
    ensures Parenthesized(name, [a, b]) == "(" + name + " " + a + " " + b + ")"
  {
    SpacedOne(a);
    assert [a, b][..1] == [a];
    var front := "(" + name;
    Assoc(front, " ", a);
    Assoc(front, " " + a + " ", b);
    Assoc(front, " " + a, " ");
  }

  /** A binary node prints as "(" op " " left " " right ")". */
  lemma ShowBinary(l: Expr, op: Token, r: Expr, numText: Number -> string)
    ensures Show(Binary(l, op, r), numText) ==
      "(" + op.lexeme + " " + Show(l, numText) + " " + Show(r, numText) + ")"
  {
    ParenthesizedSmall(op.lexeme, Show(l, numText), Show(r, numText));
  }

  /** A grouping prints as "(group " inner ")" and a unary node as
      "(" op " " operand ")". */
  lemma ShowUnaryAndGrouping(op: Token, x: Expr, numText: Number -> string)
    ensures Show(Grouping(x), numText) == "(group " + Show(x, numText) + ")"
    ensures Show(Unary(op, x), numText) == "(" + op.lexeme + " " + Show(x, numText) + ")"
  {
    ParenthesizedSmall("group", Show(x, numText), "");
    ParenthesizedSmall(op.lexeme, Show(x, numText), "");
    assert "(" + "group" + " " == "(group ";
  }

  /** A literal prints as Python's `str` of its value, with None as "nil"
      and a string without quotes. */
  lemma ShowLiteral(n: Number, s: string, numText: Number -> string)
    ensures Show(Literal(Nil), numText) == "nil"
    ensures Show(Literal(Bool(true)), numText) == "True" && Show(Literal(Bool(false)), numText) == "False"
    ensures Show(Literal(Num(n)), numText) == numText(n)
    ensures Show(Literal(Str(s)), numText) == s
  {
  }

  /** How often a character occurs in a text. */
  function Count(s: string, c: char): nat
  {
    if s == [] then 0 else Count(s[..|s| - 1], c) + (if s[|s| - 1] == c then 1 else 0)
  }

  lemma {:induction false} CountConcat(a: string, b: string, c: char)
    ensures Count(a + b, c) == Count(a, c) + Count(b, c)
    decreases |b|
  {
    if b == [] {
      assert a + b == a;
    } else {
      assert (a + b)[..|a + b| - 1] == a + b[..|b| - 1];
      CountConcat(a, b[..|b| - 1], c);
    }
  }

  /** The occurrences of a character in several texts together. */
  function CountAll(texts: seq<string>, c: char): nat
  {
    if texts == [] then 0 else CountAll(texts[..|texts| - 1], c) + Count(texts[|texts| - 1], c)
  }

  lemma {:induction false} CountSpaced(texts: seq<string>, c: char)
    requires c != ' '
    ensures Count(Spaced(texts), c) == CountAll(texts, c)
    decreases |texts|
  {
    if texts != [] {
      var init := texts[..|texts| - 1];
      CountSpaced(init, c);
      CountConcat(Spaced(init), " ", c);
      CountConcat(Spaced(init) + " ", texts[|texts| - 1], c);
      assert " "[..0] == [];
    }
  }

  /** `_parenthesize` adds exactly one "(" and one ")" to what its name and
      children hold. */
  lemma ParenthesizedCount(name: string, texts: seq<string>, c: char)
    requires c == '(' || c == ')'
    ensures Count(Parenthesized(name, texts), c) ==
      CountAll(texts, c) + Count(name, c) + 1
  {
    CountSpaced(texts, c);
    CountConcat("(", name, c);
    CountConcat("(" + name, Spaced(texts), c);
    CountConcat("(" + name + Spaced(texts), ")", c);
    assert "("[..0] == [] && ")"[..0] == [];
  }

  /** Neither parenthesis occurs in the text. */
  predicate ParenFree(s: string)
  {
    Count(s, '(') == 0 && Count(s, ')') == 0
  }

  lemma GroupIsParenFree()
    ensures ParenFree("group")
  {
    assert "group"[..4] == "grou" && "grou"[..3] == "gro" && "gro"[..2] == "gr";
    assert "gr"[..1] == "g" && "g"[..0] == [];
  }

  /** No operator lexeme and no literal's text holds a parenthesis. */
  predicate Plain(e: Expr, numText: Number -> string)
  {
    match e
    case Binary(l, op, r) => ParenFree(op.lexeme) && Plain(l, numText) && Plain(r, numText)
    case Grouping(x) => Plain(x, numText)
    case Literal(v) => ParenFree(LiteralText(v, numText))
    case Unary(op, x) => ParenFree(op.lexeme) && Plain(x, numText)
  }

  /** The number of operator and grouping nodes. */
  function Inner(e: Expr): nat
  {
    match e
    case Binary(l, _, r) => 1 + Inner(l) + Inner(r)
    case Grouping(x) => 1 + Inner(x)
    case Literal(_) => 0
    case Unary(_, x) => 1 + Inner(x)
  }

  lemma CountAllSmall(a: string, b: string, c: char)
    ensures CountAll([a], c) == Count(a, c)
    ensures CountAll([a, b], c) == Count(a, c) + Count(b, c)
  {
    assert [a][..0] == [] && [a, b][..1] == [a];
  }

  /** The printed form is balanced: when no lexeme or literal holds a
      parenthesis, it has one "(" and one ")" per operator or grouping node. */
  lemma {:induction false} ShowBalanced(e: Expr, numText: Number -> string, c: char)
    requires Plain(e, numText) && (c == '(' || c == ')')
    ensures Count(Show(e, numText), c) == Inner(e)
    decreases e, 1
  {
    match e
    case Binary(l, op, r) => BinaryBalanced(l, op, r, numText, c);
    case Grouping(x) =>
      ShowBalanced(x, numText, c);
      ParenthesizedCount("group", [Show(x, numText)], c);
      CountAllSmall(Show(x, numText), "", c);
      GroupIsParenFree();
    case Literal(_) =>
    case Unary(op, x) =>
      ShowBalanced(x, numText, c);
      ParenthesizedCount(op.lexeme, [Show(x, numText)], c);
      CountAllSmall(Show(x, numText), "", c);
  }

  lemma {:induction false} BinaryBalanced(l: Expr, op: Token, r: Expr, numText: Number -> string, c: char)
    requires ParenFree(op.lexeme) && Plain(l, numText) && Plain(r, numText) && (c == '(' || c == ')')
    ensures Count(Show(Binary(l, op, r), numText), c) == 1 + Inner(l) + Inner(r)
    decreases Binary(l, op, r), 0
  {
    ShowBalanced(l, numText, c);
    ShowBalanced(r, numText, c);
    var sl, sr := Show(l, numText), Show(r, numText);
    ParenthesizedCount(op.lexeme, [sl, sr], c);
    CountAllSmall(sl, sr, c);
  }
}
