/** What the scanner does, as functions of the source text
    (losos/scanner.py): the character classes, the reserved-word table,
    one scanning step from a lexeme's first character, and the whole scan.
    The Scanner class in module Scanning is proved to compute exactly this. */
module Lexical {
  import opened Wrappers
  import opened Tokens
  import opened Reporting

  /** ASCII decimal digit (`isdigit` and `isascii`). */
  predicate IsDigit(c: char) { '0' <= c <= '9' }

  /** ASCII letter (`isalpha` and `isascii`); '_' is not one. */
  predicate IsAlpha(c: char) { 'a' <= c <= 'z' || 'A' <= c <= 'Z' }

  predicate IsAlphaNumeric(c: char) { IsAlpha(c) || IsDigit(c) }

  predicate NotQuote(c: char) { c != '"' }

  predicate NotNewline(c: char) { c != '\n' }

  /** The sixteen reserved words and their kinds, the `_keywords` table. */
  function KeywordKind(word: string): (r: Option<TokenType>)
    ensures r.Some? ==> IsIdentifierLexeme(word) && IsKeywordKind(r.value)
  {
    match word
    case "and" => Some(KwAnd)
    case "class" => Some(KwClass)
    case "else" => Some(KwElse)
    case "false" => Some(KwFalse)
    case "for" => Some(KwFor)
    case "fun" => Some(KwFun)
    case "if" => Some(KwIf)
    case "nil" => Some(KwNil)
    case "or" => Some(KwOr)
    case "print" => Some(KwPrint)
    case "return" => Some(KwReturn)
    case "super" => Some(KwSuper)
    case "this" => Some(KwThis)
    case "true" => Some(KwTrue)
    case "var" => Some(KwVar)
    case "while" => Some(KwWhile)
    case _ => None
  }

  predicate IsKeywordKind(kind: TokenType)
  {
    kind in {KwAnd, KwClass, KwElse, KwFalse, KwFor, KwFun, KwIf, KwNil,
             KwOr, KwPrint, KwReturn, KwSuper, KwThis, KwTrue, KwVar, KwWhile}
  }

  /** The number of line breaks in a piece of text. */
  function LineBreaks(src: string, i: nat, j: nat): nat
    requires i <= j <= |src|
    decreases j
  {
    if j == i then 0 else LineBreaks(src, i, j - 1) + (if src[j - 1] == '\n' then 1 else 0)
  }

  /** The first position at or after `i` whose character is not in the run,
      or the end of the text. */
  function RunEnd(src: string, i: nat, inRun: char -> bool): (j: nat)
    requires i <= |src|
    ensures i <= j <= |src|
    decreases |src| - i
  {
    if i < |src| && inRun(src[i]) then RunEnd(src, i + 1, inRun) else i
  }

  /** Every character of the run is in it and the one after it is not. */
  lemma {:induction false} RunEndRun(src: string, i: nat, inRun: char -> bool)
    requires i <= |src|
    ensures forall k :: i <= k < RunEnd(src, i, inRun) ==> inRun(src[k])
    ensures RunEnd(src, i, inRun) == |src| || !inRun(src[RunEnd(src, i, inRun)])
    decreases |src| - i
  {
    if i < |src| && inRun(src[i]) {
      RunEndRun(src, i + 1, inRun);
    }
  }

  /** Where a number lexeme whose first digit is at `i - 1` ends: the digit
      run, then a '.' and a second digit run only when a digit follows it. */
  function NumberEnd(src: string, i: nat): (j: nat)
    requires i <= |src|
    ensures i <= j <= |src|
  {
    var k := RunEnd(src, i, IsDigit);
    if k + 1 < |src| && src[k] == '.' && IsDigit(src[k + 1]) then RunEnd(src, k + 1, IsDigit) else k
  }

  /** A number lexeme is a digit run, then possibly '.' and a second
      digit run, and neither run could have been longer. */
  lemma NumberEndRuns(src: string, i: nat)
    requires i <= |src|
    ensures var k := RunEnd(src, i, IsDigit); var e := NumberEnd(src, i);
      (forall j :: i <= j < k ==> IsDigit(src[j])) && (k == |src| || !IsDigit(src[k])) &&
      (e == k || (k + 1 < e && src[k] == '.' && IsDigit(src[k + 1]) &&
                  (forall j :: k < j < e ==> IsDigit(src[j])) && (e == |src| || !IsDigit(src[e]))))
  {
    var k := RunEnd(src, i, IsDigit);
    RunEndRun(src, i, IsDigit);
    if k + 1 < |src| && src[k] == '.' && IsDigit(src[k + 1]) {
      RunEndRun(src, k + 1, IsDigit);
    }
  }

  predicate AllDigits(s: string)
  {
    |s| > 0 && forall k :: 0 <= k < |s| ==> IsDigit(s[k])
  }

  /** A digit run, optionally followed by '.' and a second digit run. */
  predicate IsNumberLexeme(s: string)
  {
    AllDigits(s) || exists k :: 0 < k < |s| && s[k] == '.' && AllDigits(s[..k]) && AllDigits(s[k + 1..])
  }

  /** A letter followed by letters and digits. */
  predicate IsIdentifierLexeme(s: string)
  {
    |s| > 0 && IsAlpha(s[0]) && forall k :: 0 <= k < |s| ==> IsAlphaNumeric(s[k])
  }

  /** The text of every punctuation and operator kind. */
  function FixedLexeme(kind: TokenType): Option<string>
  {
    match kind
    case LeftParen => Some("(")
    case RightParen => Some(")")
    case LeftBrace => Some("{")
    case RightBrace => Some("}")
    case Comma => Some(",")
    case Dot => Some(".")
    case Minus => Some("-")
    case Plus => Some("+")
    case Semicolon => Some(";")
    case Slash => Some("/")
    case Star => Some("*")
    case Bang => Some("!")
    case BangEqual => Some("!=")
    case Equal => Some("=")
    case EqualEqual => Some("==")
    case Greater => Some(">")
    case GreaterEqual => Some(">=")
    case Less => Some("<")
    case LessEqual => Some("<=")
    case _ => None
  }

  /** The exact shape of a scanned token's lexeme and literal, by kind. */
  predicate WellShaped(t: Token, toFloat: string -> Number)
  {
    if t.kind == Eof then t.lexeme == "" && t.literal == Nil
    else if t.kind == StringLit then
      t.literal.Str? && t.lexeme == "\"" + t.literal.s + "\"" && '"' !in t.literal.s
    else if t.kind == NumberLit then
      IsNumberLexeme(t.lexeme) && t.literal == Num(toFloat(t.lexeme))
    else if t.kind == Identifier then
      IsIdentifierLexeme(t.lexeme) && KeywordKind(t.lexeme).None? && t.literal == Nil
    else if IsKeywordKind(t.kind) then
      IsIdentifierLexeme(t.lexeme) && KeywordKind(t.lexeme) == Some(t.kind) && t.literal == Nil
    else
      FixedLexeme(t.kind) == Some(t.lexeme) && t.literal == Nil
  }

  /** Maximal munch: the character after a token could not have extended it. */
  predicate Maximal(src: string, end: nat, t: Token)
  {
    (t.kind == NumberLit ==>
       !(end < |src| && IsDigit(src[end])) &&
       ('.' !in t.lexeme ==> !(end + 1 < |src| && src[end] == '.' && IsDigit(src[end + 1])))) &&
    (t.kind == Identifier || IsKeywordKind(t.kind) ==> !(end < |src| && IsAlphaNumeric(src[end]))) &&
    (t.kind in {Bang, Equal, Less, Greater} ==> !(end < |src| && src[end] == '=')) &&
    (t.kind == Slash ==> !(end < |src| && src[end] == '/'))
  }

  /** The effect of scanning from one lexeme start: the token emitted if any,
      where the cursor ends, the new line number and the diagnostic if any. */
  datatype Step = Step(emit: Option<Token>, next: nat, line: int, diag: Option<string>)

  /** What every step promises: progress within the text, a token that is
      the text consumed at the step's line, never both a token and a
      diagnostic, and one more line per line break consumed. */
  predicate StepOk(src: string, start: nat, line: int, st: Step)
  {
    start < st.next <= |src| &&
    (st.emit.Some? ==>
       st.emit.value.lexeme == src[start..st.next] && st.emit.value.line == st.line &&
       st.emit.value.kind != Eof) &&
    (st.diag.Some? ==> st.emit.None?) &&
    st.line == line + LineBreaks(src, start, st.next)
  }

  /** Counting the line breaks of two adjacent pieces of text. */
  lemma {:induction false} LineBreaksSplit(src: string, i: nat, j: nat, k: nat)
    requires i <= j <= k <= |src|
    ensures LineBreaks(src, i, k) == LineBreaks(src, i, j) + LineBreaks(src, j, k)
    decreases k
  {
    if k > j {
      LineBreaksSplit(src, i, j, k - 1);
    }
  }

  lemma {:induction false} NoLineBreaks(src: string, i: nat, j: nat)
    requires i <= j <= |src|
    requires forall k :: i <= k < j ==> src[k] != '\n'
    ensures LineBreaks(src, i, j) == 0
    decreases j
  {
    if j > i {
      NoLineBreaks(src, i, j - 1);
    }
  }

  /** A token for the text from `start` to `next`, at the current line. */
  function Emit(src: string, start: nat, next: nat, line: int, kind: TokenType, literal: Value): Step
    requires start <= next <= |src|
  {
    Step(Some(Token(kind, src[start..next], literal, line)), next, line, None)
  }

  /** The punctuation that always stands alone. */
  function SingleCharKind(c: char): Option<TokenType>
  {
    match c
    case '(' => Some(LeftParen)
    case ')' => Some(RightParen)
    case '{' => Some(LeftBrace)
    case '}' => Some(RightBrace)
    case ',' => Some(Comma)
    case '.' => Some(Dot)
    case '-' => Some(Minus)
    case '+' => Some(Plus)
    case ';' => Some(Semicolon)
    case '*' => Some(Star)
    case _ => None
  }

  /** The operators that take a following '=': the one- and two-character kinds. */
  function OneOrTwoKinds(c: char): Option<(TokenType, TokenType)>
  {
    match c
    case '!' => Some((Bang, BangEqual))
    case '=' => Some((Equal, EqualEqual))
    case '<' => Some((Less, LessEqual))
    case '>' => Some((Greater, GreaterEqual))
    case _ => None
  }

  /** `!`, `=`, `<`, `>`: the two-character kind iff '=' follows. */
  function OneOrTwoStep(src: string, start: nat, line: int, single: TokenType, double: TokenType): Step
    requires start < |src|
  {
    if start + 1 < |src| && src[start + 1] == '=' then Emit(src, start, start + 2, line, double, Nil)
    else Emit(src, start, start + 1, line, single, Nil)
  }

  /** `/`: a comment up to (not including) the next line break, or a slash. */
  function SlashStep(src: string, start: nat, line: int): Step
    requires start < |src|
  {
    if start + 1 < |src| && src[start + 1] == '/' then Step(None, RunEnd(src, start + 2, NotNewline), line, None)
    else Emit(src, start, start + 1, line, Slash, Nil)
  }

  /** A string literal: up to the closing quote, counting line breaks on the
      way; no token and "Unterminated string." if the text ends first. */
  function StringStep(src: string, start: nat, line: int): Step
    requires start < |src|
  {
    var e := RunEnd(src, start + 1, NotQuote);
    var l := line + LineBreaks(src, start + 1, e);
    if e == |src| then Step(None, e, l, Some(Diagnostic(l, "", UnterminatedString)))
    else Step(Some(Token(StringLit, src[start..e + 1], Str(src[start + 1..e]), l)), e + 1, l, None)
  }

  /** A number literal; its value is the lexeme read as a float. */
  function NumberStep(src: string, start: nat, line: int, toFloat: string -> Number): Step
    requires start < |src|
  {
    var e := NumberEnd(src, start + 1);
    Emit(src, start, e, line, NumberLit, Num(toFloat(src[start..e])))
  }

  /** An identifier, or the reserved word's own kind when the lexeme is one. */
  function IdentifierStep(src: string, start: nat, line: int): Step
    requires start < |src|
  {
    var e := RunEnd(src, start + 1, IsAlphaNumeric);
    var kind := KeywordKind(src[start..e]);
    Emit(src, start, e, line, if kind.Some? then kind.value else Identifier, Nil)
  }

  const UnexpectedCharacter := "Unexpected character."
  const UnterminatedString := "Unterminated string."

  /** One call of the scanner's per-lexeme dispatch. */
  function ScanStep(src: string, start: nat, line: int, toFloat: string -> Number): Step
    requires start < |src|
  {
    var c := src[start];
    if SingleCharKind(c).Some? then Emit(src, start, start + 1, line, SingleCharKind(c).value, Nil)
    else if OneOrTwoKinds(c).Some? then OneOrTwoStep(src, start, line, OneOrTwoKinds(c).value.0, OneOrTwoKinds(c).value.1)
    else if c == '/' then SlashStep(src, start, line)
    else if c == ' ' || c == '\r' || c == '\t' then Step(None, start + 1, line, None)
    else if c == '\n' then Step(None, start + 1, line + 1, None)
    else if c == '"' then StringStep(src, start, line)
    else if IsDigit(c) then NumberStep(src, start, line, toFloat)
    else if IsAlpha(c) then IdentifierStep(src, start, line)
    else Step(None, start + 1, line, Some(Diagnostic(line, "", UnexpectedCharacter)))
  }

  /** Every step makes progress, emits exactly the text it consumed, never
      both emits and reports, and counts the line breaks it consumed. */
  lemma ScanStepOk(src: string, start: nat, line: int, toFloat: string -> Number)
    requires start < |src|
    ensures StepOk(src, start, line, ScanStep(src, start, line, toFloat))
  {
    var c := src[start];
    if SingleCharKind(c).Some? {
      OneCharOk(src, start, line, SingleCharKind(c).value);
    } else if OneOrTwoKinds(c).Some? {
      OneOrTwoStepOk(src, start, line, OneOrTwoKinds(c).value.0, OneOrTwoKinds(c).value.1);
    } else if c == '/' {
      SlashStepOk(src, start, line);
    } else if c == '"' {
      StringStepOk(src, start, line);
    } else if IsDigit(c) {
      NumberStepOk(src, start, line, toFloat);
    } else if IsAlpha(c) {
      IdentifierStepOk(src, start, line);
    } else {
      assert src[start..start + 1] == [c];
    }
  }

  lemma OneOrTwoStepOk(src: string, start: nat, line: int, single: TokenType, double: TokenType)
    requires start < |src| && src[start] != '\n' && single != Eof && double != Eof
    ensures StepOk(src, start, line, OneOrTwoStep(src, start, line, single, double))
  {
    var st := OneOrTwoStep(src, start, line, single, double);
    if start + 1 < |src| && src[start + 1] == '=' {
      TwoCharOk(src, start, line, double);
      assert st == Emit(src, start, start + 2, line, double, Nil);
    } else {
      OneCharOk(src, start, line, single);
      assert st == Emit(src, start, start + 1, line, single, Nil);
    }
  }

  lemma TwoCharOk(src: string, start: nat, line: int, kind: TokenType)
    requires start + 1 < |src| && src[start] != '\n' && src[start + 1] == '=' && kind != Eof
    ensures StepOk(src, start, line, Emit(src, start, start + 2, line, kind, Nil))
  {
    EmitOk(src, start, start + 2, line, kind, Nil);
  }

  lemma OneCharOk(src: string, start: nat, line: int, kind: TokenType)
    requires start < |src| && src[start] != '\n' && kind != Eof
    ensures StepOk(src, start, line, Emit(src, start, start + 1, line, kind, Nil))
  {
    EmitOk(src, start, start + 1, line, kind, Nil);
  }

  lemma SlashStepOk(src: string, start: nat, line: int)
    requires start < |src| && src[start] == '/'
    ensures StepOk(src, start, line, SlashStep(src, start, line))
  {
    if start + 1 < |src| && src[start + 1] == '/' {
      var e := RunEnd(src, start + 2, NotNewline);
      RunEndRun(src, start + 2, NotNewline);
      NoLineBreaks(src, start, e);
    } else {
      OneCharOk(src, start, line, Slash);
    }
  }

  lemma NumberStepOk(src: string, start: nat, line: int, toFloat: string -> Number)
    requires start < |src| && IsDigit(src[start])
    ensures StepOk(src, start, line, NumberStep(src, start, line, toFloat))
  {
    var e := NumberEnd(src, start + 1);
    NumberEndRuns(src, start + 1);
    assert forall k :: start <= k < e ==> IsDigit(src[k]) || src[k] == '.';
    EmitOk(src, start, e, line, NumberLit, Num(toFloat(src[start..e])));
  }

  lemma IdentifierStepOk(src: string, start: nat, line: int)
    requires start < |src| && IsAlpha(src[start])
    ensures StepOk(src, start, line, IdentifierStep(src, start, line))
  {
    var e := RunEnd(src, start + 1, IsAlphaNumeric);
    RunEndRun(src, start + 1, IsAlphaNumeric);
    assert forall k :: start <= k < e ==> IsAlphaNumeric(src[k]);
    var kind := KeywordKind(src[start..e]);
    EmitOk(src, start, e, line, if kind.Some? then kind.value else Identifier, Nil);
  }

  lemma EmitOk(src: string, start: nat, next: nat, line: int, kind: TokenType, literal: Value)
    requires start < next <= |src| && kind != Eof
    requires forall k :: start <= k < next ==> src[k] != '\n'
    ensures StepOk(src, start, line, Emit(src, start, next, line, kind, literal))
  {
    NoLineBreaks(src, start, next);
  }

  lemma StringStepOk(src: string, start: nat, line: int)
    requires start < |src| && src[start] == '"'
    ensures StepOk(src, start, line, StringStep(src, start, line))
  {
    var e := RunEnd(src, start + 1, NotQuote);
    RunEndRun(src, start + 1, NotQuote);
    LineBreaksSplit(src, start, start + 1, e);
    assert LineBreaks(src, start, start + 1) == 0;
  }


  /** The token a step emits has its kind's shape and could not have been
      longer. */
  lemma ScanStepShape(src: string, start: nat, line: int, toFloat: string -> Number)
    requires start < |src|
    ensures var st := ScanStep(src, start, line, toFloat);
      st.emit.Some? ==> WellShaped(st.emit.value, toFloat) && Maximal(src, st.next, st.emit.value)
  {
    var c := src[start];
    var st := ScanStep(src, start, line, toFloat);
    if SingleCharKind(c).Some? {
      PunctuationShape(src, start, line, toFloat);
    } else if OneOrTwoKinds(c).Some? {
      OperatorShape(src, start, line, toFloat);
    } else if c == '/' {
      SlashShape(src, start, line, toFloat);
    } else if c == '"' {
      StringShape(src, start, line, toFloat);
    } else if IsDigit(c) {
      NumberShape(src, start, line, toFloat);
    } else if IsAlpha(c) {
      IdentifierShape(src, start, line, toFloat);
    }
  }

  lemma PunctuationShape(src: string, start: nat, line: int, toFloat: string -> Number)
    requires start < |src| && SingleCharKind(src[start]).Some?
    ensures var t := Token(SingleCharKind(src[start]).value, src[start..start + 1], Nil, line);
      WellShaped(t, toFloat) && Maximal(src, start + 1, t)
  {
    assert src[start..start + 1] == [src[start]];
  }

  lemma OperatorShape(src: string, start: nat, line: int, toFloat: string -> Number)
    requires start < |src| && OneOrTwoKinds(src[start]).Some?
    ensures var kinds := OneOrTwoKinds(src[start]).value;
      var st := OneOrTwoStep(src, start, line, kinds.0, kinds.1);
      st.emit.Some? && WellShaped(st.emit.value, toFloat) && Maximal(src, st.next, st.emit.value)
  {
    if start + 1 < |src| && src[start + 1] == '=' {
      assert src[start..start + 2] == [src[start], '='];
    } else {
      assert src[start..start + 1] == [src[start]];
    }
  }

  lemma SlashShape(src: string, start: nat, line: int, toFloat: string -> Number)
    requires start < |src| && src[start] == '/'
    ensures var st := SlashStep(src, start, line);
      st.emit.Some? ==> WellShaped(st.emit.value, toFloat) && Maximal(src, st.next, st.emit.value)
  {
    assert src[start..start + 1] == "/";
  }

  lemma StringShape(src: string, start: nat, line: int, toFloat: string -> Number)
    requires start < |src| && src[start] == '"'
    ensures var st := StringStep(src, start, line);
      st.emit.Some? ==> WellShaped(st.emit.value, toFloat) && Maximal(src, st.next, st.emit.value)
  {
    var e := RunEnd(src, start + 1, NotQuote);
    RunEndRun(src, start + 1, NotQuote);
    var body := src[start + 1..e];
    if e < |src| {
      assert src[start..e + 1] == "\"" + body + "\"";
      assert forall k :: 0 <= k < |body| ==> body[k] != '"';
    }
  }

  lemma NumberShape(src: string, start: nat, line: int, toFloat: string -> Number)
    requires start < |src| && IsDigit(src[start])
    ensures var st := NumberStep(src, start, line, toFloat);
      st.emit.Some? && WellShaped(st.emit.value, toFloat) && Maximal(src, st.next, st.emit.value)
  {
    var k := RunEnd(src, start + 1, IsDigit);
    var e := NumberEnd(src, start + 1);
    NumberEndRuns(src, start + 1);
    if e == k {
      IntegerLexeme(src, start, e);
    } else {
      FractionLexeme(src, start, k, e);
    }
    NumberToken(src, e, Token(NumberLit, src[start..e], Num(toFloat(src[start..e])), line), toFloat);
  }

  lemma NumberToken(src: string, end: nat, t: Token, toFloat: string -> Number)
    requires t.kind == NumberLit && IsNumberLexeme(t.lexeme) && t.literal == Num(toFloat(t.lexeme))
    requires !(end < |src| && IsDigit(src[end]))
    requires '.' !in t.lexeme ==> !(end + 1 < |src| && src[end] == '.' && IsDigit(src[end + 1]))
    ensures WellShaped(t, toFloat) && Maximal(src, end, t)
  {
  }

  lemma IntegerLexeme(src: string, start: nat, e: nat)
    requires start < e <= |src|
    requires forall j :: start <= j < e ==> IsDigit(src[j])
    ensures IsNumberLexeme(src[start..e]) && '.' !in src[start..e]
  {
    assert AllDigits(src[start..e]);
  }

  lemma FractionLexeme(src: string, start: nat, k: nat, e: nat)
    requires start < k && k + 1 < e <= |src| && src[k] == '.'
    requires forall j :: start <= j < e && j != k ==> IsDigit(src[j])
    ensures IsNumberLexeme(src[start..e])
  {
    var text := src[start..e];
    assert text[..k - start] == src[start..k] && text[k - start + 1..] == src[k + 1..e];
    assert text[k - start] == '.' && AllDigits(text[..k - start]) && AllDigits(text[k - start + 1..]);
  }

  lemma IdentifierShape(src: string, start: nat, line: int, toFloat: string -> Number)
    requires start < |src| && IsAlpha(src[start])
    ensures var st := IdentifierStep(src, start, line);
      st.emit.Some? && WellShaped(st.emit.value, toFloat) && Maximal(src, st.next, st.emit.value)
  {
    var e := RunEnd(src, start + 1, IsAlphaNumeric);
    RunEndRun(src, start + 1, IsAlphaNumeric);
    var text := src[start..e];
    assert IsIdentifierLexeme(text);
    var kind := KeywordKind(text);
    WordToken(src, e, Token(if kind.Some? then kind.value else Identifier, text, Nil, line), toFloat);
  }

  lemma WordToken(src: string, end: nat, t: Token, toFloat: string -> Number)
    requires IsIdentifierLexeme(t.lexeme) && t.literal == Nil
    requires t.kind == (if KeywordKind(t.lexeme).Some? then KeywordKind(t.lexeme).value else Identifier)
    requires !(end < |src| && IsAlphaNumeric(src[end]))
    ensures WellShaped(t, toFloat) && Maximal(src, end, t)
  {
    if KeywordKind(t.lexeme).Some? {
      assert IsKeywordKind(t.kind);
      assert t.kind !in {Eof, StringLit, NumberLit, Identifier, Bang, Equal, Less, Greater, Slash};
    }
  }

  /** The result of a scan: the tokens, the source span [start, end) each
      was cut from, and the diagnostics reported on the way, in order. */
  datatype Scanned = Scanned(tokens: seq<Token>, spans: seq<(nat, nat)>, diags: seq<string>)

  /** A step's output in front of the rest of the scan. */
  function Prepend(pos: nat, st: Step, rest: Scanned): Scanned
  {
    Scanned(OptionToSeq(st.emit) + rest.tokens,
            (if st.emit.Some? then [(pos, st.next)] else []) + rest.spans,
            OptionToSeq(st.diag) + rest.diags)
  }

  /** Scanning the rest of the text from `pos` at line `line`: one step per
      lexeme until the end, then the end-of-input token. */
  function ScanFrom(src: string, pos: nat, line: int, toFloat: string -> Number): Scanned
    requires pos <= |src|
    decreases |src| - pos
  {
    if pos == |src| then Scanned([Token(Eof, "", Nil, line)], [(pos, pos)], [])
    else
      var st := ScanStep(src, pos, line, toFloat);
      ScanStepOk(src, pos, line, toFloat);
      Prepend(pos, st, ScanFrom(src, st.next, st.line, toFloat))
  }

  /** `scan_tokens` on a fresh scanner: from the first character, at line 1. */
  function Scan(src: string, toFloat: string -> Number): Scanned
  {
    ScanFrom(src, 0, 1, toFloat)
  }

  /** The token list ends with exactly one end-of-input token, with an empty
      lexeme, no literal and the given line. */
  predicate EndsWithEof(r: Scanned, line: int)
  {
    |r.tokens| >= 1 && |r.spans| == |r.tokens| &&
    r.tokens[|r.tokens| - 1] == Token(Eof, "", Nil, line) &&
    forall i :: 0 <= i < |r.tokens| - 1 ==> r.tokens[i].kind != Eof
  }

  /** The scan ends with exactly one end-of-input token, whose line is 1
      plus the number of line breaks in the text; no earlier token is one. */
  lemma {:induction false} ScanFromEndsWithEof(src: string, pos: nat, line: int, toFloat: string -> Number)
    requires pos <= |src|
    ensures EndsWithEof(ScanFrom(src, pos, line, toFloat), line + LineBreaks(src, pos, |src|))
    decreases |src| - pos
  {
    if pos < |src| {
      var st := ScanStep(src, pos, line, toFloat);
      ScanStepOk(src, pos, line, toFloat);
      ScanFromEndsWithEof(src, st.next, st.line, toFloat);
      PrependEndsWithEof(src, pos, line, st, ScanFrom(src, st.next, st.line, toFloat));
    }
  }

  lemma PrependEndsWithEof(src: string, pos: nat, line: int, st: Step, rest: Scanned)
    requires StepOk(src, pos, line, st)
    requires EndsWithEof(rest, st.line + LineBreaks(src, st.next, |src|))
    ensures EndsWithEof(Prepend(pos, st, rest), line + LineBreaks(src, pos, |src|))
  {
    LineBreaksSplit(src, pos, st.next, |src|);
    PrependKeepsEof(pos, st, rest, st.line + LineBreaks(src, st.next, |src|));
  }

  lemma PrependKeepsEof(pos: nat, st: Step, rest: Scanned, last: int)
    requires st.emit.Some? ==> st.emit.value.kind != Eof
    requires EndsWithEof(rest, last)
    ensures EndsWithEof(Prepend(pos, st, rest), last)
  {
    var r := Prepend(pos, st, rest);
    var head := OptionToSeq(st.emit);
    forall i | 0 <= i < |r.tokens| - 1
      ensures r.tokens[i].kind != Eof
    {
      if i >= |head| {
        assert r.tokens[i] == rest.tokens[i - |head|];
      }
    }
  }

  /** Every token is the slice of the text its span covers, the spans lie
      in order after `pos` without overlapping, and a token's line is `line`
      plus the line breaks between `pos` and its end. */
  predicate Slices(src: string, pos: nat, line: int, r: Scanned)
  {
    |r.spans| == |r.tokens| &&
    (forall i :: 0 <= i < |r.tokens| ==>
       pos <= r.spans[i].0 <= r.spans[i].1 <= |src| &&
       r.tokens[i].lexeme == src[r.spans[i].0..r.spans[i].1] &&
       r.tokens[i].line == line + LineBreaks(src, pos, r.spans[i].1)) &&
    (forall i :: 0 <= i < |r.tokens| - 1 ==> r.spans[i].1 <= r.spans[i + 1].0)
  }

  lemma {:induction false} ScanFromSlices(src: string, pos: nat, line: int, toFloat: string -> Number)
    requires pos <= |src|
    ensures Slices(src, pos, line, ScanFrom(src, pos, line, toFloat))
    decreases |src| - pos
  {
    if pos < |src| {
      var st := ScanStep(src, pos, line, toFloat);
      ScanStepOk(src, pos, line, toFloat);
      ScanFromSlices(src, st.next, st.line, toFloat);
      PrependSlices(src, pos, line, st, ScanFrom(src, st.next, st.line, toFloat));
    } else {
      assert src[pos..pos] == "";
    }
  }

  lemma PrependSlices(src: string, pos: nat, line: int, st: Step, rest: Scanned)
    requires StepOk(src, pos, line, st)
    requires Slices(src, st.next, st.line, rest)
    ensures Slices(src, pos, line, Prepend(pos, st, rest))
  {
    var r := Prepend(pos, st, rest);
    var off := if st.emit.Some? then 1 else 0;
    forall i | off <= i < |r.tokens|
      ensures pos <= r.spans[i].0 <= r.spans[i].1 <= |src|
      ensures r.tokens[i].lexeme == src[r.spans[i].0..r.spans[i].1]
      ensures r.tokens[i].line == line + LineBreaks(src, pos, r.spans[i].1)
    {
      assert r.tokens[i] == rest.tokens[i - off] && r.spans[i] == rest.spans[i - off];
      LaterLine(src, pos, line, st, rest.tokens[i - off], rest.spans[i - off]);
    }
    PrependOrdered(pos, st, rest);
  }

  /** A token of the rest of the scan, seen from before the step. */
  lemma LaterLine(src: string, pos: nat, line: int, st: Step, t: Token, span: (nat, nat))
    requires StepOk(src, pos, line, st)
    requires st.next <= span.0 <= span.1 <= |src|
    requires t.line == st.line + LineBreaks(src, st.next, span.1)
    ensures t.line == line + LineBreaks(src, pos, span.1)
  {
    LineBreaksSplit(src, pos, st.next, span.1);
  }

  lemma PrependOrdered(pos: nat, st: Step, rest: Scanned)
    requires |rest.spans| == |rest.tokens|
    requires forall i :: 0 <= i < |rest.tokens| ==> st.next <= rest.spans[i].0
    requires forall i :: 0 <= i < |rest.tokens| - 1 ==> rest.spans[i].1 <= rest.spans[i + 1].0
    ensures var r := Prepend(pos, st, rest);
      forall i :: 0 <= i < |r.tokens| - 1 ==> r.spans[i].1 <= r.spans[i + 1].0
  {
    var r := Prepend(pos, st, rest);
    var off := if st.emit.Some? then 1 else 0;
    forall i | off <= i < |r.tokens| - 1
      ensures r.spans[i].1 <= r.spans[i + 1].0
    {
      assert r.spans[i] == rest.spans[i - off] && r.spans[i + 1] == rest.spans[i + 1 - off];
    }
    if st.emit.Some? && |r.tokens| > 1 {
      assert r.spans[0] == (pos, st.next) && r.spans[1] == rest.spans[0];
    }
  }

  /** Every token has its kind's exact lexeme shape and is as long as it can
      be (maximal munch). */
  predicate Shapes(src: string, r: Scanned, toFloat: string -> Number)
  {
    |r.spans| == |r.tokens| &&
    forall i :: 0 <= i < |r.tokens| ==>
      WellShaped(r.tokens[i], toFloat) && Maximal(src, r.spans[i].1, r.tokens[i])
  }

  lemma {:induction false} ScanFromShapes(src: string, pos: nat, line: int, toFloat: string -> Number)
    requires pos <= |src|
    ensures Shapes(src, ScanFrom(src, pos, line, toFloat), toFloat)
    decreases |src| - pos
  {
    if pos < |src| {
      var st := ScanStep(src, pos, line, toFloat);
      ScanStepOk(src, pos, line, toFloat);
      ScanStepShape(src, pos, line, toFloat);
      ScanFromShapes(src, st.next, st.line, toFloat);
      PrependShapes(src, pos, st, ScanFrom(src, st.next, st.line, toFloat), toFloat);
    }
  }

  lemma PrependShapes(src: string, pos: nat, st: Step, rest: Scanned, toFloat: string -> Number)
    requires st.emit.Some? ==> WellShaped(st.emit.value, toFloat) && Maximal(src, st.next, st.emit.value)
    requires Shapes(src, rest, toFloat)
    ensures Shapes(src, Prepend(pos, st, rest), toFloat)
  {
  }

  /** A character that starts no lexeme and is not skipped. */
  predicate Unclassified(c: char)
  {
    SingleCharKind(c).None? && OneOrTwoKinds(c).None? && c != '/' &&
    c != ' ' && c != '\r' && c != '\t' && c != '\n' && c != '"' && !IsDigit(c) && !IsAlpha(c)
  }

  /** A string literal at `start` whose closing quote never comes. */
  predicate Unterminated(src: string, start: nat)
    requires start < |src|
  {
    src[start] == '"' && RunEnd(src, start + 1, NotQuote) == |src|
  }

  /** A step reports exactly on an unclassified character or an unterminated
      string. The first reports "Unexpected character." at the current line
      and moves past the one character; the second reports "Unterminated
      string." at the line the text ends on and consumes the rest of the
      text. Neither emits a token. */
  lemma ScanStepReports(src: string, start: nat, line: int, toFloat: string -> Number)
    requires start < |src|
    ensures var st := ScanStep(src, start, line, toFloat);
      (st.diag.Some? <==> Unclassified(src[start]) || Unterminated(src, start)) &&
      (Unclassified(src[start]) ==>
         st == Step(None, start + 1, line, Some(Diagnostic(line, "", UnexpectedCharacter)))) &&
      (Unterminated(src, start) ==>
         var l := line + LineBreaks(src, start + 1, |src|);
         st == Step(None, |src|, l, Some(Diagnostic(l, "", UnterminatedString))))
  {
  }

  /** After an unexpected character scanning goes on with the next one:
      the token list is unaffected and the report comes first. */
  lemma UnexpectedContinues(src: string, pos: nat, line: int, toFloat: string -> Number)
    requires pos < |src| && Unclassified(src[pos])
    ensures ScanFrom(src, pos, line, toFloat).tokens == ScanFrom(src, pos + 1, line, toFloat).tokens
    ensures ScanFrom(src, pos, line, toFloat).diags ==
      [Diagnostic(line, "", UnexpectedCharacter)] + ScanFrom(src, pos + 1, line, toFloat).diags
  {
    ScanStepReports(src, pos, line, toFloat);
  }

  /** An unterminated string ends the scan: only the end-of-input token
      follows, and its report is the last one. */
  lemma UnterminatedEnds(src: string, pos: nat, line: int, toFloat: string -> Number)
    requires pos < |src| && Unterminated(src, pos)
    ensures var l := line + LineBreaks(src, pos + 1, |src|);
      ScanFrom(src, pos, line, toFloat).tokens == [Token(Eof, "", Nil, l)] &&
      ScanFrom(src, pos, line, toFloat).diags == [Diagnostic(l, "", UnterminatedString)]
  {
    ScanStepReports(src, pos, line, toFloat);
  }

  ghost predicate IsUnexpectedReport(d: string)
  {
    exists l: int :: d == Diagnostic(l, "", UnexpectedCharacter)
  }

  ghost predicate IsUnterminatedReport(d: string)
  {
    exists l: int :: d == Diagnostic(l, "", UnterminatedString)
  }

  /** Every report is "Unexpected character." except that the last may be
      "Unterminated string.". */
  ghost predicate ScannerReports(d: seq<string>)
    decreases |d|
  {
    d == [] ||
    (IsUnexpectedReport(d[0]) && ScannerReports(d[1..])) ||
    (|d| == 1 && IsUnterminatedReport(d[0]))
  }

  /** The scanner reports nothing but these two errors, and an
      "Unterminated string." report can only be the last one. */
  lemma {:induction false} ScanFromDiagnostics(src: string, pos: nat, line: int, toFloat: string -> Number)
    requires pos <= |src|
    ensures ScannerReports(ScanFrom(src, pos, line, toFloat).diags)
    decreases |src| - pos
  {
    if pos < |src| {
      var st := ScanStep(src, pos, line, toFloat);
      ScanStepOk(src, pos, line, toFloat);
      ScanStepReports(src, pos, line, toFloat);
      ScanFromDiagnostics(src, st.next, st.line, toFloat);
      var rest := ScanFrom(src, st.next, st.line, toFloat).diags;
      if st.diag.Some? {
        if Unclassified(src[pos]) {
          assert st.diag.value == Diagnostic(line, "", UnexpectedCharacter);
        } else {
          assert st.next == |src|;
          assert st.diag.value == Diagnostic(st.line, "", UnterminatedString);
        }
      }
      ReportsPrepend(st.diag, rest);
    }
  }

  lemma ReportsPrepend(x: Option<string>, rest: seq<string>)
    requires ScannerReports(rest)
    requires x.Some? ==> IsUnexpectedReport(x.value) || (IsUnterminatedReport(x.value) && rest == [])
    ensures ScannerReports(OptionToSeq(x) + rest)
  {
    if x.Some? {
      var d := [x.value] + rest;
      assert d[0] == x.value && d[1..] == rest;
      assert OptionToSeq(x) + rest == d;
    } else {
      assert OptionToSeq(x) + rest == rest;
    }
  }

  /** A source that opens a string and never closes it, on one line: one
      report at line 1 and no token but the end of input. */
  lemma UnterminatedLine(src: string, toFloat: string -> Number)
    requires |src| >= 1 && src[0] == '"'
    requires forall k :: 1 <= k < |src| ==> src[k] != '"' && src[k] != '\n'
    ensures Scan(src, toFloat).tokens == [Token(Eof, "", Nil, 1)]
    ensures Scan(src, toFloat).diags == [Diagnostic(1, "", UnterminatedString)]
  {
    RunEndRun(src, 1, NotQuote);
    NoLineBreaks(src, 1, |src|);
    UnterminatedEnds(src, 0, 1, toFloat);
  }

  /** The input `"abc`. */
  lemma UnterminatedExample(toFloat: string -> Number)
    ensures Scan("\"abc", toFloat).tokens == [Token(Eof, "", Nil, 1)]
    ensures Scan("\"abc", toFloat).diags == [Diagnostic(1, "", UnterminatedString)]
  {
    UnterminatedLine("\"abc", toFloat);
  }

  /** An unexpected character is reported and skipped; the parenthesis
      after it is still scanned. */
  lemma UnexpectedExample(toFloat: string -> Number)
    ensures Scan("@(", toFloat).tokens == [Token(LeftParen, "(", Nil, 1), Token(Eof, "", Nil, 1)]
    ensures Scan("@(", toFloat).diags == [Diagnostic(1, "", UnexpectedCharacter)]
  {
    var src := "@(";
    UnexpectedContinues(src, 0, 1, toFloat);
    assert src[1..2] == "(";
  }
}
