/** The scanner of losos/scanner.py as the object it is: a cursor over the
    source text that appends tokens to its list and reports lexical errors
    to a Reporter. Every method is proved to do what the functions of
    module Lexical say, so the properties proved there hold of the tokens
    this class produces. */
module Scanning {
  import opened Wrappers
  import opened Tokens
  import opened Reporting
  import opened Lexical

  class Scanner {
    const source: string
    var tokens: seq<Token>
    /** First character of the lexeme being scanned. */
    var start: nat
    /** The character about to be consumed. */
    var current: nat
    var line: int
    const reporter: Reporter
    /** Python's `float` applied to a number lexeme. */
    const toFloat: string -> Number

    /** The cursor never passes the end of the text. */
    predicate Valid()
      reads this
    {
      start <= current <= |source|
    }

    constructor (source: string, reporter: Reporter, toFloat: string -> Number)
      ensures Valid()
      ensures this.source == source && this.reporter == reporter && this.toFloat == toFloat
      ensures tokens == [] && start == 0 && current == 0 && line == 1
    {
      this.source := source;
      this.reporter := reporter;
      this.toFloat := toFloat;
      tokens := [];
      start := 0;
      current := 0;
      line := 1;
    }

    predicate IsAtEnd()
      reads this
    {
      current >= |source|
    }

    /** The character under the cursor; none at the end of the text. */
    function Peek(): (c: Option<char>)
      reads this
      ensures c.Some? <==> current < |source|
      ensures c.Some? ==> c.value == source[current]
    {
      if IsAtEnd() then None else Some(source[current])
    }

    /** The character after the one under the cursor, if there is one. */
    function PeekNext(): (c: Option<char>)
      reads this
      ensures c.Some? <==> current + 1 < |source|
      ensures c.Some? ==> c.value == source[current + 1]
    {
      if current + 1 >= |source| then None else Some(source[current + 1])
    }

    /** Consume one character and return it. */
    method Advance() returns (c: char)
      requires current < |source|
      modifies this
      ensures c == source[old(current)] && current == old(current) + 1
      ensures tokens == old(tokens) && start == old(start) && line == old(line)
    {
      c := source[current];
      current := current + 1;
    }

    /** Consume the character under the cursor exactly when it is `expected`. */
    method Match(expected: char) returns (matched: bool)
      modifies this
      ensures matched <==> old(current) < |source| && source[old(current)] == expected
      ensures current == old(current) + (if matched then 1 else 0)
      ensures tokens == old(tokens) && start == old(start) && line == old(line)
    {
      if IsAtEnd() {
        return false;
      }
      if source[current] != expected {
        return false;
      }
      current := current + 1;
      return true;
    }

    /** Append a token whose lexeme is the text from `start` to the cursor. */
    method AddToken(kind: TokenType, literal: Value)
      requires start <= current <= |source|
      modifies this
      ensures start == old(start) && current == old(current) && line == old(line)
      ensures tokens == old(tokens) + [Token(kind, source[start..current], literal, line)]
    {
      tokens := tokens + [Token(kind, source[start..current], literal, line)];
    }

    /** Consume characters for as long as the one under the cursor belongs
        to the run: the loops of an identifier, of a number's two digit runs
        and of a comment. */
    method AdvanceWhile(inRun: char -> bool)
      requires current <= |source|
      modifies this
      ensures current == RunEnd(source, old(current), inRun)
      ensures tokens == old(tokens) && start == old(start) && line == old(line)
    {
      ghost var e := RunEnd(source, current, inRun);
      RunEndRun(source, current, inRun);
      while Peek().Some? && inRun(Peek().value)
        invariant old(current) <= current <= e
        invariant tokens == old(tokens) && start == old(start) && line == old(line)
        decreases |source| - current
      {
        var _ := Advance();
      }
    }

    /** The rest of an identifier or reserved word after its first letter. */
    method ScanIdentifier()
      requires start < |source| && current == start + 1 && IsAlpha(source[start])
      modifies this
      ensures var st := IdentifierStep(source, old(start), old(line));
        tokens == old(tokens) + OptionToSeq(st.emit) && current == st.next && line == st.line
      ensures start == old(start)
    {
      AdvanceWhile(IsAlphaNumeric);
      var text := source[start..current];
      var kind := Identifier;
      var keyword := KeywordKind(text);
      if keyword.Some? {
        kind := keyword.value;
      }
      AddToken(kind, Nil);
    }

    /** The rest of a number after its first digit: digits, then a '.' and
        digits only when a digit follows the '.'. */
    method ScanNumber()
      requires start < |source| && current == start + 1 && IsDigit(source[start])
      modifies this
      ensures var st := NumberStep(source, old(start), old(line), toFloat);
        tokens == old(tokens) + OptionToSeq(st.emit) && current == st.next && line == st.line
      ensures start == old(start)
    {
      AdvanceWhile(IsDigit);
      if Peek() == Some('.') && PeekNext().Some? && IsDigit(PeekNext().value) {
        var _ := Advance();
        AdvanceWhile(IsDigit);
      }
      assert current == NumberEnd(source, start + 1);
      AddToken(NumberLit, Num(toFloat(source[start..current])));
    }

    /** The characters of a string literal: up to the closing quote or the
        end of the text, counting the line breaks passed over. */
    method SkipStringBody()
      requires start < current <= |source|
      modifies this
      ensures current == RunEnd(source, old(current), NotQuote)
      ensures line == old(line) + LineBreaks(source, old(current), current)
      ensures tokens == old(tokens) && start == old(start)
    {
      ghost var e := RunEnd(source, current, NotQuote);
      RunEndRun(source, current, NotQuote);
      while Peek() != Some('"') && !IsAtEnd()
        invariant old(current) <= current <= e && start == old(start)
        invariant tokens == old(tokens)
        invariant line == old(line) + LineBreaks(source, old(current), current)
        decreases |source| - current
      {
        if Peek() == Some('\n') {
          line := line + 1;
        }
        var _ := Advance();
      }
    }

    /** The rest of a string literal after its opening quote. */
    method ScanString()
      requires start < |source| && current == start + 1 && source[start] == '"'
      modifies this, reporter
      ensures var st := StringStep(source, old(start), old(line));
        tokens == old(tokens) + OptionToSeq(st.emit) && current == st.next && line == st.line &&
        reporter.log == old(reporter.log) + OptionToSeq(st.diag) &&
        reporter.hadError == (old(reporter.hadError) || st.diag.Some?)
      ensures start == old(start)
    {
      SkipStringBody();
      if IsAtEnd() {
        reporter.ErrorAtLine(line, "Unterminated string.");
        return;
      }
      var _ := Advance();
      var value := source[start + 1..current - 1];
      AddToken(StringLit, Str(value));
    }

    /** Scan one lexeme starting at `start`, the cursor. */
    method ScanToken()
      requires start == current < |source|
      modifies this, reporter
      ensures var st := ScanStep(source, old(current), old(line), toFloat);
        tokens == old(tokens) + OptionToSeq(st.emit) && current == st.next && line == st.line &&
        reporter.log == old(reporter.log) + OptionToSeq(st.diag) &&
        reporter.hadError == (old(reporter.hadError) || st.diag.Some?)
      ensures start == old(start)
    {
      var c := Advance();
      var single := SingleCharKind(c);
      var pair := OneOrTwoKinds(c);
      if single.Some? {
        AddToken(single.value, Nil);
      } else if pair.Some? {
        var twoChars := Match('=');
        AddToken(if twoChars then pair.value.1 else pair.value.0, Nil);
      } else if c == '/' {
        var comment := Match('/');
        if comment {
          AdvanceWhile(NotNewline);
        } else {
          AddToken(Slash, Nil);
        }
      } else if c == ' ' || c == '\r' || c == '\t' {
      } else if c == '\n' {
        line := line + 1;
      } else if c == '"' {
        ScanString();
      } else if IsDigit(c) {
        ScanNumber();
      } else if IsAlpha(c) {
        ScanIdentifier();
      } else {
        reporter.ErrorAtLine(line, UnexpectedCharacter);
      }
    }

    /** One turn of the loop of ScanTokens: start a lexeme at the cursor and
        scan it. What is still to come shrinks by exactly what was added. */
    method ScanNext()
      requires start <= current < |source|
      modifies this, reporter
      ensures start <= current <= |source| && old(current) < current
      ensures tokens + ScanFrom(source, current, line, toFloat).tokens ==
              old(tokens) + ScanFrom(source, old(current), old(line), toFloat).tokens
      ensures reporter.log + ScanFrom(source, current, line, toFloat).diags ==
              old(reporter.log) + ScanFrom(source, old(current), old(line), toFloat).diags
      ensures |old(reporter.log)| <= |reporter.log|
      ensures reporter.hadError == (old(reporter.hadError) || |reporter.log| > |old(reporter.log)|)
    {
      start := current;
      ScanToken();
      ScanStepOk(source, old(current), old(line), toFloat);
      AccumulateStep(ScanFrom(source, old(current), old(line), toFloat), old(current),
                     ScanStep(source, old(current), old(line), toFloat),
                     ScanFrom(source, current, line, toFloat), old(tokens), old(reporter.log));
    }

    /** Scan the rest of the text, then append the end-of-input token. */
    method ScanTokens() returns (result: seq<Token>)
      requires Valid()
      modifies this, reporter
      ensures Valid() && current == |source|
      ensures var r := ScanFrom(source, old(current), old(line), toFloat);
        tokens == old(tokens) + r.tokens && result == tokens &&
        reporter.log == old(reporter.log) + r.diags &&
        reporter.hadError == (old(reporter.hadError) || r.diags != [])
    {
      ghost var r := ScanFrom(source, current, line, toFloat);
      while !IsAtEnd()
        invariant Valid()
        invariant tokens + ScanFrom(source, current, line, toFloat).tokens == old(tokens) + r.tokens
        invariant reporter.log + ScanFrom(source, current, line, toFloat).diags == old(reporter.log) + r.diags
        invariant |old(reporter.log)| <= |reporter.log|
        invariant reporter.hadError == (old(reporter.hadError) || |reporter.log| > |old(reporter.log)|)
        decreases |source| - current
      {
        ScanNext();
      }
      tokens := tokens + [Token(Eof, "", Nil, line)];
      result := tokens;
    }
  }

  /** One loop step of ScanTokens: what was emitted and reported so far,
      then this step, then the rest, is still the whole scan. */
  lemma AccumulateStep(here: Scanned, pos: nat, st: Step, rest: Scanned,
                       before: seq<Token>, logged: seq<string>)
    requires here == Prepend(pos, st, rest)
    ensures (before + OptionToSeq(st.emit)) + rest.tokens == before + here.tokens
    ensures (logged + OptionToSeq(st.diag)) + rest.diags == logged + here.diags
  {
  }

  /** A fresh scanner run over a text: the tokens and diagnostics of Scan. */
  method ScanSource(source: string, reporter: Reporter, toFloat: string -> Number) returns (tokens: seq<Token>)
    modifies reporter
    ensures tokens == Scan(source, toFloat).tokens
    ensures reporter.log == old(reporter.log) + Scan(source, toFloat).diags
    ensures reporter.hadError == (old(reporter.hadError) || Scan(source, toFloat).diags != [])
  {
    var scanner := new Scanner(source, reporter, toFloat);
    tokens := scanner.ScanTokens();
  }
}
