/** The diagnostic sink (losos/reporter.py): a flag that every report sets
    and `clear` resets, and the formatted lines it writes to standard error,
    recorded here in a ghost log. */
module Reporting {
  import opened Tokens

  /** Decimal text of a natural number, as Python's `str` writes it. */
  function NatToString(n: nat): (s: string)
    ensures |s| >= 1
    ensures forall i :: 0 <= i < |s| ==> '0' <= s[i] <= '9'
    ensures n == 0 ==> s == "0"
    ensures n > 0 ==> s[0] != '0'
    ensures |s| > 1 ==> s[0] != '0'
  {
    if n < 10 then [DigitChar(n)] else NatToString(n / 10) + [DigitChar(n % 10)]
  }

  function DigitChar(d: nat): (c: char)
    requires d < 10
    ensures '0' <= c <= '9' && c as int - '0' as int == d
  {
    (d + '0' as int) as char
  }

  /** Decimal text of an integer, with a leading '-' when negative. */
  function IntToString(n: int): string
  {
    if n < 0 then "-" + NatToString(-n) else NatToString(n)
  }

  /** The value of a run of decimal digits: the inverse of NatToString. */
  function DigitsValue(s: string): nat
    requires forall i :: 0 <= i < |s| ==> '0' <= s[i] <= '9'
  {
    if s == [] then 0
    else DigitsValue(s[..|s| - 1]) * 10 + (s[|s| - 1] as int - '0' as int)
  }

  lemma {:induction false} NatToStringRoundTrip(n: nat)
    ensures DigitsValue(NatToString(n)) == n
  {
    if n >= 10 {
      var s := NatToString(n);
      assert s[..|s| - 1] == NatToString(n / 10);
      NatToStringRoundTrip(n / 10);
    }
  }

  /** One printed diagnostic: "[line N] Error<where>: <message>". */
  function Diagnostic(line: int, where: string, message: string): string
  {
    "[line " + IntToString(line) + "] Error" + where + ": " + message
  }

  /** The location text of a token-keyed error. */
  function TokenLocation(token: Token): (where: string)
    ensures token.kind == Eof ==> where == " at end"
    ensures token.kind != Eof ==> where == " at '" + token.lexeme + "'"
  {
    if token.kind == Eof then " at end" else " at '" + token.lexeme + "'"
  }

  /** The whole line a token-keyed error writes: " at end" for the end of
      input, otherwise the token's lexeme in single quotes. */
  lemma TokenDiagnostic(token: Token, message: string)
    ensures token.kind == Eof ==>
      Diagnostic(token.line, TokenLocation(token), message) ==
      "[line " + IntToString(token.line) + "] Error at end: " + message
    ensures token.kind != Eof ==>
      Diagnostic(token.line, TokenLocation(token), message) ==
      "[line " + IntToString(token.line) + "] Error at '" + token.lexeme + "': " + message
  {
  }

  class Reporter {
    var hadError: bool
    /** Every line written so far, oldest first. */
    ghost var log: seq<string>

    constructor ()
      ensures !hadError && log == []
    {
      hadError := false;
      log := [];
    }

    /** Writes one diagnostic and marks the run as failed. */
    method Report(line: int, where: string, message: string)
      modifies this
      ensures hadError
      ensures log == old(log) + [Diagnostic(line, where, message)]
    {
      log := log + [Diagnostic(line, where, message)];
      hadError := true;
    }

    /** Resets the flag between inputs; what was written stays written. */
    method Clear()
      modifies this
      ensures !hadError && log == old(log)
    {
      hadError := false;
    }

    method HadError() returns (b: bool)
      ensures b <==> hadError
    {
      b := hadError;
    }

    /** The reporter's truth value, `__bool__` in the source. */
    method AsBool() returns (b: bool)
      ensures b <==> hadError
    {
      b := hadError;
    }

    /** A line-keyed error, as the scanner reports: the location is empty. */
    method ErrorAtLine(line: int, message: string)
      modifies this
      ensures hadError
      ensures log == old(log) + [Diagnostic(line, "", message)]
      ensures log[|log| - 1] == "[line " + IntToString(line) + "] Error: " + message
    {
      Report(line, "", message);
      assert Diagnostic(line, "", message) == "[line " + IntToString(line) + "] Error: " + message;
    }

    /** A token-keyed error, as the parser reports: " at end" for the end of
        input, otherwise the token's lexeme in single quotes. */
    method ErrorAtToken(token: Token, message: string)
      modifies this
      ensures hadError
      ensures log == old(log) + [Diagnostic(token.line, TokenLocation(token), message)]
    {
      Report(token.line, TokenLocation(token), message);
    }
  }

  /** Once set, the flag stays set through any number of further reports and
      is reset only by Clear; Clear twice is Clear once. */
  method FlagLifecycle(r: Reporter, line: int, token: Token)
    modifies r
    ensures !r.hadError
    ensures r.log == old(r.log) + [Diagnostic(line, "", "a"), Diagnostic(token.line, TokenLocation(token), "b")]
  {
    r.ErrorAtLine(line, "a");
    assert r.hadError;
    r.ErrorAtToken(token, "b");
    assert r.hadError;
    r.Clear();
    r.Clear();
  }
}
