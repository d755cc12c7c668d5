/** Lexical units and the runtime values they carry (losos/token.py,
    losos/tokentype.py). */
module Tokens {

  /** A double-precision number. Its arithmetic, ordering, equality and
      text rendering are left uninterpreted: they are supplied as
      parameters wherever the model needs them. */
  type Number(==)

  /** The runtime values of the language: Python's None, bool, float and
      str. A token's absent literal is `Nil`, as Python uses None for both. */
  datatype Value = Nil | Bool(b: bool) | Num(n: Number) | Str(s: string)

  /** Every token kind the scanner and the parser mention. */
  datatype TokenType =
    // single-character punctuation
    | LeftParen | RightParen | LeftBrace | RightBrace
    | Comma | Dot | Minus | Plus | Semicolon | Slash | Star
    // one- or two-character operators
    | Bang | BangEqual | Equal | EqualEqual
    | Greater | GreaterEqual | Less | LessEqual
    // literals
    | Identifier | StringLit | NumberLit
    // reserved words
    | KwAnd | KwClass | KwElse | KwFalse | KwFor | KwFun | KwIf | KwNil
    | KwOr | KwPrint | KwReturn | KwSuper | KwThis | KwTrue | KwVar | KwWhile
    // end of input
    | Eof

  datatype Token = Token(kind: TokenType, lexeme: string, literal: Value, line: int)
}
