# losos expression front end in Dafny

losos is a Python implementation of the expression subset of the Lox
language. A source string goes through four stages:

- the **scanner** (`losos/scanner.py`) turns it into tokens, reporting
  unexpected characters and unterminated strings;
- the recursive-descent **parser** (`losos/parser.py`) builds one expression
  tree over six precedence levels: equality, comparison, term, factor, unary
  and primary;
- the **interpreter** (`losos/interpreter.py`) evaluates the tree to a
  value or to a runtime error;
- the **AST printer** (`losos/astprinter.py`) renders the tree in
  Lisp-like prefix form.

All diagnostics go through one shared **reporter** (`losos/reporter.py`).
It formats them and remembers whether any error happened.

The model keeps the source's form:

- The scanner, parser and reporter are classes whose fields the methods
  update in place: cursor positions, the token list and the error flag.
  - Their loops keep the source's `while` and `for` form, with invariants.
  - Each method is proved to compute a pure function: `Lexical.ScanFrom` for
    the scanner, `Grammar.ParseLevel` for the parser.
  - The properties of the language are proved about those functions.
- The interpreter, which is pure, becomes the function `Evaluation.Evaluate`.
  Python exceptions become `Result` values.
- The printer keeps its visitor method and its accumulating loop
  (`Printing.Print`, `Printing.Parenthesize`). They are proved equal to the
  function `Printing.Show`.
- Diagnostics written to standard error are kept in a ghost `log` of lines
  on the reporter. The model can therefore state exactly which lines each
  operation writes.

Modules:

| file | module | models |
|---|---|---|
| wrappers.dfy | Wrappers | Option and Result |
| tokens.dfy | Tokens | tokens, token kinds, runtime values |
| expr.dfy | Exprs | the expression tree |
| reporter.dfy | Reporting | the error reporter |
| lexical.dfy | Lexical | the scanner as a function, and what it guarantees |
| scanner.dfy | Scanning | the scanner class |
| grammar.dfy | Grammar | the grammar as functions over a token list and a cursor |
| parser.dfy | Parsing | the parser class |
| precedence.dfy | Precedence | round trip: token rendering of a tree, then parsing |
| parse_facts.dfy | ParseFacts | concrete parses, error cases, scanner-to-parser fit |
| interpreter.dfy | Evaluation | the evaluator |
| astprinter.dfy | Printing | the AST printer |

Floating point is not modelled bit by bit. `Tokens.Number` is an
uninterpreted type with equality. The float operations arrive as
parameters:

- the scanner's text-to-float conversion `toFloat`;
- the interpreter's arithmetic, comparisons, equality, the constants 0.0 and
  1.0, and `str` on a float, collected in `Evaluation.NumOps`;
- the printer's float-to-text function `numText`.

Every property here therefore holds whatever those operations do.

Where the Lox language's documented behaviour and the losos code differ,
the model follows the code:

- **Equality.** `==` uses Python equality after the nil checks. A boolean
  therefore equals the number 1.0 or 0.0 (`true == 1` is true). Lox
  documents no coercion. See `Evaluation.EqualityCases`.
- **Displayed booleans.** Booleans are displayed as `True` and `False`,
  because the code uses Python's `str`. See `Evaluation.StringifyCases` and
  `Printing.ShowLiteral`.
- **Division by zero.** It raises Python's `ZeroDivisionError`, which is not
  the language's runtime error. The model has a separate outcome for it,
  `Evaluation.Raised.DivisionByZero`. The zero test on the divisor is the
  float equality in `NumOps`.
- **Identifiers.** An identifier may not contain `_`. The letter test is
  `a`–`z` and `A`–`Z` only.
- **Synchronisation.** The parser's `_synchronize` is defined but never
  called. After the first parse error, `parse` returns no tree.

## Model

| member | source | states |
|---|---|---|
| Reporting.NatToString | losos/reporter.py:13 | the line number is written in decimal digits with no leading zero, and 0 as "0" |
| Reporting.NatToStringRoundTrip | losos/reporter.py:13 | the decimal line number written into a diagnostic reads back as that number |
| Reporting.TokenDiagnostic | losos/reporter.py:39-44 | the full line for a token-keyed error: "[line N] Error at end: <message>" at end of input, otherwise "[line N] Error at '<lexeme>': <message>" |
| Reporting.Reporter.constructor | losos/reporter.py:9-10 | a new reporter has no error and has written nothing |
| Reporting.Reporter.Report | losos/reporter.py:12-14 | appends exactly one diagnostic line "[line N] Error<where>: <message>" and sets the error flag |
| Reporting.Reporter.Clear | losos/reporter.py:16-17 | resets the flag; output already written stays |
| Reporting.Reporter.HadError | losos/reporter.py:19-20 | returns the flag |
| Reporting.Reporter.AsBool | losos/reporter.py:22-23 | truth value of the reporter is the flag |
| Reporting.Reporter.ErrorAtLine | losos/reporter.py:35-37 | writes "[line N] Error: message" with no location and sets the flag |
| Reporting.Reporter.ErrorAtToken | losos/reporter.py:39-44 | writes the diagnostic at the token's line with its location and sets the flag |
| Reporting.FlagLifecycle | losos/reporter.py:12-17 | after two reports and a clear, the flag is down and both lines remain, in order; a second clear changes nothing |
| Lexical.KeywordKind | losos/scanner.py:11-28 | only an identifier-shaped word can be reserved, and it maps to a keyword kind |
| Lexical.RunEndRun | losos/scanner.py:126-127 | the run scanner stops at the first character outside the class, or at the end of the source |
| Lexical.NumberEndRuns | losos/scanner.py:137-144 | a number is a digit run, followed by '.' and a second digit run only when a digit follows the '.' |
| Lexical.ScanStepOk | losos/scanner.py:47-123 | one scanning step consumes at least one character and counts exactly the newlines it consumes; it emits at most one token, whose lexeme is the consumed text at the step's line and never end of input; it never both emits and reports |
| Lexical.ScanStepShape | losos/scanner.py:47-123 | every token one step emits is well-shaped for its kind and maximal: the next character could not have extended it |
| Lexical.PunctuationShape | losos/scanner.py:50-78 | a single-character token is that character with its kind |
| Lexical.OperatorShape | losos/scanner.py:80-98 | '!', '=', '<', '>' always emit an operator token; a one-character operator is never followed by '=', so a following '=' is always taken in |
| Lexical.SlashShape | losos/scanner.py:100-105 | a slash token is the single '/' and is never followed by another '/', which would start a comment |
| Lexical.StringShape | losos/scanner.py:150-165 | a string token's lexeme is its literal enclosed in quotes, and the literal holds no quote |
| Lexical.NumberShape | losos/scanner.py:137-148 | a number token is a maximal digits[.digits] lexeme whose literal is the float of its text |
| Lexical.IdentifierShape | losos/scanner.py:125-135 | a word is a maximal alphanumeric run, a keyword kind when reserved and an identifier otherwise |
| Lexical.ScanFromEndsWithEof | losos/scanner.py:38-45 | the token list ends with exactly one end-of-input token, at the line after the last newline |
| Lexical.ScanFromSlices | losos/scanner.py:38-45 | every token's lexeme is a slice of the source; slices come in source order; a token's line counts the newlines before its end |
| Lexical.ScanFromShapes | losos/scanner.py:38-45 | every token of a scan is well-shaped and maximal |
| Lexical.ScanStepReports | losos/scanner.py:47-123 | a step reports exactly on a character that starts no lexeme ("Unexpected character." at the current line, one character consumed) or on a string the text ends inside ("Unterminated string." at the last line, the rest consumed); neither adds a token |
| Lexical.UnexpectedContinues | losos/scanner.py:38-41 | after an unexpected character scanning goes on from the next one: the same tokens, with the report first |
| Lexical.UnterminatedEnds | losos/scanner.py:150-158 | an unterminated string ends the scan: its report is the last, and only the end-of-input token follows |
| Lexical.ScanFromDiagnostics | losos/scanner.py:38-45 | a whole scan reports only those two errors, and "Unterminated string." only as the last report |
| Lexical.UnterminatedLine | losos/scanner.py:150-158 | a source that opens a string on its first line and never closes it gives exactly one "Unterminated string." report at line 1 and only the end-of-input token |
| Lexical.UnterminatedExample | losos/scanner.py:150-158 | the source `"abc` gives one "Unterminated string." report at line 1 and only the end-of-input token |
| Lexical.UnexpectedExample | losos/scanner.py:38-45 | the source `@(` reports "Unexpected character." at line 1 and still yields the '(' token and end of input |
| Scanning.Scanner.constructor | losos/scanner.py:30-36 | starts at offset 0, on line 1, with no tokens |
| Scanning.Scanner.Peek | losos/scanner.py:183-194 | the character under the cursor, or none at the end |
| Scanning.Scanner.PeekNext | losos/scanner.py:196-202 | the character after the cursor, or none past the end |
| Scanning.Scanner.Advance | losos/scanner.py:219-225 | returns the current character and moves one place; nothing else changes |
| Scanning.Scanner.Match | losos/scanner.py:167-181 | consumes the character exactly when it is the expected one |
| Scanning.Scanner.AddToken | losos/scanner.py:227-229 | appends one token whose lexeme is the slice from start to cursor, on the current line |
| Scanning.Scanner.AdvanceWhile | losos/scanner.py:126-127 | the character loops leave the cursor at the end of the run |
| Scanning.Scanner.SkipStringBody | losos/scanner.py:151-154 | moves to the closing quote or the end, counting every newline passed |
| Scanning.Scanner.ScanIdentifier | losos/scanner.py:125-135 | performs exactly the identifier step of the scanning function |
| Scanning.Scanner.ScanNumber | losos/scanner.py:137-148 | performs exactly the number step of the scanning function |
| Scanning.Scanner.ScanString | losos/scanner.py:150-165 | performs exactly the string step, including the error report |
| Scanning.Scanner.ScanToken | losos/scanner.py:47-123 | performs exactly one step of the scanning function: tokens, diagnostics, cursor and line |
| Scanning.Scanner.ScanNext | losos/scanner.py:39-41 | one loop iteration keeps the rest of the scan equal to what remains of the scanning function |
| Scanning.Scanner.ScanTokens | losos/scanner.py:38-45 | the tokens returned and the diagnostics written are exactly those of the scanning function from the cursor |
| Scanning.ScanSource | losos/scanner.py:30-45 | scanning a whole source yields exactly `Scan(source)` and raises the error flag exactly when it reported something |
| Grammar.Operators | losos/parser.py:29-72 | each binary level matches exactly the operator kinds of that level |
| Grammar.OperatorsMatch | losos/parser.py:102-107 | `_match` over a level's operators succeeds exactly at an operator of that level, never at end of input |
| Grammar.NotLast | losos/parser.py:119-125 | the cursor never moves past the end-of-input token |
| Grammar.ParseLevel | losos/parser.py:26-80 | a successful parse consumes at least one token and stops inside the token list |
| Grammar.Fold | losos/parser.py:29-72 | the operator loop of a binary level never moves the cursor back or past the end |
| Grammar.Primary | losos/parser.py:82-100 | a literal or a group consumes at least one token |
| Grammar.Group | losos/parser.py:95-98 | a parsed group is a grouping node whose last consumed token is its ')', and the cursor stays within the list |
| Grammar.ParseErrors | losos/parser.py:20-24 | parse reports at most one error, and reports none exactly when it returns a tree |
| Parsing.Parser.constructor | losos/parser.py:14-18 | the cursor starts on the first token |
| Parsing.Parser.Advance | losos/parser.py:119-122 | moves past the current token unless it is end of input, and returns the token moved past (the previous one at the end) |
| Parsing.Parser.Match | losos/parser.py:102-107 | consumes one token exactly when it is one of the given kinds and not end of input |
| Parsing.Parser.MatchKind | losos/parser.py:83-95 | the single-kind `_match` calls of `_primary` (FALSE, TRUE, NIL, LEFT_PAREN): consumes one token exactly when it has that kind and is not end of input |
| Parsing.Parser.MatchUnary | losos/parser.py:75 | consumes a '!' or '-' and nothing else |
| Parsing.Parser.MatchOperator | losos/parser.py:32 | consumes an operator of the level and nothing else |
| Parsing.Parser.Error | losos/parser.py:133-135 | reports the fault at its token and returns it |
| Parsing.Parser.Consume | losos/parser.py:109-112 | returns the expected token and moves past it, or reports the message at the token found |
| Parsing.Parser.Parse | losos/parser.py:20-24 | returns the grammar's tree and cursor, or no tree and exactly one diagnostic |
| Parsing.Parser.Expression | losos/parser.py:26-27 | computes the equality level of the grammar |
| Parsing.Parser.BinaryLevel | losos/parser.py:29-72 | each binary level computes its grammar level: operand, then left fold |
| Parsing.Parser.Operand | losos/parser.py:30 | the operand of a binary level is the next tighter level and consumes input |
| Parsing.Parser.FoldOperators | losos/parser.py:32-35 | the while loop builds the left-nested tree of the grammar's fold |
| Parsing.Parser.FoldNext | losos/parser.py:33-35 | one iteration of the loop: the operator, the right operand and the new left side |
| Parsing.Parser.Unary | losos/parser.py:74-80 | prefix operators nest to the right, down to a primary |
| Parsing.Parser.Primary | losos/parser.py:82-100 | a literal, a group, or "Expect expression." at the current token |
| Parsing.Parser.MatchLiteral | losos/parser.py:83-93 | false, true and nil by kind; numbers and strings carry the scanned literal |
| Parsing.Parser.Group | losos/parser.py:95-98 | an expression and its ')', or "Expect ')' after expression." |
| Parsing.Parser.Synchronize | losos/parser.py:137-156 | skips to the first point after a ';', before a statement keyword, or at end of input |
| Parsing.ParseTokens | losos/parser.py:14-24 | parsing a token list gives the grammar's tree; writes the grammar's diagnostics; raises the flag exactly on failure |
| Precedence.ParseUnparse | losos/parser.py:26-100 | a tree whose precedence fits the level, rendered as tokens, parses back to the same tree and stops after it |
| Precedence.BinaryUnparse | losos/parser.py:29-72 | a binary level parses a rendered tree back to that tree |
| Precedence.ParseSpine | losos/parser.py:29-72 | a left spine of operators of one level is rebuilt left-nested by the loop |
| Precedence.SpineBinary | losos/parser.py:29-72 | the last operator of a spine becomes the root, with the whole prefix as its left side |
| Precedence.RightOperand | losos/parser.py:32-35 | the right operand of an operator is parsed one level tighter |
| Precedence.FoldStop | losos/parser.py:32 | the loop stops at a token that is not an operator of its level |
| Precedence.FoldStep | losos/parser.py:32-35 | one loop step makes the expression so far the left side of a new binary node |
| Precedence.UnaryUnparse | losos/parser.py:74-80 | the unary level parses a rendered unary-or-tighter tree back |
| Precedence.PrefixUnparse | losos/parser.py:74-78 | a prefix operator followed by a rendered operand parses to the unary node |
| Precedence.PrimaryUnparse | losos/parser.py:82-98 | a rendered literal or group parses back |
| Precedence.ParseGrouping | losos/parser.py:95-98 | a parenthesised rendering parses to the grouping node |
| Precedence.UnparseNoEof | losos/parser.py:124-125 | a rendered tree contains no end-of-input token |
| Precedence.ParseSound | losos/parser.py:26-100 | every tree the parser builds respects precedence; every failure is one of the two parser messages |
| Precedence.FoldSound | losos/parser.py:29-72 | the loop keeps the tree well nested for its level |
| Precedence.PrimarySound | losos/parser.py:82-100 | a primary is well nested or fails with one of the two messages |
| Precedence.ParsePrefix | losos/parser.py:20-24 | parse returns any well-nested tree from its rendering, followed by any tokens that do not start with a binary operator |
| ParseFacts.PrimaryFailureUnwinds | losos/parser.py:74-100 | a failure in a primary propagates unchanged through every level above it |
| ParseFacts.NoExpressionHere | losos/parser.py:100 | a token that cannot start an expression fails with "Expect expression." at that token |
| ParseFacts.EmptyInput | losos/parser.py:100 | empty input reports "Expect expression." at end |
| ParseFacts.StrayRightParen | losos/parser.py:100 | a lone ')' reports "Expect expression." at ')' |
| ParseFacts.UnclosedGroup | losos/parser.py:95-98 | a '(' without ')' reports "Expect ')' after expression." at end |
| ParseFacts.LeftAssociative | losos/parser.py:54-62 | a - b - c parses as (a - b) - c |
| ParseFacts.TighterOperatorFirst | losos/parser.py:54-72 | a + b * c parses as a + (b * c) |
| ParseFacts.UnaryNesting | losos/parser.py:74-80 | !-x nests right to left; -x * y applies the '-' to x only |
| ParseFacts.TrailingTokensIgnored | losos/parser.py:20-27 | in `1 2` the second number is neither parsed nor reported: parse returns the literal 1 with no diagnostic (the general case is `Precedence.ParsePrefix`) |
| ParseFacts.ScannedTokensParse | losos/scanner.py:38-45 | every scanner output ends with end of input and has it nowhere else, as the parser requires |
| Evaluation.Truthiness | losos/interpreter.py:55-60 | only nil and false are falsey; numbers and strings, even empty, are truthy |
| Evaluation.BangNegatesTruthiness | losos/interpreter.py:35-36 | '!' never fails on its own and yields the negated truthiness |
| Evaluation.NegateNeedsNumber | losos/interpreter.py:37-47 | unary '-' gives the float negation of a number and fails on anything else with "Operand must be a number." at the operator |
| Evaluation.NumericOperands | losos/interpreter.py:93-130 | the orderings and - / * fail with "Operands must be numbers." unless both operands are numbers; on numbers `>`, `>=`, `<`, `<=`, `-`, `*` apply their own float operation to (left, right), and `/` divides left by right or raises ZeroDivisionError when right equals zero |
| Evaluation.NumericApply | losos/interpreter.py:93-130 | the same operator-by-operator meaning for the operator applied to two evaluated operands |
| Evaluation.PlusOperands | losos/interpreter.py:113-122 | '+' adds two numbers, concatenates two strings, and otherwise fails with "Operands must be two numbers or two strings." |
| Evaluation.LeftErrorFirst | losos/interpreter.py:89-91 | the left operand is evaluated first, so its error wins |
| Evaluation.NotEqualNegatesEqual | losos/interpreter.py:132-136 | '!=' always gives the opposite of '==' |
| Evaluation.EqualityCases | losos/interpreter.py:62-67 | nil equals only nil; strings compare by content; true equals 1.0 and false equals 0.0; equality is symmetric when float equality is |
| Evaluation.ErrorSite | losos/interpreter.py:32-139 | a runtime error always names an operator token of the tree, with the message of that operator's kind |
| Evaluation.OnlyNilIsNil | losos/interpreter.py:28-42 | a well-formed tree evaluates to nil only when it is a nil literal, possibly grouped |
| Evaluation.GroupingTransparent | losos/interpreter.py:81-83 | removing every grouping leaves the value unchanged |
| Evaluation.StripPointZero | losos/interpreter.py:73-77 | drops a trailing ".0" and changes the text exactly when it ends in ".0" |
| Evaluation.StringifyCases | losos/interpreter.py:69-79 | nil is "nil", booleans are "True"/"False", strings are themselves, numbers are their text without a trailing ".0" |
| Evaluation.StringifyAgreesWithPrinter | losos/interpreter.py:69-79 | display text and printer text agree except for a number's trailing ".0" |
| Evaluation.EvaluationExamples | losos/interpreter.py:32-136 | !nil is true; !n is false; "ab" + "cd" is "abcd"; number + string fails at the '+'; 3.0 displays as 3 |
| Printing.Print | losos/astprinter.py:12-31 | the visitor returns the prefix rendering of the tree |
| Printing.Parenthesize | losos/astprinter.py:33-44 | the accumulating loop yields "(" name, a space before each child's text, then ")" |
| Printing.ShowAll | losos/astprinter.py:38-40 | one text per child, in order |
| Printing.ParenthesizedSmall | losos/astprinter.py:33-44 | with one or two children the output is "(name a)" or "(name a b)" |
| Printing.ShowBinary | losos/astprinter.py:16-17 | a binary node prints as "(op left right)" |
| Printing.ShowUnaryAndGrouping | losos/astprinter.py:19-31 | a grouping prints as "(group x)" and a unary node as "(op x)" |
| Printing.ShowLiteral | losos/astprinter.py:23-27 | nil is "nil", booleans "True"/"False", numbers their float text, strings themselves |
| Printing.ParenthesizedCount | losos/astprinter.py:33-44 | one parenthesis of each kind is added around the children's texts |
| Printing.ShowBalanced | losos/astprinter.py:12-44 | with parenthesis-free operators and literals, output has one '(' and one ')' per non-literal node |
| Printing.BinaryBalanced | losos/astprinter.py:16-17 | the same count for a binary node |

## Left out

- The command-line driver and the REPL (`losos/losos.py`, `losos/__main__.py`) are not part of this model. They are file and console I/O.
- Writing to standard error (`eprint` in `losos/helpers.py`) is modelled as appending to the reporter's ghost `log`. The character helpers in `losos/helpers.py` become `Option<char>`.
- Floating point: parsing, arithmetic, comparison, equality and `str` of a float are parameters (`toFloat`, `NumOps`, `numText`). IEEE 754 behaviour such as NaN, rounding and overflow is not modelled.
- `Interpreter.interpret` is left out. It calls `reporter.runtime_error`, which the reporter does not define, and it prints the result.
- `Token.__str__` is left out. It is debugging output that no other code uses.
- The `Reporter.error` fallback that raises `NotImplementedError` for an unknown argument type is not modelled. The two typed overloads are separate methods, so the fallback cannot be reached.
- Python's recursion limit on deeply nested input is not modelled. Parsing and evaluation may nest to any depth.
- Exceptions become values. The parser's `_ParseError` becomes `Failure(Fault)` in the grammar and `None` in the class. `LososRuntimeError` becomes `Raised.LoxError` and `ZeroDivisionError` becomes `Raised.DivisionByZero`.
- Some helpers are lifted out of inline code so that their loops can be specified; they do not exist in the source: `Scanning.Scanner.AdvanceWhile`, `SkipStringBody`, `ScanNext`, `Parsing.Parser.MatchKind`, `MatchUnary`, `MatchOperator`, `Operand`, `FoldNext`, `MatchLiteral`, `Group`, `Evaluation.Numeric`, `ApplyUnary`, `ApplyBinary`. `Parsing.Parser.BinaryLevel` models the four methods `_equality`, `_comparison`, `_term` and `_factor`. They differ only in their operator list.
- The interpreter's unreachable fallbacks that return `None` for an unknown operator are kept as `Success(Nil)`. The parser never builds such a node.
- Evaluation.EqualityCases: symmetry is proved only under the assumption that the supplied float equality is symmetric.
