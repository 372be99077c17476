# A verified model of the PLC compiler pipeline

This project models a small teaching compiler for a language with
variables, lists and functions. It models the compiler's five stages as they
are written in Java:

- **Lexer.** The lexer turns a source string into tokens. It reads the string
  through a character stream with an index and a token length.
- **Parser.** A recursive-descent parser turns the tokens into a syntax tree. It
  reads them through a token stream.
- **Analyzer.** The analyzer type-checks the tree in a chain of scopes. It
  annotates each expression with its type, variable or function.
- **Interpreter.** The interpreter runs the tree against scopes that hold
  variables and functions. It also provides the built-ins `print`,
  `logarithm` and `converter`.
- **Generator.** The generator writes an analysed tree out as the Java class
  `Main`.

Each stage has two parts:

- A pure description: datatypes and functions, e.g. `LexFrom`, `SourceAt`,
  `AnalyzeSource`, `Exec`, `SourceText`.
- A class with the stage's mutable fields, whose methods do what the Java
  methods do, step by step:
  - `Lexer` has `chars` and `tokens`; `CharStream` has `index` and `length`.
  - `Parser` has a `TokenStream` with its `index`.
  - `Analyzer` has `scope` and `returnType`.
  - `Interpreter` holds the machine state.
  - `Generator` has `writer`.

Each method is proved to leave exactly the state and result that the pure
description gives. Lemmas then state what the description promises:

- lexed tokens tile the input and have the shape of their kind;
- binary expressions associate to the left and respect precedence;
- analysis is idempotent, and the annotations it adds agree with the scope;
- evaluation keeps scopes balanced and follows the language's operator rules;
- `converter` writes the digits of the number in the base;
- generated lists and parameter lists are joined with `", "`.

Modules:

| file | module | models |
|---|---|---|
| `common.dfy` | `Common` | `Result`/`Option`, 32-bit `intValue`, truncating division, decimal text of integers |
| `syntax.dfy` | `Syntax` | tokens, types and their Java names, the syntax tree with its annotation slots |
| `escapes.dfy` | `Escapes` | `replaceEscape` as written, and the escape decoding it is meant to perform |
| `lexer.dfy`, `lexer_props.dfy` | `Lexing`, `LexingProperties` | `Lexer.java` |
| `parser.dfy`, `parser_props.dfy` | `Parsing`, `ParsingProperties` | `Parser.java` |
| `scopes.dfy` | `Scopes` | the analyzer's chain of scopes (the `Scope` class itself is not part of this model) |
| `analyzer.dfy`, `analyzer_class.dfy`, `analyzer_props.dfy` | `Analysis`, `TypeChecker`, `AnalysisProperties` | `Analyzer.java` |
| `interpreter.dfy`, `interpreter_class.dfy`, `interpreter_props.dfy` | `Evaluation`, `Interpreting`, `EvaluationProperties` | `Interpreter.java` |
| `generator.dfy`, `generator_class.dfy`, `generator_props.dfy` | `Generation`, `CodeGeneration`, `GenerationProperties` | `Generator.java` |

The model follows the code as written, including behaviour the authors may
not have meant, except for the four defects listed under "## Findings": the
escape decoding, the check for `main`, the parameter list and the endless
top-level parser loop. For each, an as-written member records what the Java
code does, and the rest of the model uses the corrected definition ("## Left
out" names every member this affects). Behaviour kept as written:

- **Lexer**
  - After a leading `0`, the Java regex `.` accepts any character except a line
    terminator. So `0+5` and `0 5` are each one `DECIMAL` token.
  - A `-` that no digit follows is an error. It is never an operator.
- **Parser**
  - `parseGlobal` throws even after a global parses. So every global makes
    `parseSource` fail.
  - `SWITCH` and `WHILE` statements are unsupported.
  - A `ParseException` carries the offset of the token before the cursor.
  - On a top-level token that is neither `LIST`, `VAR`, `VAL` nor `FUN`
    (`FUN f() DO END x`, or a source starting with `x`), the `parseSource`
    loop consumes nothing and never ends. The model stops there with the
    failure `NoProgress`; `Parsing.TurnAsWritten` records the loop as written
    (see "## Findings").
- **Analyzer**
  - Comparison operators need both operand types to be exactly `Comparable`.
  - A decimal literal is rejected when its `doubleValue()` is infinite or below
    `Double.MIN_VALUE`. That rejects zero and every negative decimal. It also
    rejects positive decimals too small for a `double`, which round to `0.0`,
    and decimals too large for one. The model keeps only the test for a
    positive value (see `Analysis.LiteralType` under "## Left out").
  - The return type checked by `return` is that of the function analysed
    before.
- **Interpreter**
  - `if` evaluates its condition up to four times.
  - A switch runs every case whose value equals the condition.
  - `^` multiplies `intValue()-1` times.
  - `converter` loops forever with base 1 and a positive number.
- **Generator**
  - A global is written with its own name where the type belongs.
  - A literal is written without escapes.
  - The indentation of `newline(k)` is counted from the margin.

Four places where the code evidently does not do what was intended are
listed under "## Findings". Each has a model of the code as written, a lemma
that exhibits the discrepancy, and a corrected definition that the rest of
the model uses.

Java's `/` and `%` on `BigInteger` truncate toward zero. The model writes this
out as `Common.TruncDiv` and `Common.TruncRem`. `intValue()` is
`Common.IntValue`, the 32-bit wrap-around.

## Model

| member | source | states |
|---|---|---|
| `Common.IntValue` | src/main/java/plc/project/Interpreter.java:176 | `BigInteger.intValue()`: the result is a 32-bit integer congruent to the input modulo 2^32, and equal to it when it is already in range |
| `Common.TruncDiv` | src/main/java/plc/project/Interpreter.java:354 | `BigInteger.divide` rounds toward zero: the magnitude of the quotient is the magnitude of the dividend divided by the magnitude of the divisor, and the sign follows the operands' signs |
| `Common.TruncRem` | src/main/java/plc/project/Interpreter.java:55 | the remainder that goes with the truncated quotient: `a == q*b + r`, `|r| < |b|`, and `r` is zero or has the dividend's sign |
| `Common.IntToStringRoundTrip` | src/main/java/plc/project/Parser.java:397 | the decimal text of any integer parses back (as `new BigInteger(text)`) to the same integer |
| `Common.NatToStringValue` | src/main/java/plc/project/Interpreter.java:60 | the digits written for a natural number have that number as their value |
| `Common.NatToString` | src/main/java/plc/project/Interpreter.java:60 | `toString` of a natural number: at least one character, all of them decimal digits |
| `Common.IntToString` | src/main/java/plc/project/Generator.java:238 | `toString` of an integer is never empty |
| `Syntax.TypeNamed` | src/main/java/plc/project/Analyzer.java:63 | `Environment.getType(name)` finds the type whose name is `name`, and finds nothing exactly when no type has that name |
| `Escapes.ReplaceEachWithoutBackslash` | src/main/java/plc/project/Parser.java:382-384 | a series of replacements whose targets all start with a backslash leaves a text without backslashes unchanged |
| `Escapes.ReplaceWithoutBackslash` | src/main/java/plc/project/Parser.java:383 | one `String.replace` whose target starts with a backslash leaves a text without backslashes unchanged |
| `Escapes.EscapedBackslashThenN` | src/main/java/plc/project/Parser.java:372-386 | the text `\\n` (escaped backslash, then `n`) becomes a line feed under `replaceEscape`, but a backslash followed by `n` under the left-to-right decoding |
| `Escapes.Replace` | src/main/java/plc/project/Parser.java:383 | `String.replace` with a replacement no longer than its target never lengthens the text |
| `Escapes.ReplaceEach` | src/main/java/plc/project/Parser.java:382-384 | a series of such replacements never lengthens the text |
| `Escapes.ReplaceEscape` | src/main/java/plc/project/Parser.java:372-386 | (as written) the seven replacements of `replaceEscape`, each of a two-character escape by one character, never lengthen a literal body |
| `Escapes.DecodeEncode` | src/main/java/plc/project/Parser.java:407-410 | the corrected decoding inverts escaping: decoding the escaped form of any text gives back that text |
| `Escapes.DecodeEscapes` | src/main/java/plc/project/Parser.java:372-386 | (corrected) decoding the escapes of a literal body never lengthens it |
| `Escapes.EncodeEscapes` | src/main/java/plc/project/Parser.java:372-386 | escaping a text, the inverse that `DecodeEncode` pairs with the decoding, never shortens it |
| `Escapes.NoBackslashUnchanged` | src/main/java/plc/project/Parser.java:401-409 | a literal body with no backslash is unchanged by both the decoding as written and the corrected one |
| `Escapes.EscapeLetter` | src/main/java/plc/project/Parser.java:374-380 | every character with an escape has an escape letter that decodes back to it |
| `Lexing.CharStream.constructor` | src/main/java/plc/project/Lexer.java:301-303 | a new stream is at index 0 with token length 0 over the given input |
| `Lexing.CharStream.Advance` | src/main/java/plc/project/Lexer.java:313-316 | `advance` moves the index and the token length forward by one |
| `Lexing.CharStream.Skip` | src/main/java/plc/project/Lexer.java:318-320 | `skip` resets the token length and keeps the index |
| `Lexing.CharStream.Emit` | src/main/java/plc/project/Lexer.java:322-326 | `emit` returns the token of the given kind whose text is the input from `index - length` to `index`, at that offset, and resets the length |
| `Lexing.Lexer.constructor` | src/main/java/plc/project/Lexer.java:24-28 | a new lexer has a stream at the start of its input and no tokens |
| `Lexing.Lexer.Lex` | src/main/java/plc/project/Lexer.java:34-47 | `lex` returns the tokens already collected followed by `LexFrom` of the rest of the input, which is either the token list (with the stream at the end of the input) or the index where a token failed |
| `Lexing.Lexer.LexNext` | src/main/java/plc/project/Lexer.java:35-44 | one turn of `lex` skips a whitespace character or adds a token. On success the index advances and (collected tokens ++ lexing of the rest) is unchanged; on failure the failure is that of the whole lexing |
| `Lexing.Lexer.AddToken` | src/main/java/plc/project/Lexer.java:36-38 | lexing the token at a non-whitespace character and adding it keeps (collected tokens ++ lexing of the rest) unchanged, or fails with the lexing's failure |
| `Lexing.LexFromStep` | src/main/java/plc/project/Lexer.java:36-38 | a token lexed at a non-whitespace character comes first, followed by the lexing of the input after it |
| `Lexing.LexFromSkip` | src/main/java/plc/project/Lexer.java:39-42 | a whitespace character contributes no token |
| `Lexing.LexFromFails` | src/main/java/plc/project/Lexer.java:37 | a token that fails makes the whole lexing fail with its index |
| `Lexing.LexTurn` | src/main/java/plc/project/Lexer.java:36-38 | appending a lexed token to the collected tokens keeps (collected ++ lexing of the rest) unchanged |
| `Lexing.Lexer.LexToken` | src/main/java/plc/project/Lexer.java:57-71 | `lexToken` returns `TokenAt` of the input at the index, and on success the index moves past exactly the token's text and the token length is reset |
| `Lexing.TokenAt` | src/main/java/plc/project/Lexer.java:57-71 | a token lexed at offset `i` has offset `i`, non-empty text, and that text is the slice of the input starting at `i` |
| `Lexing.LexFrom` | src/main/java/plc/project/Lexer.java:34-47 | the rest of the input lexes to at most one token per character, or fails at an index inside the rest of the input |
| `Lexing.Lexer.LexIdentifier` | src/main/java/plc/project/Lexer.java:73-77 | `lexIdentifier` consumes the first character and then the longest run of `[A-Za-z0-9_-]`, and emits that slice as an `IDENTIFIER` |
| `Lexing.IdentEnd` | src/main/java/plc/project/Lexer.java:75 | the identifier loop stops at the first character outside `[A-Za-z0-9_-]` or at the end: every character it passes matches, the one it stops at does not |
| `Lexing.DigitsEnd` | src/main/java/plc/project/Lexer.java:84 | `while (match("[0-9]"))` stops at the first non-digit: every character it passes is a digit, the one it stops at is not |
| `Lexing.Lexer.LexNumber` | src/main/java/plc/project/Lexer.java:80-124 | `lexNumber` returns `NumberAt`: an optional `-` then a magnitude, or a `ParseException` at the cursor when no digit follows |
| `Lexing.NumberAt` | src/main/java/plc/project/Lexer.java:80-124 | a number token starts at the cursor, is an `INTEGER` or a `DECIMAL`, and its text is the non-empty slice of the input it covers; a failure is at an index inside the input |
| `Lexing.Lexer.LexMagnitude` | src/main/java/plc/project/Lexer.java:82-101 | after the optional sign, the `0` branch or the `[1-9]` branch, emitting from the token's start, or failing at the current index |
| `Lexing.Lexer.LexDigits` | src/main/java/plc/project/Lexer.java:84 | the digit loop moves the index (and token length) to the end of the digit run |
| `Lexing.Lexer.LexZeroTail` | src/main/java/plc/project/Lexer.java:82-88 | after `0`, any character but a line terminator followed by a digit makes a `DECIMAL` running to the end of the digits; otherwise the token is the `INTEGER` `0` |
| `Lexing.Lexer.LexNonZeroTail` | src/main/java/plc/project/Lexer.java:89-100 | after a non-zero digit, the `.`-digit check and the digit loop end where `NonZeroTail` says, with kind `DECIMAL` if a fraction was read and `INTEGER` otherwise |
| `Lexing.Lexer.LexDigitRun` | src/main/java/plc/project/Lexer.java:94-100 | the loop that checks for a fraction after every digit ends where `WholeDigits` says |
| `Lexing.Lexer.LexFraction` | src/main/java/plc/project/Lexer.java:90-92 | after a point and a digit, the remaining digits are consumed and a `DECIMAL` is emitted |
| `Lexing.ZeroTail` | src/main/java/plc/project/Lexer.java:82-88 | after a leading `0`, the number ends within the input and no earlier than the `0`; its shape is stated by `LexingProperties.MagnitudeShape` |
| `Lexing.NonZeroTail` | src/main/java/plc/project/Lexer.java:89-100 | after a leading non-zero digit, the number ends within the input and no earlier than that digit; its shape is stated by `LexingProperties.MagnitudeShape` |
| `Lexing.ScanMagnitude` | src/main/java/plc/project/Lexer.java:82-101 | an unsigned number, when it is one, takes at least one character and ends within the input |
| `Lexing.AfterSign` | src/main/java/plc/project/Lexer.java:81 | the optional minus sign takes at most one character |
| `Lexing.WholeDigits` | src/main/java/plc/project/Lexer.java:94-100 | the digit loop ends within the input, no earlier than where it starts |
| `Lexing.WholeDigitsAgree` | src/main/java/plc/project/Lexer.java:94-100 | the digit-by-digit loop with its fraction check agrees with the single scan: digits, then a fraction if `.` and a digit follow |
| `Lexing.Lexer.LexCharacter` | src/main/java/plc/project/Lexer.java:126-164 | `lexCharacter` returns `CharacterAt`: a quote, one plain character (not a quote, line break, tab or backslash) or a backslash and an escape letter, then a quote; otherwise it fails at the offending index |
| `Lexing.CharacterAt` | src/main/java/plc/project/Lexer.java:126-164 | a character token starts at the cursor, has at least two characters and ends with a single quote; a failure is past the opening quote and inside the input |
| `Lexing.ScanCharacter` | src/main/java/plc/project/Lexer.java:126-164 | a character literal, when accepted, ends within the input with a closing single quote |
| `Lexing.Lexer.LexString` | src/main/java/plc/project/Lexer.java:166-187 | `lexString` returns `StringAt`: a quote, characters other than a quote or line break, each backslash followed by an escape letter, then a closing quote; otherwise it fails at the offending index |
| `Lexing.StringAt` | src/main/java/plc/project/Lexer.java:166-187 | a string token starts at the cursor, has at least two characters and ends with a double quote; a failure (an unterminated string included) is past the opening quote and at most at the end of the input |
| `Lexing.StringBody` | src/main/java/plc/project/Lexer.java:170-186 | a string body, when accepted, ends within the input with a closing double quote |
| `Lexing.Lexer.LexOperator` | src/main/java/plc/project/Lexer.java:199-210 | `lexOperator` emits `==`, `!=`, `&&` or `||` as one two-character operator, and any other character as a one-character operator |
| `Lexing.OperatorEnd` | src/main/java/plc/project/Lexer.java:199-210 | an operator takes one or two characters, and never runs past the input |
| `Lexing.Lexer.Peek` | src/main/java/plc/project/Lexer.java:262-269 | `peek(patterns)` holds exactly when pattern `k` matches the character at `index + k` for every `k`, all within the input |
| `Lexing.Lexer.Match` | src/main/java/plc/project/Lexer.java:276-285 | `match` answers like `peek` and, when true, advances past one character per pattern |
| `Lexing.Lexer.PeekChar` | src/main/java/plc/project/Lexer.java:262-269 | `peek` with one pattern: the character at the index exists and matches |
| `Lexing.Lexer.PeekTwo` | src/main/java/plc/project/Lexer.java:262-269 | `peek` with two patterns: both characters exist and match in order |
| `Lexing.Lexer.MatchChar` | src/main/java/plc/project/Lexer.java:276-285 | `match` with one pattern: advances by one exactly when the character matches |
| `Lexing.Lexer.MatchTwo` | src/main/java/plc/project/Lexer.java:276-285 | `match` with two patterns: advances by two exactly when both characters match |
| `Lexing.PeekAtEach` | src/main/java/plc/project/Lexer.java:262-269 | the recursive reading of `peek` equals its loop: every pattern matches the character at its offset |
| `Lexing.PeekAtFromEach` | src/main/java/plc/project/Lexer.java:262-269 | if each pattern matches the character at its offset, `peek` succeeds |
| `Lexing.PeekAtOne` | src/main/java/plc/project/Lexer.java:262-269 | `peek` with one pattern succeeds exactly when the current character matches it |
| `Lexing.PeekAtTwo` | src/main/java/plc/project/Lexer.java:262-269 | `peek` with two patterns succeeds exactly when the current and the next character match them in turn |
| `LexingProperties.LexFromTiles` | src/main/java/plc/project/Lexer.java:34-47 | a successful lexing tiles the input: each token's text is the input at its offset, starts on a non-whitespace character, and only whitespace lies before, between and after the tokens |
| `LexingProperties.TiledCons` | src/main/java/plc/project/Lexer.java:36-38 | a token at a non-whitespace character placed before a tiling of the rest tiles the input from that character |
| `LexingProperties.TiledWiden` | src/main/java/plc/project/Lexer.java:39-42 | a skipped whitespace character can be added to the front of a tiling |
| `LexingProperties.TilesWiden` | src/main/java/plc/project/Lexer.java:39-42 | a skipped whitespace character before a tiling keeps it a tiling of the input from the whitespace on |
| `LexingProperties.TilesOrdered` | src/main/java/plc/project/Lexer.java:34-47 | tiled tokens are in input order and do not overlap |
| `LexingProperties.BlankMeans` | src/main/java/plc/project/Lexer.java:36 | a blank stretch is one where every character matches `[ \b\n\r\t]` |
| `LexingProperties.LexFromWellFormed` | src/main/java/plc/project/Lexer.java:57-210 | every token of a successful lexing has the shape of its kind (identifier, integer, decimal, character, string or operator text) |
| `LexingProperties.PrependWellFormed` | src/main/java/plc/project/Lexer.java:37-38 | adding a well-formed token in front of a well-formed result keeps every token well-formed |
| `LexingProperties.TokenAtWellFormed` | src/main/java/plc/project/Lexer.java:57-71 | each token `lexToken` returns has the shape of its kind |
| `LexingProperties.IdentifierWellFormed` | src/main/java/plc/project/Lexer.java:73-77 | an identifier starts with `@` or a letter and continues with `[A-Za-z0-9_-]` |
| `LexingProperties.CharacterWellFormed` | src/main/java/plc/project/Lexer.java:126-164 | a character token is a quoted plain character or a quoted escape |
| `LexingProperties.StringWellFormed` | src/main/java/plc/project/Lexer.java:166-187 | a string token is quoted, and its inside has no quote or line break and only valid escapes |
| `LexingProperties.OperatorWellFormed` | src/main/java/plc/project/Lexer.java:199-210 | an operator is one of the four two-character operators or one character that starts no other token |
| `LexingProperties.StringBodyShape` | src/main/java/plc/project/Lexer.java:170-184 | the string loop ends just after a closing quote, and everything between the quotes is a valid string body |
| `LexingProperties.MagnitudeShape` | src/main/java/plc/project/Lexer.java:81-122 | an unsigned number is an integer (`0` or a non-zero digit then digits) or a decimal of the shapes the branches accept |
| `LexingProperties.NumberShape` | src/main/java/plc/project/Lexer.java:80-124 | a number token is an optional `-` followed by an integer or decimal magnitude, matching its kind |
| `LexingProperties.DispatchByFirst` | src/main/java/plc/project/Lexer.java:57-71 | a token's kind is decided by its first character: `@`/letter for identifiers, `-`/digit for numbers, `'` for characters, `"` for strings (both directions) |
| `LexingProperties.IdentifierMaximal` | src/main/java/plc/project/Lexer.java:73-77 | an identifier token is never followed directly by a character that could continue it |
| `LexingProperties.MinusWithoutDigit` | src/main/java/plc/project/Lexer.java:81-123 | a `-` with no digit after it is an error at the index after the `-` |
| `LexingProperties.MinusNeverOperator` | src/main/java/plc/project/Lexer.java:61-62 | no successful lexing contains a `-` operator token |
| `LexingProperties.OperatorsGreedy` | src/main/java/plc/project/Lexer.java:202-204 | `==`, `!=`, `&&` and `\|\|` are lexed as one two-character operator |
| `LexingProperties.LexLeadingZero` | src/main/java/plc/project/Lexer.java:103-108 | `01` lexes to the integers `0` and `1` |
| `LexingProperties.LexZeroThenAnything` | src/main/java/plc/project/Lexer.java:103-106 | `0+5` and `0 5` each lex to a single `DECIMAL` token, because the separator after `0` is the regex `.` |
| `LexingProperties.ZeroThenDecimal` | src/main/java/plc/project/Lexer.java:103-106 | any three characters `0`, a non-line-terminator, a digit form one `DECIMAL` token |
| `Parsing.Thrown` | src/main/java/plc/project/Parser.java:67 | a `ParseException` carries the offset of the token just before the cursor (`tokens.get(-1).getIndex()`) |
| `Parsing.TokenStream.constructor` | src/main/java/plc/project/Parser.java:501-503 | a new token stream is at index 0 |
| `Parsing.TokenStream.Advance` | src/main/java/plc/project/Parser.java:522-524 | `advance` moves the index forward by one |
| `Parsing.Parser.constructor` | src/main/java/plc/project/Parser.java:24-26 | a new parser reads the given tokens from the start |
| `Parsing.Parser.Peek` | src/main/java/plc/project/Parser.java:460-478 | `peek` holds exactly when each pattern (a kind or a literal text) matches the token at its offset, all within the list |
| `Parsing.Parser.Match` | src/main/java/plc/project/Parser.java:484-494 | `match` answers like `peek` and, when true, advances past one token per pattern |
| `Parsing.Parser.PeekText` | src/main/java/plc/project/Parser.java:460-478 | `peek("x")`: the next token exists and has literal `x` |
| `Parsing.Parser.MatchText` | src/main/java/plc/project/Parser.java:484-494 | `match("x")`: advances by one exactly when the next token's literal is `x` |
| `Parsing.Parser.MatchKind` | src/main/java/plc/project/Parser.java:484-494 | `match(kind)`: advances by one exactly when the next token has that kind |
| `Parsing.Parser.MatchKeywordSemicolon` | src/main/java/plc/project/Parser.java:60-64 | `match(keyword, ";")`: advances by two exactly when the keyword and `;` follow |
| `Parsing.Parser.MatchOperator` | src/main/java/plc/project/Parser.java:316 | matches exactly the operators of the given precedence level |
| `Parsing.PeekTokensEach` | src/main/java/plc/project/Parser.java:460-478 | the recursive reading of `peek` equals its loop over offsets |
| `Parsing.PeekTokensFromEach` | src/main/java/plc/project/Parser.java:460-478 | if each pattern matches the token at its offset, `peek` succeeds |
| `Parsing.PeekTokensOne` | src/main/java/plc/project/Parser.java:460-478 | `peek` with one pattern succeeds exactly when the current token matches it |
| `Parsing.PeekTokensTwo` | src/main/java/plc/project/Parser.java:460-478 | `peek` with two patterns succeeds exactly when the current and the next token match them in turn |
| `Parsing.Parser.ParseExpression` | src/main/java/plc/project/Parser.java:306-308 | `parseExpression` returns `ExpressionAt` of the tokens at the index and leaves the index after it |
| `Parsing.ExpressionAt` | src/main/java/plc/project/Parser.java:306-308 | an expression, when it parses, consumes at least one token |
| `Parsing.Parser.ParseLevel` | src/main/java/plc/project/Parser.java:314-362 | the four binary levels (logical, comparison, additive, multiplicative) as one method over the level: the result and index of `LevelAt` |
| `Parsing.LevelAt` | src/main/java/plc/project/Parser.java:314-362 | a binary level, when it parses, consumes at least one token; what it builds is stated by `Parsing.Parser.ParseLevel` and the `ParsingProperties` lemmas |
| `Parsing.BinaryTail` | src/main/java/plc/project/Parser.java:316-322 | the operator loop of a level never moves backwards and stays within the tokens |
| `Parsing.Parser.ParseOperand` | src/main/java/plc/project/Parser.java:315-358 | an operand of a level is an expression of the next tighter level, or a primary at level 4 |
| `Parsing.OperandAt` | src/main/java/plc/project/Parser.java:315 | an operand consumes at least one token |
| `Parsing.Parser.ParsePrimary` | src/main/java/plc/project/Parser.java:387-448 | `parsePrimaryExpression` returns `PrimaryAt`: a literal, a group, or an identifier, access or call, else a `ParseException` |
| `Parsing.PrimaryAt` | src/main/java/plc/project/Parser.java:387-448 | a primary consumes at least one token and is never a binary expression |
| `Parsing.Parser.ParseLiteral` | src/main/java/plc/project/Parser.java:390-410 | the literal branches fire exactly on `NIL`, `TRUE`, `FALSE` or an integer, decimal, character or string token, and consume that one token |
| `Parsing.LiteralTokenAt` | src/main/java/plc/project/Parser.java:390-410 | a literal branch consumes exactly one token and yields a literal |
| `Parsing.Parser.ParseIdentifier` | src/main/java/plc/project/Parser.java:416-446 | after an identifier: `(` starts a call, `[` an indexed access, anything else a plain access |
| `Parsing.IdentifierAt` | src/main/java/plc/project/Parser.java:416-446 | an identifier always parses to a call or an access |
| `Parsing.Parser.ParseCallArguments` | src/main/java/plc/project/Parser.java:419-437 | a call's arguments as `ArgumentsAt`: `)` ends an empty list, else expressions separated by `,` up to `)` |
| `Parsing.ArgumentsAt` | src/main/java/plc/project/Parser.java:424-436 | a call with an argument list parsed after `(` has the called name and at least one argument |
| `Parsing.ArgumentsTail` | src/main/java/plc/project/Parser.java:430-436 | each further argument extends the list by at least one |
| `Parsing.CharacterValue` | src/main/java/plc/project/Parser.java:400-406 | a three-character literal's value is its middle character |
| `Parsing.ParseDecimalText` | src/main/java/plc/project/Parser.java:398-399 | `new BigDecimal(text)`: a negative value needs a leading `-`, and a text without any digit is refused |
| `Parsing.StringValue` | src/main/java/plc/project/Parser.java:407-410 | a string literal's value is its inside with escapes decoded (the corrected decoding) |
| `Parsing.IndexOf` | src/main/java/plc/project/Parser.java:399 | the position of the first occurrence of a character, or the length when there is none |
| `Parsing.ExponentIndex` | src/main/java/plc/project/Parser.java:399 | the position of the first `e` or `E` in a decimal text, or its length |
| `Parsing.Parser.ParseBlock` | src/main/java/plc/project/Parser.java:159-170 | `parseBlock` returns `BlockFrom`: statements up to `END`, `DEFAULT`, `ELSE` or `CASE`, a failing statement turning into a `ParseException` at the token before the cursor |
| `Parsing.BlockFrom` | src/main/java/plc/project/Parser.java:159-170 | the statement loop of a block never moves backwards and stays within the tokens |
| `Parsing.Parser.ParseStatement` | src/main/java/plc/project/Parser.java:177-202 | `parseStatement` returns `StatementAt`: `LET`, `SWITCH`, `IF`, `WHILE`, `RETURN`, else an assignment or an expression statement ending in `;` |
| `Parsing.StatementAt` | src/main/java/plc/project/Parser.java:177-202 | a statement, when it parses, consumes at least one token |
| `Parsing.Parser.ParseDeclarationStatement` | src/main/java/plc/project/Parser.java:209-224 | `LET name [= expr];` as `DeclarationAt` |
| `Parsing.DeclarationAt` | src/main/java/plc/project/Parser.java:209-224 | a declaration after `LET`, when it parses, consumes at least one token |
| `Parsing.Parser.ParseIfStatement` | src/main/java/plc/project/Parser.java:231-256 | `IF expr [DO block] [ELSE block] END` as `IfAt`, a failing condition reported at the token before the cursor |
| `Parsing.IfAt` | src/main/java/plc/project/Parser.java:231-256 | an `if` after `IF`, when it parses, consumes at least one token |
| `Parsing.Parser.ParseSwitchStatement` | src/main/java/plc/project/Parser.java:263-265 | always unsupported |
| `Parsing.Parser.ParseWhileStatement` | src/main/java/plc/project/Parser.java:281-283 | always unsupported |
| `Parsing.Parser.ParseReturnStatement` | src/main/java/plc/project/Parser.java:290-301 | `RETURN expr;` as `ReturnAt` |
| `Parsing.ReturnAt` | src/main/java/plc/project/Parser.java:290-301 | a `return` after `RETURN`, when it parses, consumes at least one token |
| `Parsing.Parser.ParseFunction` | src/main/java/plc/project/Parser.java:128-153 | `parseFunction` returns `FunctionAt`: name, `(`, parameters, `)`, `DO`, block, `END`, with parameter type names empty and return type `Any` |
| `Parsing.FunctionAt` | src/main/java/plc/project/Parser.java:128-153 | a function after `FUN`, when it parses, consumes at least one token |
| `Parsing.Parser.ParseParameters` | src/main/java/plc/project/Parser.java:133-141 | the parameter list: identifiers separated by `,`, a `,` before `)` being an error, a `,` before anything else being skipped |
| `Parsing.ParameterListAt` | src/main/java/plc/project/Parser.java:133-141 | the parameter names never move the cursor backwards or past the tokens |
| `Parsing.ParametersTail` | src/main/java/plc/project/Parser.java:135-140 | the comma loop of the parameters never moves the cursor backwards or past the tokens |
| `Parsing.Parser.ParseGlobal` | src/main/java/plc/project/Parser.java:59-68 | `parseGlobal` returns `GlobalAt`, which always fails |
| `Parsing.GlobalAt` | src/main/java/plc/project/Parser.java:59-68 | `parseGlobal` throws on every path: whatever it parses is discarded before the final `throw` |
| `Parsing.Parser.ParseList` | src/main/java/plc/project/Parser.java:74-92 | `LIST name = [expr, ...]` as `ListAt` |
| `Parsing.ListAt` | src/main/java/plc/project/Parser.java:74-92 | a list global, when it parses, consumes at least one token |
| `Parsing.Parser.ParseListElements` | src/main/java/plc/project/Parser.java:81-91 | the `, expr` loop of a list, a `]` after a comma being an error, returning only when `]` follows an element after a comma |
| `Parsing.ListTail` | src/main/java/plc/project/Parser.java:81-91 | the element loop, when it parses, consumes at least one token |
| `Parsing.Parser.ParseMutable` | src/main/java/plc/project/Parser.java:98-108 | `VAR name [= expr]` as `MutableAt` |
| `Parsing.MutableAt` | src/main/java/plc/project/Parser.java:98-108 | a `VAR` global, when it parses, consumes at least one token |
| `Parsing.Parser.ParseImmutable` | src/main/java/plc/project/Parser.java:114-122 | `VAL name = expr` as `ImmutableAt` |
| `Parsing.ImmutableAt` | src/main/java/plc/project/Parser.java:114-122 | a `VAL` global, when it parses, consumes at least one token |
| `Parsing.Parser.ParseTopLevel` | src/main/java/plc/project/Parser.java:38-46 | one turn of the `parseSource` loop, as `TopLevelAt` |
| `Parsing.TopLevelAt` | src/main/java/plc/project/Parser.java:38-46 | one turn of the source loop, when it yields a function, consumes at least one token |
| `Parsing.Parser.ParseSource` | src/main/java/plc/project/Parser.java:31-53 | `parseSource` returns `SourceAt`: a global or a function that fails to parse fails at the token before the cursor; a stray top-level token, on which the Java loop never ends, gives `NoProgress` |
| `Parsing.SourceAt` | src/main/java/plc/project/Parser.java:31-53 | a parsed source never has globals |
| `Parsing.SourceFrom` | src/main/java/plc/project/Parser.java:37-47 | the source loop reads at most one function per token |
| `Parsing.TurnAsWritten` | src/main/java/plc/project/Parser.java:37-47 | (as written) one turn of the loop leaves the cursor where it was exactly when the token is neither `LIST`, `VAR`, `VAL` nor `FUN`, so the loop then never ends |
| `Parsing.Extend` | src/main/java/plc/project/Parser.java:45 | adding functions in front of a parse result keeps its success or failure |
| `ParsingProperties.PeekPastEnd` | src/main/java/plc/project/Parser.java:463-464 | `peek` is false when the patterns run past the end of the tokens |
| `ParsingProperties.Prec` | src/main/java/plc/project/Parser.java:314-362 | each binary operator belongs to exactly one level: `&& \|\|` 1, `< > == !=` 2, `+ -` 3, `* / ^` 4 |
| `ParsingProperties.ExpressionShaped` | src/main/java/plc/project/Parser.java:306-362 | a parsed expression respects precedence: an operand of a level's operator is never a bare operator of a looser level |
| `ParsingProperties.LevelShaped` | src/main/java/plc/project/Parser.java:314-362 | each level's result respects precedence |
| `ParsingProperties.OperandShaped` | src/main/java/plc/project/Parser.java:315-358 | an operand of a level uses only tighter operators at its top |
| `ParsingProperties.TailShaped` | src/main/java/plc/project/Parser.java:316-320 | the left-folding loop of a level keeps the shape |
| `ParsingProperties.ShapedWeaken` | src/main/java/plc/project/Parser.java:314-362 | a tree that respects precedence from a tighter level also respects it from any looser level |
| `ParsingProperties.BareIdentifier` | src/main/java/plc/project/Parser.java:443-444 | an identifier not followed by `(` or `[` is a plain variable access consuming one token |
| `ParsingProperties.PrimaryAlone` | src/main/java/plc/project/Parser.java:314-362 | a primary followed by no operator of the level or tighter is the whole expression at that level |
| `ParsingProperties.MinusFoldsLeft` | src/main/java/plc/project/Parser.java:340-348 | `a - b - c` parses as `(a - b) - c` |
| `ParsingProperties.ProductOperand` | src/main/java/plc/project/Parser.java:353-362 | `b * c` is one operand of the additive level |
| `ParsingProperties.TimesBindsTighter` | src/main/java/plc/project/Parser.java:340-362 | `a + b * c` parses as `a + (b * c)` |
| `ParsingProperties.PrimaryRejects` | src/main/java/plc/project/Parser.java:387-448 | a token that starts no primary is a `ParseException` at the token before the cursor, and every parsed primary starts with such a token |
| `ParsingProperties.IntegerLiteral` | src/main/java/plc/project/Parser.java:396-397 | an integer token parses to the integer it writes |
| `ParsingProperties.NoExponent` | src/main/java/plc/project/Parser.java:398-399 | a text of digits and points has no exponent |
| `ParsingProperties.PointAfter` | src/main/java/plc/project/Parser.java:398-399 | the point of `w.f` with digits `w` is found at `|w|` |
| `ParsingProperties.PlainDecimal` | src/main/java/plc/project/Parser.java:398-399 | `new BigDecimal("w.f")` has unscaled value `wf` and scale `|f|` |
| `ParsingProperties.StringLiteral` | src/main/java/plc/project/Parser.java:407-410 | a string token holding the escaped form of `s` parses to the literal `s` |
| `ParsingProperties.CharacterLiteral` | src/main/java/plc/project/Parser.java:400-406 | `'c'` parses to `c`, and `'\x'` to the character the escape letter `x` stands for |
| `ParsingProperties.StatementForms` | src/main/java/plc/project/Parser.java:177-202 | the first keyword decides the statement's kind; `IF` statements end with `END`, all others with `;`; `SWITCH` and `WHILE` are unsupported |
| `ParsingProperties.BlockStops` | src/main/java/plc/project/Parser.java:159-170 | a parsed block stops in front of `END`, `DEFAULT`, `ELSE` or `CASE` (or at the end), keeping the statements before it |
| `ParsingProperties.FunctionForm` | src/main/java/plc/project/Parser.java:128-153 | a parsed function starts with its name and `(`, ends with `END`, has no parameter type names and the return type `Any` |
| `ParsingProperties.TrailingComma` | src/main/java/plc/project/Parser.java:136 | `,` before `)` in a parameter list is a `ParseException` at the comma |
| `ParsingProperties.SourceOnlyFunctions` | src/main/java/plc/project/Parser.java:37-47 | a non-empty parsed source starts with `FUN`; `LIST`, `VAR` or `VAL` makes it fail; any other first token stops the loop without progress |
| `ParsingProperties.StrayTokenNotConsumed` | src/main/java/plc/project/Parser.java:37-47 | on a stray top-level token the loop as written stays put while the model fails with `NoProgress`; on `LIST`, `VAR`, `VAL` or `FUN` the two agree |
| `ParsingProperties.MainReturn` | src/main/java/plc/project/Parser.java:290-301 | `RETURN 0;` parses to a return of the literal 0 |
| `ParsingProperties.MainBody` | src/main/java/plc/project/Parser.java:159-170 | the body `RETURN 0;` before `END` parses to one return statement |
| `ParsingProperties.MainFunction` | src/main/java/plc/project/Parser.java:128-153 | `main() DO RETURN 0; END` after `FUN` parses to the function `main` |
| `ParsingProperties.MainReturnsZero` | src/main/java/plc/project/Parser.java:31-53 | `FUN main() DO RETURN 0; END` parses to a source with that one function and no globals |
| `ParsingProperties.TrailingCommaInSource` | src/main/java/plc/project/Parser.java:49-51 | `FUN f(a,) DO END` fails, reported at the comma's offset |
| `ParsingProperties.GlobalInSource` | src/main/java/plc/project/Parser.java:38-39 | `VAR x = 1;` as a program fails at offset 0 |
| `Scopes.Push` | src/main/java/plc/project/Analyzer.java:69 | `new Scope(scope)` adds an empty innermost frame and keeps the others |
| `Scopes.Pop` | src/main/java/plc/project/Analyzer.java:82 | `getParent()` drops exactly the innermost frame |
| `Scopes.FindVariable` | src/main/java/plc/project/Analyzer.java:310 | a variable lookup finds the innermost frame defining the name, with its value; none means no frame defines it |
| `Scopes.FindFunction` | src/main/java/plc/project/Analyzer.java:322 | a function lookup by name and arity finds the innermost frame defining it; none means no frame defines it |
| `Scopes.DefineVariableAt` | src/main/java/plc/project/Analyzer.java:118 | defining a variable succeeds exactly when the frame does not define the name yet, and changes only that binding |
| `Scopes.DefineFunction` | src/main/java/plc/project/Analyzer.java:66 | defining a function succeeds exactly when the innermost frame does not define that name and arity, and changes only that binding |
| `Scopes.SetVariable` | src/main/java/plc/project/Analyzer.java:52 | setting a variable in a frame changes that binding only |
| `Scopes.LookupAfterDefine` | src/main/java/plc/project/Analyzer.java:118 | after a definition the name is found in the innermost frame with the defined value, and every other name is found as before |
| `Scopes.FindVariableSame` | src/main/java/plc/project/Analyzer.java:310 | lookups agree on two chains whose frames agree on the name |
| `Scopes.PushPop` | src/main/java/plc/project/Analyzer.java:69-82 | entering and leaving a child scope restores the chain, and lookups through a fresh child find what the parent finds |
| `Scopes.FindFunctionPrefix` | src/main/java/plc/project/Analyzer.java:322 | a function lookup depends only on the frames below the starting point |
| `Analysis.RequireAssignable` | src/main/java/plc/project/Analyzer.java:343-352 | a type is assignable to a target when the target is `Any`, the same type, or `Comparable` and the type is not `Boolean` (both directions) |
| `Analysis.RequireAssignableTo` | src/main/java/plc/project/Analyzer.java:212 | against an unset target (`null`) nothing is assignable |
| `Analysis.TypeOf` | src/main/java/plc/project/Analyzer.java:130 | `getType()` succeeds exactly when the expression is annotated, with the annotated type |
| `Analysis.IntegersOrDecimals` | src/main/java/plc/project/Analyzer.java:297-306 | two `Integer`s give `Integer`, two `Decimal`s give `Decimal`, anything else no type |
| `Analysis.BothAre` | src/main/java/plc/project/Analyzer.java:263-268 | succeeds exactly when both operand types are the wanted type |
| `Analysis.BinaryType` | src/main/java/plc/project/Analyzer.java:257-294 | the type of each operator: `&&`/`\|\|` need two Booleans; comparisons need both exactly `Comparable`; `+` gives String when either side is a String, else as `-`; `-` `*` `/` need two Integers or two Decimals; `^` needs two Integers; other operators fail (each an if-and-only-if) |
| `Analysis.LiteralType` | src/main/java/plc/project/Analyzer.java:218-244 | `NIL` keeps whatever type it had; an integer is accepted exactly in the 32-bit range; a decimal exactly when positive; Boolean, character and string literals always, each with its type |
| `Analysis.AnalyzeExpr` | src/main/java/plc/project/Analyzer.java:218-341 | analysis changes only annotations; it annotates every non-literal, non-list expression with a type; a group must hold a binary; an access gets the variable the scope finds and needs an `Integer` offset; a call gets the function the scope finds by name and arity; a list literal is left as is |
| `Analysis.AnalyzeArguments` | src/main/java/plc/project/Analyzer.java:323-328 | each argument is analysed, has a type, and is assignable to its parameter's type; an argument beyond the parameters fails |
| `Analysis.CheckElements` | src/main/java/plc/project/Analyzer.java:335-341 | a list literal passes exactly when it is empty or its own type is set and every element's type is assignable to it |
| `Analysis.StripAll` | src/main/java/plc/project/Analyzer.java:323 | removing annotations keeps the number of expressions |
| `Analysis.AnalyzeStmt` | src/main/java/plc/project/Analyzer.java:90-215 | per statement: an expression statement must be a call; a declaration needs a type name that resolves or an initializer, and defines its variable in the innermost scope with the declared type, else the initializer's type, else `Any`; an assignment needs an access receiver; `if` and `while` need a Boolean condition; `if` needs a then-branch; a switch needs a last case without a value; `return` needs a value assignable to the current return type; the scope grows by exactly the child scopes the statement leaves pushed (`Growth`), and no frame below the current one changes |
| `Analysis.AnalyzeDeclaration` | src/main/java/plc/project/Analyzer.java:99-121 | needs a type name or a value; the variable is defined in the innermost frame with the named type, else the value's type, and the value must be assignable to it |
| `Analysis.AnalyzeInitializer` | src/main/java/plc/project/Analyzer.java:108-116 | a present value is analysed and its type must be assignable to the declared type |
| `Analysis.AnalyzeAssignment` | src/main/java/plc/project/Analyzer.java:124-133 | the receiver must be an access, and the value's type must be assignable to the receiver's |
| `Analysis.AnalyzeIf` | src/main/java/plc/project/Analyzer.java:136-158 | the condition must be Boolean and the then-branch non-empty; the branches run in child scopes, of which the code leaves one pushed |
| `Analysis.AnalyzeSwitch` | src/main/java/plc/project/Analyzer.java:161-178 | passes only with at least one case, the last of them without a value; the scope grows as `Growth` says and no frame below the current one changes |
| `Analysis.AnalyzeCaseValues` | src/main/java/plc/project/Analyzer.java:165-168 | every case passed must have a value; each value is analysed and kept with its statements, one result per case |
| `Analysis.AnalyzeCase` | src/main/java/plc/project/Analyzer.java:181-192 | the case keeps its value; the scope grows only by what its statements leave pushed |
| `Analysis.AnalyzeWhile` | src/main/java/plc/project/Analyzer.java:195-208 | the condition must be Boolean; the body is analysed in a child scope |
| `Analysis.AnalyzeBlock` | src/main/java/plc/project/Analyzer.java:74-76 | statements are analysed left to right, each in the scope the previous one left |
| `Analysis.TypesNamed` | src/main/java/plc/project/Analyzer.java:61-64 | every type name resolves (to its type), or the analysis fails on one that does not |
| `Analysis.AnalyzeFunction` | src/main/java/plc/project/Analyzer.java:60-87 | needs a return type name that resolves and parameter type names that resolve; the call annotation is the function symbol with those types; the new return type is the function's; the scope grows by what the body leaves pushed |
| `Analysis.AnalyzeGlobal` | src/main/java/plc/project/Analyzer.java:49-57 | a global needs a value assignable to its named type, and is then defined as a variable of that type with its mutability |
| `Analysis.AnalyzeGlobals` | src/main/java/plc/project/Analyzer.java:30-32 | the globals are analysed in order and keep their number |
| `Analysis.AnalyzeFunctions` | src/main/java/plc/project/Analyzer.java:41-43 | the functions are analysed in order; the last one's return type becomes current |
| `Analysis.MainOf` | src/main/java/plc/project/Analyzer.java:33-37 | `main` is found exactly when some function is called `main`, and it is the last function so called |
| `Analysis.AnalyzeSource` | src/main/java/plc/project/Analyzer.java:28-46 | (corrected) a source passes only with a function `main` that takes no parameters and returns `Integer`; when the globals pass and `main` is missing or wrong, the source fails |
| `Analysis.AnalyzeSourceAsWritten` | src/main/java/plc/project/Analyzer.java:28-46 | (as written) every source fails, with `NoMain` whenever its globals pass |
| `AnalysisProperties.AnalyzeExprIdempotent` | src/main/java/plc/project/Analyzer.java:218-341 | analysing an analysed expression again gives the same result |
| `AnalysisProperties.AnalyzeArgumentsIdempotent` | src/main/java/plc/project/Analyzer.java:323-328 | analysing analysed arguments again gives the same result |
| `AnalysisProperties.ReturnCheckedAgainstPreviousFunction` | src/main/java/plc/project/Analyzer.java:77 | a function whose body is `return v` passes only if `v` is assignable to the return type left by the function analysed before it |
| `AnalysisProperties.FirstReturnRejected` | src/main/java/plc/project/Analyzer.java:211-213 | with no function analysed before, a `return` is always rejected |
| `AnalysisProperties.AsWrittenRejectsEverySource` | src/main/java/plc/project/Analyzer.java:38 | as written, every source fails: with the globals' failure, or because the `main` check always rejects |
| `AnalysisProperties.EmptyMainFinding` | src/main/java/plc/project/Analyzer.java:38 | a source whose only function is `main(): Integer` with an empty body is rejected as written and accepted by the corrected check |
| `TypeChecker.Analyzer.constructor` | src/main/java/plc/project/Analyzer.java:18-21 | a new analyzer works in a child scope of the parent that defines `print/1` and has no return type |
| `TypeChecker.Analyzer.VisitExpression` | src/main/java/plc/project/Analyzer.java:218-341 | the visit's result is `AnalyzeExpr` in the current scope |
| `TypeChecker.Analyzer.VisitLiteral` | src/main/java/plc/project/Analyzer.java:218-244 | as `AnalyzeExpr` for a literal |
| `TypeChecker.Analyzer.VisitGroup` | src/main/java/plc/project/Analyzer.java:247-254 | as `AnalyzeExpr` for a group |
| `TypeChecker.Analyzer.VisitBinary` | src/main/java/plc/project/Analyzer.java:257-294 | as `AnalyzeExpr` for a binary expression |
| `TypeChecker.Analyzer.VisitAccess` | src/main/java/plc/project/Analyzer.java:309-318 | as `AnalyzeExpr` for an access |
| `TypeChecker.Analyzer.VisitCall` | src/main/java/plc/project/Analyzer.java:321-332 | as `AnalyzeExpr` for a call; the argument loop is proved against `AnalyzeArguments` |
| `TypeChecker.Analyzer.VisitList` | src/main/java/plc/project/Analyzer.java:335-341 | as `AnalyzeExpr` for a list literal |
| `TypeChecker.Analyzer.VisitStatements` | src/main/java/plc/project/Analyzer.java:74-76 | the loop leaves the result and the scope of `AnalyzeBlock` |
| `TypeChecker.Analyzer.VisitStatement` | src/main/java/plc/project/Analyzer.java:90-215 | the result and new scope are those of `AnalyzeStmt`, and the return type is unchanged |
| `TypeChecker.Analyzer.VisitExpressionStatement` | src/main/java/plc/project/Analyzer.java:90-96 | as `AnalyzeStmt` for an expression statement |
| `TypeChecker.Analyzer.VisitDeclaration` | src/main/java/plc/project/Analyzer.java:99-121 | as `AnalyzeDeclaration` |
| `TypeChecker.Analyzer.VisitAssignment` | src/main/java/plc/project/Analyzer.java:124-133 | as `AnalyzeAssignment` |
| `TypeChecker.Analyzer.VisitIf` | src/main/java/plc/project/Analyzer.java:136-158 | as `AnalyzeIf` |
| `TypeChecker.Analyzer.VisitSwitch` | src/main/java/plc/project/Analyzer.java:161-178 | as `AnalyzeSwitch`, the case loop proved against `AnalyzeCaseValues` |
| `TypeChecker.Analyzer.VisitCase` | src/main/java/plc/project/Analyzer.java:181-192 | as `AnalyzeCase` |
| `TypeChecker.Analyzer.VisitWhile` | src/main/java/plc/project/Analyzer.java:195-208 | as `AnalyzeWhile` |
| `TypeChecker.Analyzer.VisitReturn` | src/main/java/plc/project/Analyzer.java:211-215 | as `AnalyzeStmt` for a return |
| `TypeChecker.Analyzer.VisitFunction` | src/main/java/plc/project/Analyzer.java:60-87 | the result, scope and return type of `AnalyzeFunction` |
| `TypeChecker.Analyzer.VisitGlobal` | src/main/java/plc/project/Analyzer.java:49-57 | as `AnalyzeGlobal` |
| `TypeChecker.Analyzer.VisitGlobals` | src/main/java/plc/project/Analyzer.java:30-32 | the globals loop gives the results and scope of `AnalyzeGlobals`, and stops at the first failure |
| `TypeChecker.FindMain` | src/main/java/plc/project/Analyzer.java:33-37 | the search finds `MainOf`: the last function named `main`, or none |
| `TypeChecker.Analyzer.VisitFunctions` | src/main/java/plc/project/Analyzer.java:41-43 | the functions loop gives the results, scope and return type of `AnalyzeFunctions`, and stops at the first failure |
| `TypeChecker.Analyzer.VisitSource` | src/main/java/plc/project/Analyzer.java:28-46 | the result, scope and return type of the corrected `AnalyzeSource` |
| `TypeChecker.BlockStep` | src/main/java/plc/project/Analyzer.java:74-76 | one statement of the block loop: the first failure ends the block, else the rest is analysed in the new scope |
| `TypeChecker.ArgumentsStep` | src/main/java/plc/project/Analyzer.java:323-328 | one turn of the argument loop: analyse, get the type, check assignability, continue |
| `TypeChecker.ArgumentsBeyondParameters` | src/main/java/plc/project/Analyzer.java:327 | an argument without a parameter fails (`get(i)` out of range) once it is analysed |
| `TypeChecker.CaseValuesStep` | src/main/java/plc/project/Analyzer.java:165-168 | one turn of the case-value loop |
| `TypeChecker.TypesNamedStep` | src/main/java/plc/project/Analyzer.java:62-64 | one turn of the parameter-type loop |
| `TypeChecker.GlobalsStep` | src/main/java/plc/project/Analyzer.java:30-32 | one turn of the global loop |
| `TypeChecker.FunctionsStep` | src/main/java/plc/project/Analyzer.java:41-43 | one turn of the function loop |
| `Evaluation.FindVar` | src/main/java/plc/project/Interpreter.java:403 | a variable is found in the current scope if it defines it, else along the parent chain; a found frame defines it |
| `Evaluation.FindFun` | src/main/java/plc/project/Interpreter.java:414 | a function defined in the current scope is the one found |
| `Evaluation.LookupVar` | src/main/java/plc/project/Interpreter.java:403 | `lookupVariable` fails with an undefined name (or a null scope), else finds a frame defining it |
| `Evaluation.PushScope` | src/main/java/plc/project/Interpreter.java:196 | `new Scope(scope)` creates a child of the current scope and makes it current |
| `Evaluation.PopScope` | src/main/java/plc/project/Interpreter.java:205 | `getParent()` makes the parent current, and fails exactly when the scope is already null |
| `Evaluation.DefineVar` | src/main/java/plc/project/Interpreter.java:161-163 | defining succeeds exactly when the scope does not define the name yet, and adds only that binding |
| `Evaluation.DefineFun` | src/main/java/plc/project/Interpreter.java:110-130 | defining a function succeeds exactly when the scope has no function of that name and arity |
| `Evaluation.SetVar` | src/main/java/plc/project/Interpreter.java:183 | `setValue` changes that one variable's value, keeping its mutability, and nothing else |
| `Evaluation.Allocate` | src/main/java/plc/project/Interpreter.java:418-424 | a list literal creates a new list holding the values and refers to it |
| `Evaluation.StoreElement` | src/main/java/plc/project/Interpreter.java:177 | `List.set` succeeds exactly for an index inside the list, changing that element only |
| `Evaluation.RoundHalfEven` | src/main/java/plc/project/Interpreter.java:378 | `RoundingMode.HALF_EVEN`: the quotient is within half a unit, and a tie goes to the even neighbour |
| `Evaluation.DecAdd` | src/main/java/plc/project/Interpreter.java:369 | `BigDecimal.add` is at the larger scale, and adding a zero of no larger scale changes nothing |
| `Evaluation.DecSub` | src/main/java/plc/project/Interpreter.java:371 | `BigDecimal.subtract` is at the larger scale, and a decimal less itself is zero |
| `Evaluation.DecMul` | src/main/java/plc/project/Interpreter.java:373 | `BigDecimal.multiply` is at the sum of the scales, and zero exactly when a factor is |
| `Evaluation.DecDiv` | src/main/java/plc/project/Interpreter.java:374-378 | `divide(y, HALF_EVEN)` keeps the dividend's scale and fails with `DivideByZero` exactly when the divisor is zero |
| `Evaluation.RoundAway` | src/main/java/plc/project/Interpreter.java:378 | stepping a truncated quotient away from zero when the remainder is at least half stays within half a unit |
| `Evaluation.CompareValues` | src/main/java/plc/project/Interpreter.java:315-337 | `compareTo` succeeds exactly for two values of the same class, and on integers gives the sign of their difference |
| `Evaluation.StringCompare` | src/main/java/plc/project/Interpreter.java:315-335 | `String.compareTo`: a proper prefix compares below the longer string, and the longer string above it |
| `Evaluation.ValuesEqual` | src/main/java/plc/project/Interpreter.java:221 | `equals` between the switch condition and a case value: every value equals itself, a list equals only a list, and a decimal only a decimal of the same scale |
| `Evaluation.IntPower` | src/main/java/plc/project/Interpreter.java:356-361 | `^` multiplies the base `intValue()-1` times: the base itself for exponents up to 1, else the power |
| `Evaluation.ShortCircuit` | src/main/java/plc/project/Interpreter.java:290-307 | `false &&` gives false and `true \|\|` gives true without the right operand; a left operand that is not `Comparable` fails |
| `Evaluation.Remainders` | src/main/java/plc/project/Interpreter.java:53-57 | the `converter` loop produces at least one remainder |
| `Evaluation.QuotientShrinks` | src/main/java/plc/project/Interpreter.java:53-57 | the `converter` loop ends unless the base is 1 and the number positive |
| `Evaluation.Eval` | src/main/java/plc/project/Interpreter.java:274-424 | evaluation only adds scopes, lists and output: the frames, heap and output before it are kept |
| `Evaluation.EvalBinary` | src/main/java/plc/project/Interpreter.java:286-394 | a binary operation only adds to the machine state |
| `Evaluation.EvalAccess` | src/main/java/plc/project/Interpreter.java:396-406 | reading a variable or list element only adds to the machine state |
| `Evaluation.EvalBool` | src/main/java/plc/project/Interpreter.java:194 | evaluating a condition only adds to the machine state |
| `Evaluation.EvalArgs` | src/main/java/plc/project/Interpreter.java:410-413 | one value per argument, and the state only grows |
| `Evaluation.EvalIntegers` | src/main/java/plc/project/Interpreter.java:419-422 | one value per element, each an integer |
| `EvaluationProperties.EvalArgsAppend` | src/main/java/plc/project/Interpreter.java:410-413 | arguments are evaluated left to right: a list that is one list followed by another evaluates the first, then the second from the state the first leaves, and joins their values; a failure in the first is the whole list's failure |
| `EvaluationProperties.PureArgs` | src/main/java/plc/project/Interpreter.java:410-413 | call-free arguments succeed exactly when each succeeds in the caller's state; then they change nothing and give those values in order |
| `EvaluationProperties.IntegersAreArgs` | src/main/java/plc/project/Interpreter.java:418-423 | a list literal's elements are evaluated like arguments; when all of them evaluate, the list gets their values if every one is an integer, and a `BigInteger` mismatch otherwise |
| `Evaluation.Invoke` | src/main/java/plc/project/Interpreter.java:17-63 | the built-ins and user functions only add to the machine state |
| `Evaluation.BindParameters` | src/main/java/plc/project/Interpreter.java:117-120 | parameters are bound in the current scope, which stays current |
| `Evaluation.Exec` | src/main/java/plc/project/Interpreter.java:148-271 | statements only add to the machine state |
| `Evaluation.ExecIf` | src/main/java/plc/project/Interpreter.java:192-208 | an `if` only adds to the machine state |
| `Evaluation.ExecWhile` | src/main/java/plc/project/Interpreter.java:249-262 | a `while` only adds to the machine state |
| `Evaluation.ExecAssignment` | src/main/java/plc/project/Interpreter.java:170-189 | an assignment only adds to the machine state |
| `Evaluation.ExecCases` | src/main/java/plc/project/Interpreter.java:211-231 | the case search of a switch only adds to the machine state |
| `Evaluation.ExecCase` | src/main/java/plc/project/Interpreter.java:234-245 | a case only adds to the machine state |
| `Evaluation.ExecBlock` | src/main/java/plc/project/Interpreter.java:121 | a statement sequence only adds to the machine state |
| `Evaluation.ExecGlobal` | src/main/java/plc/project/Interpreter.java:93-105 | a global only adds to the machine state |
| `Evaluation.ExecGlobals` | src/main/java/plc/project/Interpreter.java:76 | the globals only add to the machine state |
| `EvaluationProperties.GlobalDefines` | src/main/java/plc/project/Interpreter.java:93-105 | a global evaluates its value, then defines its name as a mutable variable of the scope current when it started, holding that value or `NIL`; an initializer's failure is the global's, and a name that scope already defines is `Redefined`; nothing else changes |
| `EvaluationProperties.GlobalsDefined` | src/main/java/plc/project/Interpreter.java:76 | after all the globals succeed, every global's name is bound in some scope |
| `EvaluationProperties.PureGlobalsDefine` | src/main/java/plc/project/Interpreter.java:76 | when no global's value makes a call, their success leaves the same scope current, and their names are pairwise distinct, were free in that scope, and are all defined there |
| `Evaluation.Leave` | src/main/java/plc/project/Interpreter.java:204-206 | the `finally` keeps the body's outcome and frames, changing only which scope is current |
| `Evaluation.ExecDeclaration` | src/main/java/plc/project/Interpreter.java:153-167 | a declaration completes normally |
| `EvaluationProperties.DeclarationDefines` | src/main/java/plc/project/Interpreter.java:153-167 | a declaration evaluates its initializer, then defines its name as a mutable variable of the scope current when it started, holding that value or `NIL`; a lookup from that scope then finds it; an initializer's failure is the declaration's, a name that scope already defines is `Redefined`, and nothing else changes |
| `Evaluation.ExecFunction` | src/main/java/plc/project/Interpreter.java:108-131 | defining a function keeps the current scope |
| `Evaluation.ExecFunctions` | src/main/java/plc/project/Interpreter.java:77 | defining the functions keeps the current scope |
| `EvaluationProperties.FunctionDefines` | src/main/java/plc/project/Interpreter.java:108-112 | a function is defined in the current scope under its name and parameter count, and a lookup then finds its parameters and body; with that pair already there it is `Redefined`, and with no scope `NullScope` |
| `EvaluationProperties.FunctionsDefine` | src/main/java/plc/project/Interpreter.java:77 | the functions all succeed exactly when no two share a name and arity and the current scope has none of them yet; then a lookup finds each one, and the scope's earlier functions are kept |
| `EvaluationProperties.FunctionsKeepOthers` | src/main/java/plc/project/Interpreter.java:77 | defining the functions leaves the lookup of any other name and arity as it was |
| `Evaluation.Initial` | src/main/java/plc/project/Interpreter.java:15-64 | the interpreter starts in a new child scope of the parent |
| `EvaluationProperties.AndShortCircuits` | src/main/java/plc/project/Interpreter.java:292-294 | `l && r` with `l` false is false and never evaluates `r` |
| `EvaluationProperties.OrShortCircuits` | src/main/java/plc/project/Interpreter.java:300-302 | `l \|\| r` with `l` true is true and never evaluates `r` |
| `EvaluationProperties.LogicalRightOperand` | src/main/java/plc/project/Interpreter.java:295-307 | `true && r` is false only for a false Boolean `r` (any other value gives true); `false \|\| r` needs a Boolean `r` and gives it |
| `EvaluationProperties.IntegerComparisons` | src/main/java/plc/project/Interpreter.java:313-337 | on integers the four comparisons give the mathematical answer |
| `EvaluationProperties.StringEquality` | src/main/java/plc/project/Interpreter.java:326-337 | on strings `==` and `!=` are equality and inequality |
| `EvaluationProperties.StringCompareZero` | src/main/java/plc/project/Interpreter.java:327 | `String.compareTo` is zero exactly for equal strings |
| `EvaluationProperties.ComparisonAcrossClasses` | src/main/java/plc/project/Interpreter.java:315-333 | comparing values of different classes fails |
| `EvaluationProperties.IntegerArithmeticExact` | src/main/java/plc/project/Interpreter.java:344-349 | integer `+`, `-`, `*` are exact (no overflow) |
| `EvaluationProperties.IntegerDivisionTruncates` | src/main/java/plc/project/Interpreter.java:350-354 | integer division by zero fails; otherwise the quotient truncates toward zero |
| `EvaluationProperties.IntegerPower` | src/main/java/plc/project/Interpreter.java:355-361 | `x ^ y` is `x` for `intValue(y) <= 1` and `x` to the power `intValue(y)` otherwise |
| `EvaluationProperties.StringConcatenation` | src/main/java/plc/project/Interpreter.java:386-390 | `+` on strings concatenates |
| `EvaluationProperties.MixedOperandsUnsupported` | src/main/java/plc/project/Interpreter.java:342-393 | arithmetic on operands of different classes is unsupported |
| `EvaluationProperties.IndexedAssignmentSteps` | src/main/java/plc/project/Interpreter.java:173-181 | an indexed assignment checks `-1 <= intValue(i) <= size-1` before evaluating the value, then stores and writes the list back |
| `EvaluationProperties.IndexedAssignmentBounds` | src/main/java/plc/project/Interpreter.java:176-180 | an index out of the checked range fails; index -1 passes the check and fails in `set` |
| `EvaluationProperties.IndexedAssignmentStores` | src/main/java/plc/project/Interpreter.java:177-178 | an in-range indexed assignment changes exactly that element of that list, seen by every alias |
| `EvaluationProperties.PlainAssignment` | src/main/java/plc/project/Interpreter.java:183 | a plain assignment gives the variable found before the value was evaluated the new value |
| `EvaluationProperties.AssignmentNeedsAccess` | src/main/java/plc/project/Interpreter.java:171-187 | a receiver that is not an access fails |
| `EvaluationProperties.DefaultNeverRuns` | src/main/java/plc/project/Interpreter.java:216-219 | cases without a value are skipped |
| `EvaluationProperties.MatchingCaseRuns` | src/main/java/plc/project/Interpreter.java:216-224 | a case whose value equals the condition runs its block; the switch goes on with the next case unless the block failed or returned |
| `EvaluationProperties.UnmatchedCaseSkipped` | src/main/java/plc/project/Interpreter.java:216-224 | a case whose value differs is skipped after the condition and the value are both evaluated |
| `EvaluationProperties.TwoMatchingCasesRun` | src/main/java/plc/project/Interpreter.java:216-224 | the switch does not stop at the first match: two consecutive matching cases both run, in order |
| `EvaluationProperties.Matched` | src/main/java/plc/project/Interpreter.java:220-222 | a case counts as matched only when it has a value |
| `EvaluationProperties.DefaultOnlySwitch` | src/main/java/plc/project/Interpreter.java:211-231 | a switch with only a default case does nothing but create and leave a scope |
| `EvaluationProperties.PureEvalKeepsState` | src/main/java/plc/project/Interpreter.java:274-424 | an expression with no call or list literal leaves the state unchanged |
| `EvaluationProperties.LeaveRestores` | src/main/java/plc/project/Interpreter.java:204-206 | a body that keeps the child scope current ends, after the `finally`, with the parent current |
| `EvaluationProperties.PureExecKeepsScope` | src/main/java/plc/project/Interpreter.java:148-271 | a call-free statement ends in the scope it started in |
| `EvaluationProperties.PureAssignmentKeepsScope` | src/main/java/plc/project/Interpreter.java:170-189 | so does a call-free assignment |
| `EvaluationProperties.PureIfKeepsScope` | src/main/java/plc/project/Interpreter.java:192-208 | a call-free `if` ends in the scope it started in, with no fewer frames and every frame's parent kept |
| `EvaluationProperties.PureWhileKeepsScope` | src/main/java/plc/project/Interpreter.java:249-262 | and a call-free `while` |
| `EvaluationProperties.PureCasesKeepScope` | src/main/java/plc/project/Interpreter.java:216-225 | and the cases of a call-free switch |
| `EvaluationProperties.PureCaseKeepsScope` | src/main/java/plc/project/Interpreter.java:234-245 | and a call-free case |
| `EvaluationProperties.PureBlockKeepsScope` | src/main/java/plc/project/Interpreter.java:121 | and a call-free statement list |
| `EvaluationProperties.ParametersBoundInCurrentScope` | src/main/java/plc/project/Interpreter.java:117-120 | distinct new parameters are all bound, immutable, to their arguments in the current scope, and nothing else changes |
| `EvaluationProperties.BindingKeepsScope` | src/main/java/plc/project/Interpreter.java:117-120 | binding parameters keeps the current scope |
| `EvaluationProperties.CallLeavesCallerScope` | src/main/java/plc/project/Interpreter.java:125-127 | a call-free function body ends with the parent of the caller's scope current: the `finally` pops a scope the call never pushed |
| `EvaluationProperties.CallResult` | src/main/java/plc/project/Interpreter.java:121-128 | a call returns the value of its `return`, or `NIL` if the body falls through |
| `EvaluationProperties.BaseDigits` | src/main/java/plc/project/Interpreter.java:36-63 | the digits of a number in a base: digits below the base, the leading one non-zero, with the number as their value |
| `EvaluationProperties.ConverterWritesDigits` | src/main/java/plc/project/Interpreter.java:36-63 | `converter(n, b)` for a natural `n` and a base of at least 2 writes the digits of `n` in base `b`, most significant first |
| `EvaluationProperties.ConverterZero` | src/main/java/plc/project/Interpreter.java:53-61 | `converter(0, b)` is `"0"` |
| `EvaluationProperties.RemaindersAreDigits` | src/main/java/plc/project/Interpreter.java:53-61 | the remainders, written last first, are the digits of the number |
| `EvaluationProperties.DigitsStepText` | src/main/java/plc/project/Interpreter.java:59-61 | writing one more remainder in front extends the text by that digit at the end |
| `EvaluationProperties.BaseDigitsStep` | src/main/java/plc/project/Interpreter.java:53-57 | the digits of `n` are those of `n / b` followed by `n % b` |
| `EvaluationProperties.RemaindersNatural` | src/main/java/plc/project/Interpreter.java:53-57 | for natural numbers the loop's remainders are `n % b` followed by those of `n / b` |
| `EvaluationProperties.TruncDivNatural` | src/main/java/plc/project/Interpreter.java:54-55 | on natural numbers truncating division is ordinary division |
| `EvaluationProperties.ConcatenatedPrepend` | src/main/java/plc/project/Interpreter.java:59-61 | the loop `number = r + number` puts the first remainder last |
| `EvaluationProperties.ValueInBaseSnoc` | src/main/java/plc/project/Interpreter.java:53-57 | one more low-order digit multiplies the value of the digits by the base and adds that digit |
| `EvaluationProperties.SingleDigitText` | src/main/java/plc/project/Interpreter.java:59-61 | one remainder is written the same whether the digits are prepended (`Concatenated`) or appended (`Written`) |
| `EvaluationProperties.WrittenAppend` | src/main/java/plc/project/Interpreter.java:59-61 | appending a digit appends its decimal text |
| `Interpreting.Interpreter.constructor` | src/main/java/plc/project/Interpreter.java:15-64 | the interpreter starts in the initial state |
| `Interpreting.Interpreter.VisitExpression` | src/main/java/plc/project/Interpreter.java:274-424 | the value and new state are those of `Eval` |
| `Interpreting.Interpreter.VisitBinary` | src/main/java/plc/project/Interpreter.java:286-394 | as `EvalBinary` |
| `Evaluation.LiteralValue` | src/main/java/plc/project/Interpreter.java:274-279 | `NIL` becomes the NIL value and nothing else does; a literal is never a list |
| `Evaluation.BinaryValue` | src/main/java/plc/project/Interpreter.java:286-394 | a binary operator yields a Boolean, integer, decimal or string; comparisons and `&&`/`||` yield Booleans; decimal `/` fails with `DivideByZero` exactly on a zero divisor |
| `Interpreting.Interpreter.VisitAccess` | src/main/java/plc/project/Interpreter.java:396-406 | as `EvalAccess` |
| `Interpreting.Interpreter.VisitCall` | src/main/java/plc/project/Interpreter.java:409-415 | as `Eval` for a call, the argument loop proved against `EvalArgs` |
| `Interpreting.Interpreter.VisitList` | src/main/java/plc/project/Interpreter.java:418-424 | as `Eval` for a list literal |
| `Interpreting.Interpreter.Invoke` | src/main/java/plc/project/Interpreter.java:17-63 | as `Evaluation.Invoke` |
| `Interpreting.Interpreter.VisitCondition` | src/main/java/plc/project/Interpreter.java:194 | as `EvalBool` |
| `Interpreting.Interpreter.VisitStatements` | src/main/java/plc/project/Interpreter.java:121 | the statement loop as `ExecBlock` |
| `Interpreting.Interpreter.VisitStatement` | src/main/java/plc/project/Interpreter.java:148-271 | as `Exec` |
| `Interpreting.Interpreter.VisitDeclaration` | src/main/java/plc/project/Interpreter.java:153-167 | as `ExecDeclaration`, which `DeclarationDefines` states: the name bound to the initializer's value in the scope current at the start, or `Redefined` |
| `Interpreting.Interpreter.VisitAssignment` | src/main/java/plc/project/Interpreter.java:170-189 | as `ExecAssignment` |
| `Interpreting.Interpreter.VisitIf` | src/main/java/plc/project/Interpreter.java:192-208 | as `ExecIf` |
| `Interpreting.Interpreter.VisitSwitch` | src/main/java/plc/project/Interpreter.java:211-231 | as `Exec` for a switch, the case loop proved against `ExecCases` |
| `Interpreting.Interpreter.VisitCase` | src/main/java/plc/project/Interpreter.java:234-245 | as `ExecCase` |
| `Interpreting.Interpreter.VisitWhile` | src/main/java/plc/project/Interpreter.java:249-262 | as `ExecWhile` |
| `Interpreting.Interpreter.VisitGlobal` | src/main/java/plc/project/Interpreter.java:93-105 | as `ExecGlobal`, returning `NIL`; `GlobalDefines` states the variable it defines |
| `Interpreting.Interpreter.VisitFunction` | src/main/java/plc/project/Interpreter.java:108-131 | as `ExecFunction`, returning `NIL`; `FunctionDefines` states the function it defines |
| `Interpreting.Interpreter.VisitSource` | src/main/java/plc/project/Interpreter.java:71-90 | as `ExecSource`: globals, functions, then `main()`, which `SourceRunsMain` and `NoMainUndefined` state |
| `Evaluation.ExecSource` | src/main/java/plc/project/Interpreter.java:71-90 | running a source only adds to the machine state, and a failing global stops it before any function is defined |
| `EvaluationProperties.SourceRunsMain` | src/main/java/plc/project/Interpreter.java:71-78 | once the globals and functions are defined, a source runs the parameterless `main` it declares with no arguments, in the state they leave; a failing global or function is the source's failure |
| `EvaluationProperties.NoMainUndefined` | src/main/java/plc/project/Interpreter.java:78 | a source that declares no parameterless `main`, run where no enclosing scope has one, fails with `main`/0 undefined |
| `Interpreting.Power` | src/main/java/plc/project/Interpreter.java:356-361 | the multiplication loop of `^` computes `IntPower` |
| `Interpreting.CollectRemainders` | src/main/java/plc/project/Interpreter.java:51-57 | the do-while loop of `converter` collects exactly `Remainders` |
| `Interpreting.WriteRemainders` | src/main/java/plc/project/Interpreter.java:59-61 | the prepending loop writes `Concatenated` |
| `Interpreting.Convert` | src/main/java/plc/project/Interpreter.java:36-63 | `converter` as `ConverterText` |
| `Evaluation.ConverterText` | src/main/java/plc/project/Interpreter.java:36-63 | `converter(n, b)` fails exactly when the base is 0, or 1 with a positive number, and otherwise writes at least one character |
| `Interpreting.RemaindersStep` | src/main/java/plc/project/Interpreter.java:53-57 | one turn of the do-while loop keeps (collected ++ remaining remainders) and shrinks the quotient |
| `Interpreting.ArgumentsStep` | src/main/java/plc/project/Interpreter.java:411-413 | one turn of the argument loop |
| `Interpreting.IntegersStep` | src/main/java/plc/project/Interpreter.java:420-422 | one turn of the list-element loop |
| `Interpreting.BlockStep` | src/main/java/plc/project/Interpreter.java:121 | one turn of the statement loop, stopping at a `return` |
| `Interpreting.GlobalsStep` | src/main/java/plc/project/Interpreter.java:76 | one turn of the global loop |
| `Interpreting.FunctionsStep` | src/main/java/plc/project/Interpreter.java:77 | one turn of the function loop |
| `Generation.Zeros` | src/main/java/plc/project/Generator.java:245 | the zeros `BigDecimal.toString` puts after the point |
| `Generation.DecimalText` | src/main/java/plc/project/Generator.java:245 | `BigDecimal.toString` is non-empty and starts with `-` exactly for a negative value; at scale 0 it is the integer's text |
| `Generation.LiteralText` | src/main/java/plc/project/Generator.java:235-248 | a literal's `toString` fails exactly for `NIL`; every literal but a string has a non-empty text |
| `Generation.ExprText` | src/main/java/plc/project/Generator.java:235-324 | an expression is written only if its literal is typed and not `NIL`, its variable or function is annotated, and its list literal is not empty |
| `Generation.StmtText` | src/main/java/plc/project/Generator.java:118-232 | a written statement is never empty, and a declaration is written only when annotated |
| `Generation.GlobalText` | src/main/java/plc/project/Generator.java:62-86 | a global is written only when annotated; a list global without a value fails; a global with a value ends with `;` |
| `Generation.Parameters` | src/main/java/plc/project/Generator.java:92-100 | (corrected) the parameter list fails, with `MissingParameterType`, exactly when there are fewer type names than parameters |
| `Generation.ParametersAsWritten` | src/main/java/plc/project/Generator.java:92-100 | (as written) the parameter list fails, with `MissingParameterType`, exactly when there are fewer type names than parameters |
| `Generation.FunctionText` | src/main/java/plc/project/Generator.java:89-115 | a method is written exactly when it is annotated, every parameter has a type name and its statements are written; it ends with `}` |
| `Generation.SourceText` | src/main/java/plc/project/Generator.java:33-59 | the class is written exactly when its globals and methods are, and ends with `}` |
| `CodeGeneration.Generator.constructor` | src/main/java/plc/project/Generator.java:11-13 | a new generator has written nothing |
| `CodeGeneration.Generator.NewLine` | src/main/java/plc/project/Generator.java:25-30 | `newline(k)` writes a line break and `k` indents of four spaces |
| `CodeGeneration.Generator.VisitExpression` | src/main/java/plc/project/Generator.java:235-324 | the writer grows by exactly `ExprText`, or the visit fails with its failure |
| `CodeGeneration.Generator.VisitLiteral` | src/main/java/plc/project/Generator.java:235-248 | as `ExprText` for a literal: characters and strings in quotes, others by `toString` |
| `CodeGeneration.Generator.VisitBinary` | src/main/java/plc/project/Generator.java:259-273 | as `ExprText` for a binary expression |
| `CodeGeneration.Generator.VisitAccess` | src/main/java/plc/project/Generator.java:276-287 | as `ExprText` for an access |
| `CodeGeneration.Generator.VisitCall` | src/main/java/plc/project/Generator.java:290-307 | as `ExprText` for a call |
| `CodeGeneration.Generator.VisitPlcList` | src/main/java/plc/project/Generator.java:310-324 | as `ExprText` for a list literal |
| `CodeGeneration.Generator.VisitArguments` | src/main/java/plc/project/Generator.java:293-305 | the argument loop writes `ListText` |
| `CodeGeneration.Generator.VisitStatement` | src/main/java/plc/project/Generator.java:118-232 | the writer grows by exactly `StmtText` |
| `CodeGeneration.Generator.VisitDeclaration` | src/main/java/plc/project/Generator.java:125-133 | as `StmtText` for a declaration |
| `CodeGeneration.Generator.VisitAssignment` | src/main/java/plc/project/Generator.java:136-142 | as `StmtText` for an assignment |
| `CodeGeneration.Generator.VisitIf` | src/main/java/plc/project/Generator.java:145-166 | as `StmtText` for an `if` |
| `CodeGeneration.Generator.VisitSwitch` | src/main/java/plc/project/Generator.java:169-183 | as `StmtText` for a switch |
| `CodeGeneration.Generator.VisitCases` | src/main/java/plc/project/Generator.java:174-177 | the case loop writes `CasesText` |
| `CodeGeneration.Generator.VisitCase` | src/main/java/plc/project/Generator.java:186-204 | as `CaseText` |
| `CodeGeneration.Generator.VisitWhile` | src/main/java/plc/project/Generator.java:207-224 | as `StmtText` for a `while` |
| `CodeGeneration.Generator.VisitBlock` | src/main/java/plc/project/Generator.java:149-152 | a statement loop writes `BlockText` |
| `CodeGeneration.Generator.VisitGlobal` | src/main/java/plc/project/Generator.java:62-86 | as `GlobalText` |
| `CodeGeneration.Generator.VisitParameters` | src/main/java/plc/project/Generator.java:92-100 | writes the corrected `Parameters` |
| `CodeGeneration.Generator.VisitParameterList` | src/main/java/plc/project/Generator.java:92-100 | once every parameter has a type name, the loop writes exactly the corrected `Parameters` text |
| `CodeGeneration.Generator.VisitFunction` | src/main/java/plc/project/Generator.java:89-115 | as `FunctionText` |
| `CodeGeneration.Generator.VisitGlobals` | src/main/java/plc/project/Generator.java:36-39 | the global loop writes `GlobalsText` |
| `CodeGeneration.Generator.VisitFunctions` | src/main/java/plc/project/Generator.java:50-53 | the function loop writes `FunctionsText` |
| `CodeGeneration.Generator.VisitSource` | src/main/java/plc/project/Generator.java:33-59 | as `SourceText` |
| `CodeGeneration.ListStep` | src/main/java/plc/project/Generator.java:299-302 | one turn of the `", "`-separated loop |
| `CodeGeneration.BlockStep` | src/main/java/plc/project/Generator.java:149-152 | one turn of a statement loop |
| `CodeGeneration.CasesStep` | src/main/java/plc/project/Generator.java:174-177 | one turn of the case loop |
| `CodeGeneration.GlobalsStep` | src/main/java/plc/project/Generator.java:36-39 | one turn of the global loop |
| `CodeGeneration.FunctionsStep` | src/main/java/plc/project/Generator.java:50-53 | one turn of the function loop |
| `CodeGeneration.ParametersStep` | src/main/java/plc/project/Generator.java:95-98 | one turn of the corrected parameter loop |
| `GenerationProperties.ListTextJoins` | src/main/java/plc/project/Generator.java:293-305 | the argument list is written exactly when every argument is, as the arguments' texts joined by `", "` |
| `GenerationProperties.ListTextFirstFailure` | src/main/java/plc/project/Generator.java:299-303 | the first argument that fails decides the failure |
| `GenerationProperties.CallJoinsArguments` | src/main/java/plc/project/Generator.java:290-307 | a call is its Java name, then the arguments joined by `", "` in parentheses, for any number of arguments |
| `GenerationProperties.ListLiteralJoinsElements` | src/main/java/plc/project/Generator.java:310-324 | a list literal is its elements joined by `", "` in braces; an empty one fails |
| `GenerationProperties.ParametersJoin` | src/main/java/plc/project/Generator.java:92-100 | (corrected) the parameter list is each type name and name joined by `", "`, and fails when type names are missing |
| `GenerationProperties.ParametersAsWrittenReusesFirst` | src/main/java/plc/project/Generator.java:92-100 | as written, two or more parameters are written as if every name were the first and every type but the last the first |
| `GenerationProperties.AsWrittenJoined` | src/main/java/plc/project/Generator.java:92-100 | as written, two or more parameters come out as copies of the first type name with the first name, joined by `", "`, then the last type name with the first name |
| `GenerationProperties.ReusingJoined` | src/main/java/plc/project/Generator.java:92-100 | the corrected parameter list, given those reused type names and names, gives the same text as the code as written |
| `GenerationProperties.DeclaredReusing` | src/main/java/plc/project/Generator.java:92-100 | pairing copies of the first type name and the first name gives copies of one declaration |
| `GenerationProperties.RepeatJoins` | src/main/java/plc/project/Generator.java:92-100 | writing a declaration and `", "` `k` times, then the declaration, is the join of `k + 1` copies |
| `GenerationProperties.JoinedSnoc` | src/main/java/plc/project/Generator.java:92-100 | joining one more item appends the separator and that item |
| `GenerationProperties.ParametersAsWrittenCounterexample` | src/main/java/plc/project/Generator.java:92-100 | `(Integer a, Decimal b)` is written `Integer a, Decimal a`; the corrected list is `Integer a, Decimal b` |
| `GenerationProperties.ParametersAgreeOnOne` | src/main/java/plc/project/Generator.java:92-93 | with at most one parameter the two versions agree |
| `GenerationProperties.NewlineShape` | src/main/java/plc/project/Generator.java:25-30 | `newline(k)` is a line break followed by exactly `4k` spaces |
| `GenerationProperties.BlockTextAppend` | src/main/java/plc/project/Generator.java:149-152 | the text of two statement lists in a row is the first's text followed by the second's |
| `GenerationProperties.BlockIndentsEachStatement` | src/main/java/plc/project/Generator.java:149-152 | each statement of a block is on a new line with the block's indent |
| `GenerationProperties.StatementEnding` | src/main/java/plc/project/Generator.java:118-232 | simple statements end with `;`, compound ones with `}` |
| `GenerationProperties.AssignmentAndReturnText` | src/main/java/plc/project/Generator.java:136-142 | `receiver = value;` and `return value;` |
| `GenerationProperties.ElseOnlyWhenPresent` | src/main/java/plc/project/Generator.java:156-164 | an `else` block is written only for a non-empty else branch, after the then block |
| `GenerationProperties.WhileLayout` | src/main/java/plc/project/Generator.java:207-224 | an empty `while` body is written `{}`, a non-empty one on indented lines closed by `}` on its own line |
| `GenerationProperties.BinaryText` | src/main/java/plc/project/Generator.java:259-273 | `^` is written `Math.pow(l, r)`, every other operator infix with single spaces |
| `GenerationProperties.LeftOperandFailsFirst` | src/main/java/plc/project/Generator.java:267 | a failing left operand fails the binary expression |
| `GenerationProperties.GroupText` | src/main/java/plc/project/Generator.java:251-256 | a group is its inner text in parentheses |
| `GenerationProperties.LiteralsNotEscaped` | src/main/java/plc/project/Generator.java:236-243 | string and character literals are written between quotes with no escaping |
| `GenerationProperties.QuoteInStringWrittenRaw` | src/main/java/plc/project/Generator.java:240-243 | a string holding `"` is written with the quote raw |
| `GenerationProperties.Failures` | src/main/java/plc/project/Generator.java:235-307 | `NIL` literals, and expressions without their type, variable or function annotation, cannot be written |
| `GenerationProperties.JoinedCons` | src/main/java/plc/project/Generator.java:299-303 | a `", "`-join of several texts is the first, the separator, and the join of the rest |
| `GenerationProperties.Texts` | src/main/java/plc/project/Generator.java:299-303 | the text of each expression, in order |
| `GenerationProperties.Declared` | src/main/java/plc/project/Generator.java:93 | each parameter written as its type name, a space and its name |

## Left out

- The `Scope` and `Environment` classes, and the `Ast` and `Token` classes, are not part of this model. The model relies on assumptions about them:
  - Scopes are a stack of frames (analyzer) or an arena of frames with parent links (interpreter).
  - A name may be defined once per frame.
  - `getType()` fails on an expression it was never set on.
  - The parser's short constructors leave `Function` with no parameter type names and the return type `Any`.
- Printing: `System.out.println` in `print`, and the debug print in `lexString`, are not modelled as text. `print` records the printed value in the machine's `output`.
- `logarithm` uses floating point (`Math.log`). It is modelled as the failure `FloatingPoint` after its argument check.
- `Analysis.LiteralType`: Java rejects a decimal whose `doubleValue()` is infinite or below `Double.MIN_VALUE`. The model rejects exactly the decimals that are not positive, and does not model the rounding to `double`. So two kinds of decimal are accepted by the model and rejected by Java:
  - a positive decimal that underflows to `0.0`, e.g. `0.` followed by 330 zeros and a `1`;
  - a decimal that overflows to infinity, e.g. a `1` followed by 310 digits and `.0`.
- `Evaluation.StringCompare`: compares Unicode scalar values, the characters of a Dafny string. Java's `String.compareTo` compares UTF-16 code units. Strings holding characters outside the Basic Multilingual Plane can therefore compare differently, by sign or by magnitude.
- `Evaluation.ValuesEqual`: two lists are equal when their element sequences are equal, and a list held inside a list is compared by its reference. Java's `List.equals` compares nested lists element by element. Nested lists arise only when an indexed assignment stores a list into a list.
- Characters outside the Basic Multilingual Plane: a Dafny `string` is a sequence of Unicode scalar values, while Java's `CharStream` reads UTF-16 code units (`charAt`, `length()`), and `peek` tests one unit at a time. Such a character is one step of the model's lexer and two steps of Java's, one per surrogate. So every cursor, offset and index in the lexer model counts one less than Java's for each such character before it. The lines below name the lexer members whose tokens or errors this changes.
- `Lexing.CharStream.Advance`: moves past one Unicode scalar value, where Java's `advance` moves past one UTF-16 code unit.
- `Lexing.CharStream.Emit`: the offset counts Unicode scalar values. Each character outside the Basic Multilingual Plane before a token makes its offset one lower than Java's.
- `Lexing.TokenAt`: offsets and error indices count Unicode scalar values, one lower than Java's per earlier character outside the Basic Multilingual Plane.
- `Lexing.LexFrom`: the same offsets and error indices. A parser error index taken from a token offset shifts the same way.
- `Lexing.Lexer.Lex`: the same offsets and error indices as `Lexing.LexFrom`.
- `Lexing.Lexer.LexCharacter`: for `'😀'`, Java consumes the high surrogate as the character, finds the low surrogate where the closing quote belongs, and throws at index 2. The model returns the CHARACTER token `'😀'`.
- `Lexing.CharacterAt`: the same as `Lexing.Lexer.LexCharacter`: `'😀'` is a CHARACTER here and an error at index 2 in Java.
- `Lexing.Lexer.LexZeroTail`: for `0😀5`, Java's `match(".", "[0-9]")` takes the high surrogate as the `.` and fails on the low one. That gives INTEGER `0`, an OPERATOR for each surrogate, then INTEGER `5`. The model takes the whole `😀` and gives one DECIMAL `0😀5`.
- `Lexing.ZeroTail`: the same as `Lexing.Lexer.LexZeroTail`: `0😀5` is one DECIMAL here, and four tokens in Java.
- `LexingProperties.LexZeroThenAnything`: holds for any Unicode scalar value after the `0`. In Java it fails for a character outside the Basic Multilingual Plane, e.g. `0😀5`.
- `Lexing.Lexer.LexOperator`: a lone `😀` is one OPERATOR token here, and two in Java, one per surrogate.
- `Lexing.OperatorEnd`: the same as `Lexing.Lexer.LexOperator`: one character here, where Java takes one surrogate.
- `Lexing.StringAt`: a string literal holding `😀` is accepted by both. Its text has one character fewer here, and so do the indices after it.
- `Lexing.Lexer.LexString`: the same as `Lexing.StringAt`.
- `Lexing.StringBody`: the same as `Lexing.StringAt`: the end of a literal holding `😀` is one lower here.
- `Lexing.ScanCharacter`: the same as `Lexing.CharacterAt`: `'😀'` ends the literal here and is an error at index 2 in Java.
- `Lexing.ScanMagnitude`: the same as `Lexing.ZeroTail`: the digits after a `0` and a `😀` belong to one DECIMAL here, where Java ends the number at the `0`.
- `Lexing.NumberAt`: the same as `Lexing.ScanMagnitude`, for numbers with or without a sign.
- `Lexing.Lexer.LexMagnitude`: the same as `Lexing.ScanMagnitude`.
- `Lexing.Lexer.LexNumber`: the same as `Lexing.NumberAt`.
- `Lexing.Lexer.LexToken`: sends a character outside the Basic Multilingual Plane to `Lexing.Lexer.LexOperator`, as Java sends each surrogate, so it yields one OPERATOR where Java yields two.
- `Parsing.StringValue`: decodes with the corrected `Escapes.DecodeEscapes`, not with `replaceEscape` as written (`Escapes.ReplaceEscape`). The body `\\n` gives a backslash and `n` here, and a line feed in Java (`Escapes.EscapedBackslashThenN`).
- `Parsing.CharacterValue`: decodes with the corrected `Escapes.DecodeEscapes` too, not with `replaceEscape`. The lexer only accepts a body of one character or one escape pair, and on those the seven replacements give the same character as the decoding. No lemma states this agreement.
- `Parsing.LiteralTokenAt`: a string literal's value is the corrected decoding, through `Parsing.StringValue`.
- `Parsing.PrimaryAt`: a string literal's value is the corrected decoding, through `Parsing.StringValue`.
- `Parsing.Parser.ParseLiteral`: a string literal's value is the corrected decoding, through `Parsing.StringValue`.
- `Parsing.Parser.ParsePrimary`: a string literal's value is the corrected decoding, through `Parsing.StringValue`.
- `ParsingProperties.StringLiteral`: states the round trip for the corrected decoding. As written, the body `\\n` does not round-trip (`Escapes.EscapedBackslashThenN`).
- `Parsing.SourceFrom`: a stray top-level token gives `NoProgress`, where the Java loop never ends (`Parsing.TurnAsWritten`, `ParsingProperties.StrayTokenNotConsumed`).
- `Parsing.SourceAt`: a stray top-level token gives `NoProgress`, where the Java loop never ends.
- `Parsing.Parser.ParseTopLevel`: a stray top-level token gives `NoProgress`, where the Java loop turns again without consuming it.
- `Parsing.Parser.ParseSource`: a stray top-level token gives `NoProgress`, where the Java loop never ends. The string and character literals it reads use the corrected decoding.
- `Analysis.AnalyzeSource`: uses the intended check for `main`. As written, every source whose globals pass is refused with `NoMain` (`Analysis.AnalyzeSourceAsWritten`, `AnalysisProperties.AsWrittenRejectsEverySource`).
- `TypeChecker.Analyzer.VisitSource`: is proved against the corrected `Analysis.AnalyzeSource`, and so uses the intended check for `main`.
- `Generation.Parameters`: writes each parameter with its own type name and name. As written, the code writes `Integer a, Decimal a` for `(a: Integer, b: Decimal)` (`Generation.ParametersAsWritten`, `GenerationProperties.ParametersAsWrittenCounterexample`).
- `Generation.FunctionText`: writes the corrected `Generation.Parameters`.
- `Generation.FunctionsText`: writes the corrected `Generation.Parameters`, through `Generation.FunctionText`.
- `Generation.SourceText`: writes the corrected `Generation.Parameters`, through `Generation.FunctionText`.
- `CodeGeneration.Generator.VisitParameters`: is proved against the corrected `Generation.Parameters`.
- `CodeGeneration.Generator.VisitParameterList`: is proved against the corrected `Generation.Parameters`.
- `CodeGeneration.ParametersStep`: is one turn of the corrected parameter loop.
- `CodeGeneration.Generator.VisitFunction`: is proved against `Generation.FunctionText`, which writes the corrected parameters.
- `CodeGeneration.Generator.VisitFunctions`: is proved against `Generation.FunctionsText`, which writes the corrected parameters.
- `CodeGeneration.Generator.VisitSource`: is proved against `Generation.SourceText`, which writes the corrected parameters.
- `BigDecimal` arithmetic:
  - Addition, subtraction and multiplication are exact on unscaled value and scale.
  - Division rounds half-even to the dividend's scale, as `divide(x, HALF_EVEN)` does.
  - Precision limits and `MathContext` are not modelled.
- Exceptions become `Result` failures.
  - The state left after a failure is not modelled: any failure ends the run.
  - This includes the `finally` blocks that pop scopes on the way out of a failure.
- Evaluation of `visit(Binary)`:
  - Java evaluates operands again in each branch it tries.
  - The model evaluates each operand at most once. This is the same for call-free operands, which `EvaluationProperties.PureEvalKeepsState` shows leave the state unchanged.
- `Evaluation.Eval` and `Evaluation.Exec` take `fuel`:
  - Each loop iteration and each user call costs one unit.
  - A program that runs out reports `OutOfFuel`.
  - Non-terminating programs are therefore not modelled.
- `Evaluation.Eval`: its own contract states only that the machine state grows. What it computes is stated by the lemmas in `EvaluationProperties` and by the `Interpreting` method proved against it.
- `Evaluation.Exec`: its own contract states only that the machine state grows. What it computes is stated by the lemmas in `EvaluationProperties` and by the `Interpreting` method proved against it.
- `Evaluation.Invoke`: its own contract states only that the machine state grows. What it computes is stated by the lemmas in `EvaluationProperties` and by the `Interpreting` method proved against it.
- `Evaluation.EvalBinary`: its own contract states only that the machine state grows. What it computes is stated by the lemmas in `EvaluationProperties` and by the `Interpreting` method proved against it.
- `Evaluation.EvalAccess`: its own contract states only that the machine state grows. What it computes is stated by the lemmas in `EvaluationProperties` and by the `Interpreting` method proved against it.
- `Evaluation.EvalBool`: its own contract states only that the machine state grows. What it computes is stated by the lemmas in `EvaluationProperties` and by the `Interpreting` method proved against it.
- `Evaluation.ExecIf`: its own contract states only that the machine state grows. What it computes is stated by the lemmas in `EvaluationProperties` and by the `Interpreting` method proved against it.
- `Evaluation.ExecWhile`: its own contract states only that the machine state grows. What it computes is stated by the lemmas in `EvaluationProperties` and by the `Interpreting` method proved against it.
- `Evaluation.ExecAssignment`: its own contract states only that the machine state grows. What it computes is stated by the lemmas in `EvaluationProperties` and by the `Interpreting` method proved against it.
- `Evaluation.ExecCases`: its own contract states only that the machine state grows. What it computes is stated by the lemmas `EvaluationProperties.MatchingCaseRuns`, `EvaluationProperties.UnmatchedCaseSkipped`, `EvaluationProperties.TwoMatchingCasesRun` and `EvaluationProperties.DefaultNeverRuns`, and by the `Interpreting` method proved against it.
- `Evaluation.ExecCase`: its own contract states only that the machine state grows. What it computes is stated by the lemmas in `EvaluationProperties` and by the `Interpreting` method proved against it.
- `Evaluation.ExecBlock`: its own contract states only that the machine state grows. What it computes is stated by the lemmas in `EvaluationProperties` and by the `Interpreting` method proved against it.
- `Evaluation.ExecGlobal`: its own contract states only that the machine state grows. The variable it defines is stated by `EvaluationProperties.GlobalDefines`.
- `Evaluation.ExecGlobals`: its own contract states only that the machine state grows. The variables it defines are stated by `EvaluationProperties.GlobalsDefined` and, for globals whose values make no call, by `EvaluationProperties.PureGlobalsDefine`. With calls in the values no lemma says which scope each name lands in: a call can change the current scope (`EvaluationProperties.CallLeavesCallerScope`).
- `Evaluation.ExecDeclaration`: its own contract states only that the state grows and the flow is normal. The variable it defines is stated by `EvaluationProperties.DeclarationDefines`.
- `Evaluation.ExecFunction`: its own contract states only that the state grows and the scope is kept. The function it defines is stated by `EvaluationProperties.FunctionDefines`.
- `Evaluation.ExecFunctions`: its own contract states only that the state grows and the scope is kept. The functions it defines are stated by `EvaluationProperties.FunctionsDefine` and `EvaluationProperties.FunctionsKeepOthers`.
- `Evaluation.ExecSource`: its own contract states only that the state grows and that a failing global is the result. Running `main` is stated by `EvaluationProperties.SourceRunsMain` and `EvaluationProperties.NoMainUndefined`. When an enclosing scope defines a `main`/0 and the source does not, no lemma states the result beyond `SourceRunsMain`'s failure cases.
- `Evaluation.EvalArgs`: its own contract states only the number of values and that the state grows. The order and the values are stated by `EvaluationProperties.EvalArgsAppend` and `EvaluationProperties.PureArgs`.
- `Evaluation.EvalIntegers`: its own contract states only the number of values, that each is an integer, and that the state grows. The values are stated by `EvaluationProperties.IntegersAreArgs`.
- `Lexing.ZeroTail`: its own contract bounds only where a leading `0` ends. The token it yields is stated by `LexingProperties.MagnitudeShape` and `LexingProperties.NumberShape`.
- `Lexing.NonZeroTail`: its own contract bounds only where a leading non-zero digit ends. The token it yields is stated by `LexingProperties.MagnitudeShape` and `LexingProperties.NumberShape`.
- `Lexing.ScanMagnitude`: its own contract bounds only where an unsigned number ends. The token it yields is stated by `LexingProperties.MagnitudeShape` and `LexingProperties.NumberShape`.
- `Lexing.WholeDigits`: its own contract bounds only where the digit loop ends. The token it yields is stated by `LexingProperties.MagnitudeShape` and `LexingProperties.NumberShape`.
- `Parsing.LevelAt`: its own contract states only progress through the tokens. What it builds is stated by the `Parsing.Parser` method proved against it and by the lemmas in `ParsingProperties`.
- `Parsing.OperandAt`: its own contract states only progress through the tokens. What it builds is stated by the `Parsing.Parser` method proved against it and by the lemmas in `ParsingProperties`.
- `Parsing.BinaryTail`: its own contract states only progress through the tokens. What it builds is stated by the `Parsing.Parser` method proved against it and by the lemmas in `ParsingProperties`.
- `Parsing.ExpressionAt`: its own contract states only progress through the tokens. What it builds is stated by the `Parsing.Parser` method proved against it and by the lemmas in `ParsingProperties`.
- `Parsing.BlockFrom`: its own contract states only progress through the tokens. What it builds is stated by the `Parsing.Parser` method proved against it and by the lemmas in `ParsingProperties`.
- `Parsing.StatementAt`: its own contract states only progress through the tokens. What it builds is stated by the `Parsing.Parser` method proved against it and by the lemmas in `ParsingProperties`.
- `Parsing.DeclarationAt`: its own contract states only progress through the tokens. What it builds is stated by the `Parsing.Parser` method proved against it and by the lemmas in `ParsingProperties`.
- `Parsing.IfAt`: its own contract states only progress through the tokens. What it builds is stated by the `Parsing.Parser` method proved against it and by the lemmas in `ParsingProperties`.
- `Parsing.ReturnAt`: its own contract states only progress through the tokens. What it builds is stated by the `Parsing.Parser` method proved against it and by the lemmas in `ParsingProperties`.
- `Parsing.ParametersTail`: its own contract states only progress through the tokens. What it builds is stated by the `Parsing.Parser` method proved against it and by the lemmas in `ParsingProperties`.
- `Parsing.ParameterListAt`: its own contract states only progress through the tokens. What it builds is stated by the `Parsing.Parser` method proved against it and by the lemmas in `ParsingProperties`.
- `Parsing.FunctionAt`: its own contract states only progress through the tokens. What it builds is stated by the `Parsing.Parser` method proved against it and by the lemmas in `ParsingProperties`.
- `Parsing.ListTail`: its own contract states only progress through the tokens. What it builds is stated by the `Parsing.Parser` method proved against it and by the lemmas in `ParsingProperties`.
- `Parsing.ListAt`: its own contract states only progress through the tokens. What it builds is stated by the `Parsing.Parser` method proved against it and by the lemmas in `ParsingProperties`.
- `Parsing.MutableAt`: its own contract states only progress through the tokens. What it builds is stated by the `Parsing.Parser` method proved against it and by the lemmas in `ParsingProperties`.
- `Parsing.ImmutableAt`: its own contract states only progress through the tokens. What it builds is stated by the `Parsing.Parser` method proved against it and by the lemmas in `ParsingProperties`.
- `Parsing.TopLevelAt`: its own contract states only progress through the tokens. What it builds is stated by the `Parsing.Parser` method proved against it and by the lemmas in `ParsingProperties`. On a stray top-level token it gives `NoProgress`, where the Java loop turns again without consuming the token and never ends (`Parsing.TurnAsWritten`).
- The generator's output is a string with `"\n"` as the line separator. `PrintWriter.println` uses the platform separator. A failed visit's partial output is not modelled.
- The generator's `indent` field is never used by the code and is not modelled.
- `HashMap` iteration order in `replaceEscape` is taken as that of a 16-bucket Java `HashMap` with these seven keys.
- The lexer's regular expressions are single-character patterns (`Pattern`). Each has a membership predicate that matches what its regex accepts for one character.
- `lexEscape` is never called, and `parseCaseStatement` always throws; neither is modelled.
- The `converter` built-in is proved against the base-`b` digits only for natural numbers and bases of at least 2. Negative inputs follow `Remainders` as written, without a digits lemma.

## Findings

| source | as written | input that shows it | evidently intended | confidence | as-written member | corrected member |
|---|---|---|---|---|---|---|
| src/main/java/plc/project/Parser.java:372-386 | seven whole-string replacements in hash-map order, `\\` first | the literal body `\\n` (escaped backslash, then `n`) decodes to a line feed | left-to-right decoding of escape pairs, giving a backslash then `n` | high, not executed | `Escapes.EscapedBackslashThenN` | `Escapes.DecodeEncode` |
| src/main/java/plc/project/Analyzer.java:38 | `main.getReturnTypeName().equals("Integer")` compares an `Optional<String>` with a `String`, which is never equal | any source, e.g. one whose only function is `main(): Integer` with an empty body, is rejected | accept a `main` with no parameters whose return type name is `Integer` | high, not executed | `AnalysisProperties.AsWrittenRejectsEverySource` | `AnalysisProperties.EmptyMainFinding` |
| src/main/java/plc/project/Generator.java:92-100 | every parameter is written with the first name, and all but the last with the first type name | `(a: Integer, b: Decimal)` is written `Integer a, Decimal a` | each parameter written with its own type name and name; the correction fixes only the reused name and type name, and still writes the type names as given (`Integer`, not a JVM name such as `int`, which the comment on line 93 may also have meant) | high, not executed | `GenerationProperties.ParametersAsWrittenCounterexample` | `GenerationProperties.ParametersJoin` |
| src/main/java/plc/project/Parser.java:37-47 | the loop body consumes a token only for `LIST`, `VAR`, `VAL` or `FUN`, and the loop runs while tokens remain | `FUN f() DO END x`, or a source starting with `x`: the loop turns on `x` for ever | fail with a parse error on a token that starts neither a global nor a function | high, not executed | `ParsingProperties.StrayTokenNotConsumed` | `ParsingProperties.SourceOnlyFunctions` |
