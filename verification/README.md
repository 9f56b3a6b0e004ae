# Lox scanner model

A Dafny model of the lexical scanner of a TypeScript Lox interpreter: `scanTokens` in
`scanner.ts` and the token vocabulary in `Token.ts`. The scanner makes one pass over the
source text. It keeps a cursor of `start`, `current` and `line`, and appends tokens to a
list that always ends with an EOF token. Diagnostics go to the `error(line, message)` sink
in `Lox.ts`.

The project has these modules:

- `Wrappers` (`wrappers.dfy`): the `Option` datatype used for optional arguments.
- `Tokens` (`tokens.dfy`): the closed `TokenType` union, one constructor per member; the
  literal a token carries; the token record.
- `Lexical` (`lexical.dfy`): the three static tables, the character classes, lookahead
  with the `'\0'` sentinel, runs of a character class, newline counting, number lexemes
  and their exact values, and the keyword lookup.
- `ScanSpec` (`scan_spec.dfy`): a functional definition of the scan.
  - `ScanOne` is one call of `scanToken`. It is a function of the source, the cursor
    and the line counter.
  - `ScanFrom` and `Scan` iterate it to the end and append the EOF token.
  - The lemmas state what the scanner promises: EOF shape, tokens as ordered source
    slices, greedy operators, numbers, identifiers and keywords, strings, comments and
    nesting, whitespace, error recovery, and line counting.
- `Scanning` (`scanning.dfy`): the scanner itself, written imperatively.
  - Class `Scanner` holds the closure state of `scanTokens` as fields.
  - One method per nested helper (`advance`, `match`, `addToken`, `string`, `number`,
    `identifier`, `multilineComment`, `scanToken`) and the driver loop updates these
    fields.
  - Each method is proved to do what `ScanSpec` says. So `ScanTokens` returns exactly
    `Scan(source)`, and every lemma of `ScanSpec` holds of it.
- `Examples` (`examples.dfy`): the source's test vectors, and the quirks below, as facts
  about `Scan`.

The model reproduces these behaviours of the code:

- `addToken` sets the line counter to the opening line of a string. After a string that
  spans lines, later tokens and the EOF token are numbered from the opening line.
- `_` may continue an identifier but not start one. A leading `_` is an unexpected
  character.
- Inside a block comment, `*` is consumed by `match` even when no `/` follows. `advance`
  then consumes the next character, so `**` followed by `/` does not close the comment.
- Block comments nest. An unclosed one swallows the rest of the source silently.
- The cursor can run one past the end of the source: `advance` past the end still moves
  it, and yields the sentinel.

The definitions below state no property of their own. The rows of the table name the
members whose contracts state what they satisfy.

- `Tokens.TokenType` is the `TokenType` union (Token.ts:21-52). `TokenType.IsKeyword`
  picks out its `TokenKeyword` members (Token.ts:3-19).
- `Tokens.Token` is the token record (Token.ts:54-59). `Tokens.Literal` is the value of
  its `literal` field.
- `Tokens.EofToken` is the token pushed after the driver loop (scanner.ts:196-201).
- `Lexical.SingleCharToken`, `Lexical.Keywords` and `Lexical.ConditionalToken` are the
  three records (scanner.ts:4-41).
- `Lexical.IsAlpha`, `Lexical.IsDigit` and `Lexical.IsIdentChar` are `isAlpha`, `isNumeric`
  and `isIdentifier` (scanner.ts:43-45). `isDigit` (scanner.ts:118-121) tests the same
  range as `isNumeric`, so `IsDigit` models both.
- `Lexical.DecimalValue` is `parseFloat` applied to a number lexeme (scanner.ts:137).
- `ScanSpec.RuleFor` is the order of the branches of `scanToken` (scanner.ts:167-188).
- `ScanSpec.ScanFrom` and `ScanSpec.ScanInside` are the driver loop (scanner.ts:191-201).
- `Scanning.Scanner.IsAtEnd` is `isAtEnd` (scanner.ts:55-57).

## Model

| member | source | states |
|---|---|---|
| Lexical.Substring | scanner.ts:87 | `substring` between in-range indices is the slice between them, in whichever order they come; an end past the source is clamped to its length, and two past it give the empty string; the result is never longer than the source |
| Lexical.SingleCharTable | scanner.ts:4-15 | the single-character record's keys are exactly the ten punctuation characters; distinct keys have distinct types; no type is a keyword, a literal kind or EOF; no key is also an operator key |
| Lexical.KeywordTable | scanner.ts:17-34 | every spelling in the keyword record is an identifier lexeme and gets a keyword type |
| Lexical.KeywordTableInjective | scanner.ts:17-34 | no two spellings in the keyword record share a type |
| Lexical.KeywordTableCoversKeywords | scanner.ts:17-34 | every keyword member of the token type union has a spelling in the keyword record |
| Lexical.ConditionalTable | scanner.ts:36-41 | the operator record's keys are exactly `!`, `=`, `<` and `>`; each looks for `=`; its two types differ and are neither keywords nor literal kinds nor EOF |
| Lexical.CharacterClasses | scanner.ts:43-45 | digits and letters are disjoint and both continue an identifier; the only other identifier character is `_`; no identifier character is a record key, whitespace, a quote, a slash or the sentinel |
| Lexical.SpanWhile | scanner.ts:101-103 | a `while (p(peek())) advance()` loop stops at or after where it started, and within the source |
| Lexical.SpanWhileRun | scanner.ts:101-103 | a `while (p(peek())) advance()` loop passes only characters satisfying p, and stops at the end or at a character that fails p |
| Lexical.SpanWhileUnique | scanner.ts:131 | the stopping index of such a loop is the only index with those two properties |
| Lexical.NumberEnd | scanner.ts:130-135 | `number` stops within the source, after the first digit |
| Lexical.NumberEndIsLongestNumber | scanner.ts:130-135 | what `number` consumes is a number lexeme (digits, optionally `.` and digits) made only of digits and `.`; it stops at a non-digit; it leaves no `.`-digit pair behind an integer part |
| Lexical.DecimalValueOfParts | scanner.ts:136-137 | the literal of `a.b` is a plus b scaled down by its digit count, and that of digits alone is their value |
| Lexical.FractionValueScales | scanner.ts:136-137 | the digits after the point denote their integer value divided by ten to the power of their count |
| Lexical.KeywordType | scanner.ts:144-145 | an identifier's type is IDENTIFIER or a keyword type |
| Lexical.KeywordTypeClassifies | scanner.ts:142-146 | an identifier gets a keyword type exactly when its spelling is in the keyword table, and IDENTIFIER otherwise |
| Lexical.KeywordLookupAsWritten | scanner.ts:144-145 | the lookup as written yields a value that is no token type exactly for inherited property names outside the keyword table |
| Lexical.InheritedMemberLeaksIntoTokenType | scanner.ts:144-145 | `toString` is an identifier lexeme; the lookup as written yields its inherited property, where the corrected lookup gives IDENTIFIER |
| Lexical.LookupAgreesOffInheritedNames | scanner.ts:144-145 | off the inherited property names, the lookup as written and the corrected lookup agree |
| ScanSpec.CommentEnd | scanner.ts:150-161 | the comment loop stops within one past the end; it stops with depth 0 unless the source ran out; it always consumes something while open |
| ScanSpec.ScanOne | scanner.ts:164-189 | every `scanToken` call advances the cursor, to at most one past the end |
| ScanSpec.OperatorStep | scanner.ts:169-171 | a two-form operator consumes one or two characters, within the source |
| ScanSpec.NumberStep | scanner.ts:130-138 | `number` consumes at least the first digit, within the source |
| ScanSpec.IdentifierStep | scanner.ts:141-147 | `identifier` consumes at least the first letter, within the source |
| ScanSpec.StringStep | scanner.ts:99-115 | `string` consumes at least the opening quote, within the source |
| ScanSpec.SlashStep | scanner.ts:178-185 | the `/` branch consumes at least the `/`, to at most one past the end |
| ScanSpec.ScanFromStep | scanner.ts:191-194 | one turn of the driver loop: the step's token and report come before everything scanned after it |
| ScanSpec.RuleForClassifies | scanner.ts:167-188 | each branch of `scanToken` is taken exactly for the characters its own test accepts |
| ScanSpec.SingleRuleStep | scanner.ts:167-168 | a character of the single-character table gives its token, one character long, on the current line, and the cursor moves one on |
| ScanSpec.StringRuleStep | scanner.ts:176-177 | a quote takes the `string` branch |
| ScanSpec.StepToken | scanner.ts:82-96 | an emitted token's lexeme is the non-empty slice its step consumed; it is not EOF and is on the step's starting line; only STRING and NUMBER carry a literal, the text between the quotes or the lexeme's value |
| ScanSpec.StepLine | scanner.ts:60-64 | after a step the counter has moved by the newlines consumed, except after a STRING token, which puts it back on the opening line |
| ScanSpec.NoQuoteStepLine | scanner.ts:60-64 | a step that does not start at a quote moves the counter by exactly the newlines it consumed, and a token it emits lies in the source, on the line the step started on |
| ScanSpec.NumberStepLine | scanner.ts:130-138 | `number` passes no newline and leaves the counter unchanged |
| ScanSpec.IdentifierStepLine | scanner.ts:141-147 | `identifier` passes no newline and leaves the counter unchanged |
| ScanSpec.StringStepLine | scanner.ts:99-108 | an unterminated string leaves the counter on the line where the source ends |
| ScanSpec.SlashStepLine | scanner.ts:178-185 | comments move the counter over the newlines they skip |
| ScanSpec.StepError | scanner.ts:104-108 | a report is either an unterminated string, on the line at the end, with no closing quote left, or an unexpected character that no branch accepts, skipped on its own line |
| ScanSpec.GreedyOperator | scanner.ts:36-41 | `!`, `=`, `<` and `>` followed by `=` give the two-character type and lexeme; otherwise they give the one-character type |
| ScanSpec.NumberToken | scanner.ts:130-138 | a digit starts a NUMBER whose lexeme is the longest number lexeme there, with its value as literal |
| ScanSpec.NumberStepToken | scanner.ts:130-138 | `number` always emits a NUMBER token on the current line; its lexeme is the consumed slice and a number lexeme, and its literal is that lexeme's value |
| ScanSpec.IdentifierToken | scanner.ts:141-147 | a letter starts the longest run of identifier characters; its type is its keyword entry or IDENTIFIER, and its literal is null |
| ScanSpec.UnderscoreCannotStartIdentifier | scanner.ts:43-45 | a leading `_` is reported as an unexpected character and skipped |
| ScanSpec.StringToken | scanner.ts:99-115 | a terminated string gives one STRING token on the opening line, with the text between the quotes; an unterminated one gives one report on the last line and ends the scan |
| ScanSpec.LoneSlash | scanner.ts:183-184 | a `/` followed by neither `/` nor `*`, or by the end, is a SLASH token of its own, on the current line, and scanning resumes right after it |
| ScanSpec.LineCommentSkipped | scanner.ts:178-180 | `//` emits nothing and skips up to, not including, the next newline |
| ScanSpec.BlockCommentSkipped | scanner.ts:181-182 | slash-star emits and reports nothing, and resumes where the nesting depth returns to 0 or the source ends |
| ScanSpec.WhitespaceSkipped | scanner.ts:186 | space, tab, carriage return and newline emit nothing; a newline moves to the next line |
| ScanSpec.BlanksSkipped | scanner.ts:186 | a run of spaces, tabs and carriage returns emits and reports nothing and leaves the counter unchanged |
| ScanSpec.UnexpectedCharacterSkipped | scanner.ts:186-188 | any other character is reported once on its line, emits nothing, and scanning resumes after it |
| ScanSpec.CommentSkipsPlainText | scanner.ts:150-161 | text with no `*` and no `/` does not change the nesting depth |
| ScanSpec.NestedCommentReturns | scanner.ts:150-161 | at any depth, an inner comment with plain text inside returns the loop to that depth right after its close |
| ScanSpec.NestedCommentCloses | scanner.ts:150-161 | a comment nested in a comment is skipped as a whole, and the scan resumes right after the outer close |
| ScanSpec.DoubleStarDoesNotClose | scanner.ts:154-159 | `**` followed by `/` leaves the depth unchanged and consumes four characters |
| ScanSpec.Scan | scanner.ts:191-203 | `scanTokens` returns a list that ends with an EOF token with empty lexeme and null literal; no earlier token is EOF or has an empty lexeme |
| ScanSpec.ScanShape | scanner.ts:191-203 | the token list is never empty and ends with exactly one EOF token, with empty lexeme and null literal; every earlier token has a non-empty lexeme |
| ScanSpec.TokensAreOrderedSlices | scanner.ts:191-194 | each token before EOF is the source slice of its span; the spans are non-empty, within the source, and in order without overlap |
| ScanSpec.EofLineCountsNewlines | scanner.ts:196-201 | without strings, the EOF line is the starting line plus every newline in the source |
| ScanSpec.StringThenRest | scanner.ts:99-115 | after a terminated string the list is one STRING token on the opening line, then what the scan from after the closing quote gives on that same line |
| ScanSpec.StringRewindsEofLine | scanner.ts:196-201 | after a string whose closing quote is the last quote of the source, the EOF line is the opening line plus only the newlines after the closing quote |
| ScanSpec.TokenLinesCountNewlines | scanner.ts:60-64 | without strings, each token's line is the starting line plus the newlines before its first character |
| ScanSpec.ReportsAreDiagnostics | scanner.ts:105-108 | every report is an unterminated string or an unexpected character; an unterminated string's report is the last one, on the EOF token's line |
| ScanSpec.SingleCharacterInput | scanner.ts:167-168 | a source of single-character tokens gives one token per character, in order, on the starting line, and no reports |
| Scanning.Scanner.constructor | scanner.ts:48-52 | the scan starts at index 0 on line 1 with no tokens and no reports |
| Scanning.Scanner.Peek | scanner.ts:74-77 | `peek` is the character at the cursor, or the sentinel at or past the end; it changes nothing |
| Scanning.Scanner.PeekNext | scanner.ts:124-127 | `peekNext` is the character after the cursor, or the sentinel; it changes nothing |
| Scanning.Scanner.Advance | scanner.ts:60-64 | `advance` yields the character at the cursor (the sentinel past the end) and moves one on; the line grows exactly when that character is a newline |
| Scanning.Scanner.Match | scanner.ts:67-71 | `match` consumes one character exactly when the next one is `expected`; it never changes the line |
| Scanning.Scanner.AddToken | scanner.ts:82-96 | `addToken` appends the token for `substring(start, current)` on the given line, or on the counter's line, and first sets the counter to the given line |
| Scanning.Scanner.ReportError | Lox.ts:28-30 | `error` appends one report |
| Scanning.Scanner.AdvanceWhile | scanner.ts:101-103 | a scanning loop stops where SpanWhile says, with the counter moved by the newlines it passed |
| Scanning.Scanner.ScanString | scanner.ts:99-115 | `string` does what StringStep says |
| Scanning.Scanner.ScanNumber | scanner.ts:130-138 | `number` does what NumberStep says |
| Scanning.Scanner.AdvanceNumber | scanner.ts:131-135 | the two digit loops of `number` stop where NumberEnd says, with the counter unchanged |
| Scanning.Scanner.ScanIdentifier | scanner.ts:141-147 | `identifier` does what IdentifierStep says |
| Scanning.Scanner.MultilineComment | scanner.ts:150-161 | `multilineComment` stops where CommentEnd says, with the counter moved by the newlines it passed |
| Scanning.Scanner.ScanToken | scanner.ts:164-189 | `scanToken` does what ScanOne says |
| Scanning.Scanner.ScanSlash | scanner.ts:178-185 | the `/` branch does what SlashStep says |
| Scanning.Scanner.Run | scanner.ts:191-203 | the driver loop adds exactly the tokens and reports of ScanFrom, and the last token is EOF on the counter's final line |
| Scanning.CommentStepLines | scanner.ts:154-159 | one pass of the comment loop moves the counter only by the character `advance` consumes |
| Scanning.ScanTokens | scanner.ts:47-204 | `scanTokens` returns exactly the tokens and reports of Scan, and its last token is EOF |
| Examples.DotNotDot | scanner.test.ts:5-12 | `.!.` scans to DOT, NOT, DOT, EOF on line 1 |
| Examples.GreedyEquals | scanner.test.ts:14-28 | `==!` scans to EQUAL, NOT; `!==` to NOT_EQUAL, GETS |
| Examples.LineCommentHidesRest | scanner.test.ts:30-36 | `.!//@.!` scans to DOT, NOT, EOF |
| Examples.SkipsWhitespace | scanner.test.ts:38-45 | `. \t   !  \r / \n  //@.!` scans to DOT, NOT and SLASH on line 1 and EOF on line 2, with no reports |
| Examples.CommentThenNewline | scanner.ts:178-180 | a line comment stops before the newline: `.//@\n!` scans to DOT on line 1, then NOT and EOF on line 2 |
| Examples.MultilineStringRewindsLine | scanner.test.ts:111-125 | a string over two lines is on line 1, and so is the EOF token after it |
| Examples.UnterminatedStringReported | scanner.ts:104-108 | an unclosed string is reported once, on the last line, with no token |
| Examples.TrailingPointIsADot | scanner.ts:132-135 | `12.` scans to NUMBER 12 and DOT |
| Examples.LeadingUnderscore | scanner.ts:43-45 | `_x` reports `_` and scans IDENTIFIER `x` |
| Examples.UnclosedCommentIsSilent | scanner.ts:150-161 | `/**` gives only EOF and no report |
| Examples.NumberValueWithTwoDecimals | scanner.test.ts:127-155 | the literal of `12.43` is 12.43 |
| Examples.NumberValueWithLeadingZeroDecimals | scanner.test.ts:127-155 | the literal of `130.001` is 130.001 |

## Left out

- `Lox.ts` apart from `error`: file reading, the prompt loop, writes to standard error,
  exit codes and the `hadError` flag. Reports are collected in order, not printed.
- The debug `console.log` in `multilineComment` (scanner.ts:153). It is output only.
- `parseFloat`: a NUMBER literal is the exact decimal value of its lexeme. Rounding to a
  binary double is not modelled.
- Characters are Dafny `char`s, and the source's strings are sequences of them. UTF-16
  surrogate pairs are not distinguished.
- `isAlpha` and `isNumeric` use regular expressions. They are modelled as the ASCII
  ranges those expressions denote (`[A-Za-z]` and `\d`).
- `advance` past the end returns `undefined` in the source. The model returns the `'\0'`
  sentinel that `peek` uses. Both compare unequal to every character the scanner tests
  for, and neither is a newline.
- The three tables are JavaScript object records, looked up with `in`. They are modelled
  as `match` functions over their keys. Single characters cannot clash with inherited
  property names. For the keyword table, see Findings.
- `scanTokens` returns only the token list. Its reports go to the `error` sink. `ScanTokens`
  returns both, as two results.

## Findings

| source | as written | input that shows it | evidently intended | confidence | as-written member | corrected member |
|---|---|---|---|---|---|---|
| scanner.ts:144-145 | `identifier in keywords` also finds properties that every object inherits, so `keywords[identifier]` can be an inherited function | the identifier `toString` (likewise `valueOf`, `constructor`) | only the sixteen reserved spellings get keyword types; every other identifier is IDENTIFIER | not executed | Lexical.KeywordLookupAsWritten, Lexical.InheritedMemberLeaksIntoTokenType | Lexical.KeywordType, Lexical.KeywordTypeClassifies |
