/**
 * The scanner as the source writes it (scanner.ts:47-204): the closure state of
 * `scanTokens` (`start`, `current`, `line`, the token list and the reports made so far)
 * becomes the fields of a Scanner object, and each inner function becomes a method that
 * updates them. Every method is proved to do what the functional definition in module
 * ScanSpec says, so the properties proved there hold of this code.
 */
module Scanning {
  import opened Wrappers
  import opened Tokens
  import opened Lexical
  import opened ScanSpec

  class Scanner {
    const source: string
    /** Index of the first character of the token being scanned. */
    var start: nat
    /** Index of the next character to read; `advance` can leave it one past the end. */
    var current: nat
    var line: int
    /** `finalTokens`, in the order they were added. */
    var tokens: seq<Token>
    /** The calls made to the diagnostic sink `error`, in order. */
    var errors: seq<Report>

    /** The state `scanTokens` starts in (scanner.ts:48-52). */
    constructor (source: string)
      ensures this.source == source
      ensures start == 0 && current == 0 && line == 1 && tokens == [] && errors == []
    {
      this.source := source;
      start, current, line := 0, 0, 1;
      tokens, errors := [], [];
    }

    /** `isAtEnd` (scanner.ts:55-57). */
    predicate IsAtEnd()
      reads this
    {
      current >= |source|
    }

    /** `peek` (scanner.ts:74-77): the next character, or the sentinel at the end. */
    function Peek(): (c: char)
      reads this
      ensures c == CharAt(source, current)
      ensures c == Sentinel <==> IsAtEnd() || source[current] == Sentinel
    {
      if IsAtEnd() then Sentinel else source[current]
    }

    /** `peekNext` (scanner.ts:124-127): the character after the next one, or the sentinel. */
    function PeekNext(): (c: char)
      reads this
      ensures c == CharAt(source, current + 1)
      ensures current + 1 >= |source| ==> c == Sentinel
    {
      if current + 1 >= |source| then Sentinel else source[current + 1]
    }

    /**
     * `advance` (scanner.ts:60-64): consume one character, counting it when it is a
     * newline. Past the end it still moves the cursor, and yields the sentinel.
     */
    method Advance() returns (c: char)
      modifies this`current, this`line
      ensures c == CharAt(source, old(current))
      ensures current == old(current) + 1
      ensures line == if c == '\n' then old(line) + 1 else old(line)
    {
      c := Peek();
      current := current + 1;
      if c == '\n' {
        line := line + 1;
      }
    }

    /** `match` (scanner.ts:67-71): consume the next character only when it is `expected`. */
    method Match(expected: char) returns (matched: bool)
      modifies this`current
      ensures matched <==> CharAt(source, old(current)) == expected
      ensures current == if matched then old(current) + 1 else old(current)
    {
      if Peek() != expected {
        return false;
      }
      current := current + 1;
      return true;
    }

    /**
     * `addToken` (scanner.ts:82-96): the lexeme is the JavaScript substring between
     * `start` and `current`, and a given line replaces the counter before it is recorded.
     */
    method AddToken(kind: TokenType, literal: Literal, overrideLine: Option<int>)
      modifies this`line, this`tokens
      ensures line == if overrideLine.Some? then overrideLine.value else old(line)
      ensures tokens == old(tokens) + [Token(kind, Substring(source, start, current), literal, line)]
    {
      var text := Substring(source, start, current);
      line := if overrideLine.Some? then overrideLine.value else line;
      tokens := tokens + [Token(kind, text, literal, line)];
    }

    /** `error(line, message)` (Lox.ts:28-30), recorded instead of printed. */
    method ReportError(at: int, message: string)
      modifies this`errors
      ensures errors == old(errors) + [Report(at, message)]
    {
      errors := errors + [Report(at, message)];
    }

    /**
     * The scanning loops `while (p(peek()) && !isAtEnd()) advance()` (scanner.ts:101,
     * 131, 134, 142, 180): consume the longest run of characters satisfying p. Where the
     * source leaves out the end test, p rejects the sentinel, so the test changes nothing.
     */
    method AdvanceWhile(p: char -> bool)
      requires current <= |source|
      modifies this`current, this`line
      ensures current == SpanWhile(source, old(current), p)
      ensures line == old(line) + Newlines(source[old(current)..current])
      ensures !p('\n') ==> line == old(line)
    {
      assert source[current..current] == [];
      while !IsAtEnd() && p(Peek())
        invariant old(current) <= current <= |source|
        invariant forall k :: old(current) <= k < current ==> p(source[k])
        invariant line == old(line) + Newlines(source[old(current)..current])
        invariant !p('\n') ==> line == old(line)
        decreases |source| - current
      {
        NewlinesExtend(source, old(current), current);
        var _ := Advance();
      }
      SpanWhileUnique(source, old(current), current, p);
    }

    /** `string` (scanner.ts:99-115), called just after the opening quote. */
    method ScanString()
      requires start < |source| && source[start] == '"' && current == start + 1
      modifies this`current, this`line, this`tokens, this`errors
      ensures var r := StringStep(source, old(start), old(line));
        current == r.next && line == r.line &&
        tokens == old(tokens) + Emitted(r.output) && errors == old(errors) + Reported(r.output)
    {
      var startLine := line;
      AdvanceWhile(NotQuote);
      ghost var close := current;
      if IsAtEnd() {
        assert StringStep(source, start, startLine) ==
          Step(ErrorOut(Report(line, UnterminatedString)), close, line);
        ReportError(line, UnterminatedString);
        return;
      }
      assert StringStep(source, start, startLine) ==
        Step(TokenOut(Token(String, source[start..close + 1], Str(source[start + 1..close]), startLine)),
             close + 1, startLine);
      var _ := Advance();
      var value := Substring(source, start + 1, current - 1);
      AddToken(String, Str(value), Some(startLine));
    }

    /**
     * The two digit loops of `number` (scanner.ts:131-136): the integer digits, then a
     * point and the fraction digits when a digit follows the point.
     */
    method AdvanceNumber()
      requires current <= |source|
      modifies this`current, this`line
      ensures current == NumberEnd(source, old(current)) && line == old(line)
    {
      AdvanceWhile(IsDigit);
      if Peek() == '.' && IsDigit(PeekNext()) {
        var _ := Advance();
        AdvanceWhile(IsDigit);
      }
    }

    /** `number` (scanner.ts:130-138), called just after the first digit. */
    method ScanNumber()
      requires start < |source| && IsDigit(source[start]) && current == start + 1
      modifies this`current, this`line, this`tokens, this`errors
      ensures var r := NumberStep(source, old(start), old(line));
        current == r.next && line == r.line &&
        tokens == old(tokens) + Emitted(r.output) && errors == old(errors) + Reported(r.output)
    {
      AdvanceNumber();
      NumberStepEnds(source, start, line);
      var value := Substring(source, start, current);
      AddToken(Number, Num(DecimalValue(value)), None);
    }

    /** `identifier` (scanner.ts:141-147), called just after the first letter. */
    method ScanIdentifier()
      requires start < |source| && IsAlpha(source[start]) && current == start + 1
      modifies this`current, this`line, this`tokens, this`errors
      ensures var r := IdentifierStep(source, old(start), old(line));
        current == r.next && line == r.line &&
        tokens == old(tokens) + Emitted(r.output) && errors == old(errors) + Reported(r.output)
    {
      AdvanceWhile(IsIdentChar);
      var text := Substring(source, start, current);
      AddToken(KeywordType(text), Null, None);
    }

    /**
     * `multilineComment` (scanner.ts:150-161), called just after the opening slash-star:
     * it stops where CommentEnd says, having counted the newlines it passed.
     */
    method MultilineComment()
      requires current <= |source|
      modifies this`current, this`line
      ensures var end := CommentEnd(source, old(current), 1).end;
        current == end && line == old(line) + Newlines(source[old(current)..Min(end, |source|)])
    {
      var nestingLevel: nat := 1;
      assert source[current..current] == [];
      while nestingLevel > 0 && !IsAtEnd()
        modifies this`current, this`line
        invariant old(current) <= current <= |source| + 1
        invariant CommentEnd(source, current, nestingLevel) == CommentEnd(source, old(current), 1)
        invariant line == old(line) + Newlines(source[old(current)..Min(current, |source|)])
        decreases |source| + 1 - current
      {
        var here := current;
        var closes := Match('*');
        if closes && Peek() == '/' {
          nestingLevel := nestingLevel - 1;
        } else {
          var opens := Match('/');
          if opens && Peek() == '*' {
            nestingLevel := nestingLevel + 1;
          }
        }
        CommentStepLines(source, old(current), here, current);
        var _ := Advance();
      }
    }

    /**
     * `scanToken` (scanner.ts:164-189) with `start == current`: one step of the scan, as
     * ScanOne defines it.
     */
    method ScanToken()
      requires start == current < |source|
      modifies this`current, this`line, this`tokens, this`errors
      ensures var r := ScanOne(source, old(current), old(line));
        current == r.next && line == r.line &&
        tokens == old(tokens) + Emitted(r.output) && errors == old(errors) + Reported(r.output)
    {
      ghost var here, onLine := current, line;
      var c := Advance();
      match RuleFor(c)
      case SingleRule(kind) =>
        AddToken(kind, Null, None);
      case OperatorRule(op) =>
        var matched := Match(op.next);
        AddToken(if matched then op.ifMatches else op.ifNotMatches, Null, None);
        assert ScanOne(source, here, onLine) == OperatorStep(source, here, onLine, op);
      case NumberRule =>
        ScanNumber();
        assert ScanOne(source, here, onLine) == NumberStep(source, here, onLine);
      case IdentifierRule =>
        ScanIdentifier();
        assert ScanOne(source, here, onLine) == IdentifierStep(source, here, onLine);
      case StringRule =>
        ScanString();
        assert ScanOne(source, here, onLine) == StringStep(source, here, onLine);
      case SlashRule =>
        ScanSlash();
        assert ScanOne(source, here, onLine) == SlashStep(source, here, onLine);
      case WhitespaceRule =>
      case UnexpectedRule =>
        ReportError(line, UnexpectedCharacter(c));
    }

    /** The `/` branch of `scanToken` (scanner.ts:178-185), called just after the `/`. */
    method ScanSlash()
      requires start < |source| && source[start] == '/' && current == start + 1
      modifies this`current, this`line, this`tokens, this`errors
      ensures var r := SlashStep(source, old(start), old(line));
        current == r.next && line == r.line &&
        tokens == old(tokens) + Emitted(r.output) && errors == old(errors) + Reported(r.output)
    {
      var lineComment := Match('/');
      if lineComment {
        AdvanceWhile(NotNewline);
      } else {
        var blockComment := Match('*');
        if blockComment {
          MultilineComment();
        } else {
          AddToken(Slash, Null, None);
        }
      }
    }

    /**
     * The driver loop and the final EOF token (scanner.ts:191-201): from any cursor, the
     * tokens and reports added are exactly those ScanFrom describes.
     */
    method Run()
      requires current <= |source| + 1
      modifies this
      ensures tokens == old(tokens) + ScanFrom(source, old(current), old(line)).tokens
      ensures errors == old(errors) + ScanFrom(source, old(current), old(line)).errors
      ensures |tokens| > 0 && tokens[|tokens| - 1] == EofToken(line)
    {
      while !IsAtEnd()
        invariant current <= |source| + 1
        invariant tokens + ScanFrom(source, current, line).tokens ==
          old(tokens) + ScanFrom(source, old(current), old(line)).tokens
        invariant errors + ScanFrom(source, current, line).errors ==
          old(errors) + ScanFrom(source, old(current), old(line)).errors
        decreases |source| + 1 - current
      {
        start := current;
        ScanFromStep(source, current, line, tokens, errors);
        ScanToken();
      }
      tokens := tokens + [EofToken(line)];
    }
  }

  /** The step of `number()` in terms of where it stops and the `substring` it takes. */
  lemma NumberStepEnds(s: string, start: nat, line: int)
    requires start < |s|
    ensures var end := NumberEnd(s, start + 1);
      var lexeme := Substring(s, start, end);
      NumberStep(s, start, line) == Step(TokenOut(Token(Number, lexeme, Num(DecimalValue(lexeme)), line)), end, line)
  {
  }


  /**
   * One pass of the comment loop moves the counter by the newline `advance` consumes:
   * the characters `match` consumes are `*` and `/`.
   */
  lemma CommentStepLines(s: string, from: nat, here: nat, matched: nat)
    requires from <= here < |s| && here <= matched <= here + 1
    requires matched == here + 1 ==> s[here] == '*' || s[here] == '/'
    ensures Newlines(s[from..Min(matched + 1, |s|)]) ==
      Newlines(s[from..here]) + (if matched < |s| && s[matched] == '\n' then 1 else 0)
  {
    if matched == here + 1 {
      NewlinesExtend(s, from, here);
    }
    if matched < |s| {
      NewlinesExtend(s, from, matched);
    }
  }

  /**
   * `scanTokens(source)` (scanner.ts:47-204): the token list it returns, and the reports
   * it makes, are those of the functional definition Scan.
   */
  method ScanTokens(source: string) returns (tokens: seq<Token>, errors: seq<Report>)
    ensures tokens == Scan(source).tokens && errors == Scan(source).errors
    ensures |tokens| > 0 && tokens[|tokens| - 1].kind == Eof
  {
    var scanner := new Scanner(source);
    scanner.Run();
    tokens, errors := scanner.tokens, scanner.errors;
    ScanShape(source, 0, 1);
  }
}
