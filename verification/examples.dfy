/**
 * The scanner's own test cases (scanner.test.ts) and the behaviours its documentation
 * singles out, as facts about Scan.
 */
module Examples {
  import opened Tokens
  import opened Lexical
  import opened ScanSpec

  function Tok(kind: TokenType, lexeme: string, line: int): Token {
    Token(kind, lexeme, Null, line)
  }

  /** `.!.`: single characters, and `!` without a following `=`. */
  lemma DotNotDot()
    ensures Scan(".!.") ==
      ScanResult([Tok(Dot, ".", 1), Tok(Not, "!", 1), Tok(Dot, ".", 1), EofToken(1)], [])
  {
    var s := ".!.";
    assert ScanFrom(s, 3, 1) == ScanResult([EofToken(1)], []);
    assert s[2..3] == "." && s[1..2] == "!" && s[0..1] == ".";
    assert ScanOne(s, 2, 1) == Step(TokenOut(Tok(Dot, ".", 1)), 3, 1);
    assert ScanFrom(s, 2, 1) == ScanResult([Tok(Dot, ".", 1), EofToken(1)], []);
    assert ScanOne(s, 1, 1) == Step(TokenOut(Tok(Not, "!", 1)), 2, 1);
    assert ScanFrom(s, 1, 1) == ScanResult([Tok(Not, "!", 1), Tok(Dot, ".", 1), EofToken(1)], []);
    assert ScanOne(s, 0, 1) == Step(TokenOut(Tok(Dot, ".", 1)), 1, 1);
  }

  /** `==!` and `!==`: a following `=` is taken greedily, once. */
  lemma GreedyEquals()
    ensures Scan("==!") == ScanResult([Tok(Equal, "==", 1), Tok(Not, "!", 1), EofToken(1)], [])
    ensures Scan("!==") == ScanResult([Tok(NotEqual, "!=", 1), Tok(Gets, "=", 1), EofToken(1)], [])
  {
    var s := "==!";
    assert s[0..2] == "==" && s[2..3] == "!";
    assert ScanOne(s, 2, 1) == Step(TokenOut(Tok(Not, "!", 1)), 3, 1);
    assert ScanFrom(s, 2, 1) == ScanResult([Tok(Not, "!", 1), EofToken(1)], []);
    assert ScanOne(s, 0, 1) == Step(TokenOut(Tok(Equal, "==", 1)), 2, 1);
    var t := "!==";
    assert t[0..2] == "!=" && t[2..3] == "=";
    assert ScanOne(t, 2, 1) == Step(TokenOut(Tok(Gets, "=", 1)), 3, 1);
    assert ScanFrom(t, 2, 1) == ScanResult([Tok(Gets, "=", 1), EofToken(1)], []);
    assert ScanOne(t, 0, 1) == Step(TokenOut(Tok(NotEqual, "!=", 1)), 2, 1);
  }

  /** `.!//@.!`: a line comment hides the rest of the line. */
  lemma LineCommentHidesRest()
    ensures Scan(".!//@.!") == ScanResult([Tok(Dot, ".", 1), Tok(Not, "!", 1), EofToken(1)], [])
  {
    var s := ".!//@.!";
    assert s[0..1] == "." && s[1..2] == "!";
    assert SpanWhile(s, 4, NotNewline) == 7;
    assert ScanOne(s, 2, 1) == Step(NoOutput, 7, 1);
    assert ScanFrom(s, 2, 1) == ScanResult([EofToken(1)], []);
    assert ScanOne(s, 1, 1) == Step(TokenOut(Tok(Not, "!", 1)), 2, 1);
    assert ScanOne(s, 0, 1) == Step(TokenOut(Tok(Dot, ".", 1)), 1, 1);
  }

  /** The characters of the whitespace test case `. \t   !  \r / \n  //@.!`, one by one. */
  predicate WhitespaceTestShape(s: string) {
    |s| == 21 &&
    s[0] == '.' && s[1] == ' ' && s[2] == '\t' && s[3] == ' ' && s[4] == ' ' && s[5] == ' ' &&
    s[6] == '!' && s[7] == ' ' && s[8] == ' ' && s[9] == '\r' && s[10] == ' ' &&
    s[11] == '/' && s[12] == ' ' && s[13] == '\n' && s[14] == ' ' && s[15] == ' ' &&
    s[16] == '/' && s[17] == '/' && s[18] == '@' && s[19] == '.' && s[20] == '!'
  }

  /** After the lone `/`: a blank, the newline, two blanks and a line comment to the end. */
  lemma WhitespaceTestTail(s: string)
    requires WhitespaceTestShape(s)
    ensures ScanFrom(s, 12, 1) == ScanResult([EofToken(2)], [])
  {
    BlanksSkipped(s, 12, 13, 1);
    WhitespaceSkipped(s, 13, 1);
    BlanksSkipped(s, 14, 16, 2);
    SpanWhileUnique(s, 18, 21, NotNewline);
    LineCommentSkipped(s, 16, 2);
  }

  /** From the `!`: NOT, blanks, and a `/` followed by a blank, which is SLASH. */
  lemma WhitespaceTestMiddle(s: string)
    requires WhitespaceTestShape(s)
    ensures ScanFrom(s, 6, 1) == ScanResult([Tok(Not, "!", 1), Tok(Slash, "/", 1), EofToken(2)], [])
  {
    WhitespaceTestTail(s);
    LoneSlash(s, 11, 1);
    BlanksSkipped(s, 7, 11, 1);
    assert s[6..7] == "!";
    GreedyOperator(s, 6, 1);
  }

  /** The whole scan of a source with the characters of the whitespace test case. */
  lemma WhitespaceTestFrom(s: string)
    requires WhitespaceTestShape(s)
    ensures ScanFrom(s, 0, 1) ==
      ScanResult([Tok(Dot, ".", 1), Tok(Not, "!", 1), Tok(Slash, "/", 1), EofToken(2)], [])
  {
    WhitespaceTestMiddle(s);
    BlanksSkipped(s, 1, 6, 1);
    assert [s[0]] == ".";
    SingleRuleStep(s, 0, 1);
    ScanFromByStep(s, 0, 1, ScanOne(s, 0, 1));
  }

  /**
   * Spaces, tabs and carriage returns between tokens emit nothing; a lone `/` is SLASH; the
   * newline moves the counter, so the EOF token after the closing line comment is on line 2.
   */
  lemma SkipsWhitespace()
    ensures Scan(". \t   !  \r / \n  //@.!") ==
      ScanResult([Tok(Dot, ".", 1), Tok(Not, "!", 1), Tok(Slash, "/", 1), EofToken(2)], [])
  {
    var s := ". \t   !  \r / \n  //@.!";
    assert WhitespaceTestShape(s);
    WhitespaceTestFrom(s);
  }

  /** A line comment runs to the end of the line, and a newline moves to the next line. */
  lemma CommentThenNewline()
    ensures Scan(".//@\n!") == ScanResult([Tok(Dot, ".", 1), Tok(Not, "!", 2), EofToken(2)], [])
  {
    var s := ".//@\n!";
    assert s[0..1] == "." && s[5..6] == "!";
    assert ScanOne(s, 5, 2) == Step(TokenOut(Tok(Not, "!", 2)), 6, 2);
    assert ScanFrom(s, 5, 2) == ScanResult([Tok(Not, "!", 2), EofToken(2)], []);
    assert ScanOne(s, 4, 1) == Step(NoOutput, 5, 2);
    assert SpanWhile(s, 3, NotNewline) == 4;
    assert ScanOne(s, 1, 1) == Step(NoOutput, 4, 1);
    assert ScanOne(s, 0, 1) == Step(TokenOut(Tok(Dot, ".", 1)), 1, 1);
  }

  /**
   * A string spanning two lines is a token on its opening line, and the counter is put
   * back there: the EOF token after it is on line 1 too.
   */
  lemma MultilineStringRewindsLine()
    ensures Scan("\"one\ntwo\"") ==
      ScanResult([Token(String, "\"one\ntwo\"", Str("one\ntwo"), 1), EofToken(1)], [])
  {
    var s := "\"one\ntwo\"";
    assert SpanWhile(s, 1, NotQuote) == 8;
    assert s[0..9] == "\"one\ntwo\"" && s[1..8] == "one\ntwo";
    assert ScanOne(s, 0, 1) == Step(TokenOut(Token(String, "\"one\ntwo\"", Str("one\ntwo"), 1)), 9, 1);
  }

  /**
   * A string with no closing quote is reported once, on the line where the source ends,
   * and yields no token.
   */
  lemma UnterminatedStringReported()
    ensures Scan("\"a\n") == ScanResult([EofToken(2)], [Report(2, UnterminatedString)])
  {
    var s := "\"a\n";
    assert SpanWhile(s, 1, NotQuote) == 3;
    assert s[1..3] == "a\n";
    assert Newlines("a\n") == 1 by {
      assert "a\n"[..1] == "a";
      assert "a"[..0] == [];
    }
    assert ScanOne(s, 0, 1) == Step(ErrorOut(Report(2, UnterminatedString)), 3, 2);
  }

  /** `12.` is the number 12 followed by a dot: a point is taken only before a digit. */
  lemma TrailingPointIsADot()
    ensures Scan("12.") ==
      ScanResult([Token(Number, "12", Num(12.0), 1), Tok(Dot, ".", 1), EofToken(1)], [])
  {
    var s := "12.";
    assert SpanWhile(s, 1, IsDigit) == 2;
    assert NumberEnd(s, 1) == 2;
    assert s[0..2] == "12" && s[2..3] == ".";
    assert SpanWhile("12", 0, IsDigit) == 2;
    assert "12"[..2] == "12" && "12"[..1] == "1" && "1"[..0] == [];
    assert DecimalValue("12") == 12.0;
    assert ScanOne(s, 2, 1) == Step(TokenOut(Tok(Dot, ".", 1)), 3, 1);
    assert ScanFrom(s, 2, 1) == ScanResult([Tok(Dot, ".", 1), EofToken(1)], []);
    assert ScanOne(s, 0, 1) == Step(TokenOut(Token(Number, "12", Num(12.0), 1)), 2, 1);
  }

  /** A leading underscore is reported and skipped; the letters after it are an identifier. */
  lemma LeadingUnderscore()
    ensures Scan("_x") ==
      ScanResult([Tok(Identifier, "x", 1), EofToken(1)], [Report(1, "Unexpected character: _")])
  {
    var s := "_x";
    assert SpanWhile(s, 2, IsIdentChar) == 2;
    assert s[1..2] == "x";
    assert ScanOne(s, 1, 1) == Step(TokenOut(Tok(Identifier, "x", 1)), 2, 1);
    assert ScanFrom(s, 1, 1) == ScanResult([Tok(Identifier, "x", 1), EofToken(1)], []);
    assert UnexpectedCharacter('_') == "Unexpected character: _";
    assert ScanOne(s, 0, 1) == Step(ErrorOut(Report(1, "Unexpected character: _")), 1, 1);
  }

  /** An unclosed comment swallows the rest of the source without a report. */
  lemma UnclosedCommentIsSilent()
    ensures Scan("/**") == ScanResult([EofToken(1)], [])
  {
    var s := "/**";
    assert CommentEnd(s, 2, 1) == CommentStop(4, 1);
    assert s[2..3] == "*";
    assert Newlines("*") == 0;
    assert ScanOne(s, 0, 1) == Step(NoOutput, 4, 1);
  }

  /** The literals of the number test: `12.43` denotes exactly 12.43 ... */
  lemma NumberValueWithTwoDecimals()
    ensures DecimalValue("12.43") == 12.43
  {
    var t := "12.43";
    assert SpanWhile(t, 0, IsDigit) == 2;
    assert t[..2] == "12" && "12"[..1] == "1" && "1"[..0] == [];
    assert DigitsValue("12") == 12;
    assert t[3..] == "43" && "43"[1..] == "3" && "3"[1..] == [];
    assert FractionValue("43") == 0.43;
  }

  /** ... and `130.001` exactly 130.001. */
  lemma NumberValueWithLeadingZeroDecimals()
    ensures DecimalValue("130.001") == 130.001
  {
    var t := "130.001";
    assert SpanWhile(t, 0, IsDigit) == 3;
    assert t[..3] == "130" && "130"[..2] == "13" && "13"[..1] == "1" && "1"[..0] == [];
    assert DigitsValue("130") == 130;
    assert t[4..] == "001" && "001"[1..] == "01" && "01"[1..] == "1" && "1"[1..] == [];
    assert FractionValue("001") == 0.001;
  }
}
