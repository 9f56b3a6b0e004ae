/**
 * The static tables and character classes of the scanner (scanner.ts, lines 4-45 and
 * 117-121), together with the cursor-level helpers the scanning specification is built on:
 * lookahead with a sentinel, maximal runs of a character class, line counting, number
 * lexemes and keyword lookup.
 */
module Lexical {
  import opened Wrappers
  import opened Tokens

  /** Characters that always form a token of their own (scanner.ts:4-15), and their types. */
  function SingleCharToken(c: char): Option<TokenType>
  {
    match c
    case '(' => Some(LeftParen)
    case ')' => Some(RightParen)
    case '{' => Some(LeftBrace)
    case '}' => Some(RightBrace)
    case ',' => Some(Comma)
    case '.' => Some(Dot)
    case '-' => Some(Minus)
    case '+' => Some(Plus)
    case ';' => Some(Semicolon)
    case '*' => Some(Star)
    case _ => None
  }

  /**
   * The keyword record (scanner.ts:17-34): the token type of each reserved spelling, as
   * an exhaustive match over the sixteen spellings; every other string is not a key.
   */
  function Keywords(spelling: string): Option<TokenType>
  {
    match spelling
    case "and" => Some(And)
    case "class" => Some(Class)
    case "else" => Some(Else)
    case "false" => Some(False)
    case "for" => Some(For)
    case "fun" => Some(Fun)
    case "if" => Some(If)
    case "nil" => Some(Nil)
    case "or" => Some(Or)
    case "print" => Some(Print)
    case "return" => Some(Return)
    case "super" => Some(Super)
    case "this" => Some(This)
    case "true" => Some(True)
    case "var" => Some(Var)
    case "while" => Some(While)
    case _ => None
  }

  /** The character a two-character operator looks for, and the types with and without it. */
  datatype Conditional = Conditional(next: char, ifMatches: TokenType, ifNotMatches: TokenType)

  /** Characters whose token depends on the next one (scanner.ts:36-41). */
  function ConditionalToken(c: char): Option<Conditional>
  {
    match c
    case '!' => Some(Conditional('=', NotEqual, Not))
    case '=' => Some(Conditional('=', Equal, Gets))
    case '<' => Some(Conditional('=', LessEqual, Less))
    case '>' => Some(Conditional('=', GreaterEqual, Greater))
    case _ => None
  }

  /** The sentinel that lookahead yields at or past the end of the source. */
  const Sentinel: char := '\0'

  const UnterminatedString: string := "Unterminated string."

  function UnexpectedCharacter(c: char): string {
    "Unexpected character: " + [c]
  }

  // Character classes. Only ASCII letters start an identifier; `_` may only continue one.
  predicate IsAlpha(c: char) { 'A' <= c <= 'Z' || 'a' <= c <= 'z' }
  predicate IsDigit(c: char) { '0' <= c <= '9' }
  predicate IsIdentChar(c: char) { IsAlpha(c) || IsDigit(c) || c == '_' }
  predicate IsWhitespace(c: char) { c == ' ' || c == '\r' || c == '\t' || c == '\n' }
  predicate NotQuote(c: char) { c != '"' }
  predicate NotNewline(c: char) { c != '\n' }

  function Min(a: int, b: int): int { if a <= b then a else b }

  /**
   * The single-character table has ten keys, each with its own punctuation type, and none
   * of its keys also has a two-form operator.
   */
  lemma SingleCharTable(c: char, d: char)
    ensures SingleCharToken(c).Some? <==> c in "(){},.-+;*"
    ensures SingleCharToken(c).Some? && SingleCharToken(c) == SingleCharToken(d) ==> c == d
    ensures SingleCharToken(c).Some? ==>
      var k := SingleCharToken(c).value;
      !k.IsKeyword() && k !in {Identifier, String, Number, Eof} && ConditionalToken(c).None?
  {
  }

  /**
   * Each of the keyword table's sixteen spellings is an identifier lexeme and gets a
   * keyword type.
   */
  lemma KeywordTable(spelling: string)
    ensures Keywords(spelling).Some? ==>
      Keywords(spelling).value.IsKeyword() && IsIdentifierLexeme(spelling)
  {
  }

  /** No two spellings of the keyword table share a type. */
  lemma KeywordTableInjective(spelling: string, other: string)
    ensures Keywords(spelling).Some? && Keywords(spelling) == Keywords(other) ==> spelling == other
  {
  }

  /** Every keyword type has a spelling in the keyword table. */
  lemma KeywordTableCoversKeywords(k: TokenType)
    ensures k.IsKeyword() ==> exists sp :: Keywords(sp) == Some(k)
  {
    match k
    case And => assert Keywords("and") == Some(k);
    case Class => assert Keywords("class") == Some(k);
    case Else => assert Keywords("else") == Some(k);
    case False => assert Keywords("false") == Some(k);
    case Fun => assert Keywords("fun") == Some(k);
    case For => assert Keywords("for") == Some(k);
    case If => assert Keywords("if") == Some(k);
    case Nil => assert Keywords("nil") == Some(k);
    case Or => assert Keywords("or") == Some(k);
    case Print => assert Keywords("print") == Some(k);
    case Return => assert Keywords("return") == Some(k);
    case Super => assert Keywords("super") == Some(k);
    case This => assert Keywords("this") == Some(k);
    case True => assert Keywords("true") == Some(k);
    case Var => assert Keywords("var") == Some(k);
    case While => assert Keywords("while") == Some(k);
    case _ =>
  }

  /**
   * The operator table has four keys; each looks for `=`, and its two types differ and
   * are neither keywords nor literal kinds.
   */
  lemma ConditionalTable(c: char)
    ensures ConditionalToken(c).Some? <==> c in "!=<>"
    ensures ConditionalToken(c).Some? ==>
      var op := ConditionalToken(c).value;
      op.next == '=' && op.ifMatches != op.ifNotMatches &&
      !op.ifMatches.IsKeyword() && !op.ifNotMatches.IsKeyword() &&
      op.ifMatches !in {Identifier, String, Number, Eof} && op.ifNotMatches !in {Identifier, String, Number, Eof}
  {
  }

  /**
   * Digits and letters are disjoint and both continue an identifier; the only other
   * character that does is `_`. No identifier character is a table key, whitespace, a
   * quote or a slash, so `scanToken` routes each of them to `number` or `identifier`.
   */
  lemma CharacterClasses(c: char)
    ensures IsDigit(c) ==> !IsAlpha(c) && IsIdentChar(c)
    ensures IsAlpha(c) ==> IsIdentChar(c)
    ensures IsIdentChar(c) && !IsAlpha(c) && !IsDigit(c) ==> c == '_'
    ensures IsIdentChar(c) ==>
      SingleCharToken(c).None? && ConditionalToken(c).None? &&
      !IsWhitespace(c) && c != '"' && c != '/' && c != Sentinel
  {
  }

  /** Lookahead at index i: the character there, or the sentinel at or past the end. */
  function CharAt(s: string, i: nat): char
  {
    if i < |s| then s[i] else Sentinel
  }

  /**
   * JavaScript's `substring`: both indices are clamped to the length, and they are
   * swapped when the first exceeds the second.
   */
  function Substring(s: string, a: nat, b: nat): (t: string)
    ensures a <= b <= |s| ==> t == s[a..b]
    ensures b < a <= |s| ==> t == s[b..a]
    ensures a <= |s| < b ==> t == s[a..]
    ensures |s| <= a && |s| <= b ==> t == []
    ensures |t| <= |s|
  {
    var lo := Min(Min(a, b), |s|);
    var hi := Min(if a <= b then b else a, |s|);
    s[lo..hi]
  }

  /**
   * The index where a loop `while p(peek()) advance()` started at i stops: the end of
   * the longest run of characters satisfying p that starts at i (see SpanWhileRun).
   */
  function SpanWhile(s: string, i: nat, p: char -> bool): (j: nat)
    requires i <= |s|
    ensures i <= j <= |s|
    decreases |s| - i
  {
    if i == |s| || !p(s[i]) then i else SpanWhile(s, i + 1, p)
  }

  /** Every character the run passes satisfies p, and the one it stops at does not. */
  lemma {:induction false} SpanWhileRun(s: string, i: nat, p: char -> bool)
    requires i <= |s|
    ensures forall k :: i <= k < SpanWhile(s, i, p) ==> p(s[k])
    ensures SpanWhile(s, i, p) == |s| || !p(s[SpanWhile(s, i, p)])
    decreases |s| - i
  {
    if i < |s| && p(s[i]) {
      SpanWhileRun(s, i + 1, p);
    }
  }

  /** The end of a run is determined by the run's two properties. */
  lemma {:induction false} SpanWhileUnique(s: string, i: nat, j: nat, p: char -> bool)
    requires i <= j <= |s|
    requires forall k :: i <= k < j ==> p(s[k])
    requires j == |s| || !p(s[j])
    ensures SpanWhile(s, i, p) == j
    decreases j - i
  {
    if i < j {
      SpanWhileUnique(s, i + 1, j, p);
    }
  }

  /** Number of newline characters in t: how far `advance` moves the line counter over t. */
  function Newlines(t: string): nat
  {
    if t == [] then 0 else Newlines(t[..|t| - 1]) + (if t[|t| - 1] == '\n' then 1 else 0)
  }

  lemma {:induction false} NewlinesAppend(t: string, u: string)
    ensures Newlines(t + u) == Newlines(t) + Newlines(u)
    decreases |u|
  {
    if u != [] {
      assert (t + u)[..|t + u| - 1] == t + u[..|u| - 1];
      NewlinesAppend(t, u[..|u| - 1]);
    } else {
      assert t + u == t;
    }
  }

  /** Counting newlines over adjacent slices adds up. */
  lemma NewlinesSplit(s: string, a: nat, b: nat, c: nat)
    requires a <= b <= c <= |s|
    ensures Newlines(s[a..c]) == Newlines(s[a..b]) + Newlines(s[b..c])
  {
    assert s[a..c] == s[a..b] + s[b..c];
    NewlinesAppend(s[a..b], s[b..c]);
  }

  /** Consuming one more character moves the count by one exactly when it is a newline. */
  lemma NewlinesExtend(s: string, a: nat, b: nat)
    requires a <= b < |s|
    ensures Newlines(s[a..b + 1]) == Newlines(s[a..b]) + (if s[b] == '\n' then 1 else 0)
  {
    assert s[a..b + 1][..b - a] == s[a..b];
  }

  /** A stretch without newline characters leaves the count unchanged. */
  lemma {:induction false} NewlinesFree(s: string, a: nat, b: nat)
    requires a <= b <= |s|
    requires forall k :: a <= k < b ==> s[k] != '\n'
    ensures Newlines(s[a..b]) == 0
    decreases b - a
  {
    if a < b {
      NewlinesFree(s, a, b - 1);
      NewlinesExtend(s, a, b - 1);
    } else {
      assert s[a..b] == [];
    }
  }

  predicate AllDigits(t: string) { forall k :: 0 <= k < |t| ==> IsDigit(t[k]) }

  /** A number lexeme: digits, optionally followed by a `.` and at least one more digit. */
  ghost predicate IsNumberLexeme(t: string) {
    (|t| > 0 && AllDigits(t)) ||
    exists k :: 0 < k < |t| - 1 && t[k] == '.' && AllDigits(t[..k]) && AllDigits(t[k + 1..])
  }

  /**
   * Where `number()` stops when called with the cursor at i, just after the first digit
   * (scanner.ts:130-137): digits, then a `.` only if a digit follows it, then digits.
   */
  function NumberEnd(s: string, i: nat): (end: nat)
    requires i <= |s|
    ensures i <= end <= |s|
  {
    var d := SpanWhile(s, i, IsDigit);
    if CharAt(s, d) == '.' && IsDigit(CharAt(s, d + 1)) then SpanWhile(s, d + 1, IsDigit) else d
  }

  /**
   * What `number()` consumes is a number lexeme, and the longest one there: it stops at a
   * non-digit, and it leaves no point-and-digit behind an integer part.
   */
  lemma NumberEndIsLongestNumber(s: string, i: nat)
    requires 0 < i <= |s| && IsDigit(s[i - 1])
    ensures IsNumberLexeme(s[i - 1..NumberEnd(s, i)])
    ensures forall k :: i - 1 <= k < NumberEnd(s, i) ==> IsDigit(s[k]) || s[k] == '.'
    ensures !IsDigit(CharAt(s, NumberEnd(s, i)))
    ensures CharAt(s, NumberEnd(s, i)) == '.' && IsDigit(CharAt(s, NumberEnd(s, i) + 1)) ==>
      !AllDigits(s[i - 1..NumberEnd(s, i)])
  {
    var d := SpanWhile(s, i, IsDigit);
    SpanWhileRun(s, i, IsDigit);
    if CharAt(s, d) == '.' && IsDigit(CharAt(s, d + 1)) {
      var e := SpanWhile(s, d + 1, IsDigit);
      SpanWhileRun(s, d + 1, IsDigit);
      assert NumberEnd(s, i) == e;
      PointedNumberLexeme(s, i - 1, d, e);
    } else {
      assert NumberEnd(s, i) == d;
      assert AllDigits(s[i - 1..d]);
    }
  }

  /** Digits, a point, and digits again make a number lexeme that is not all digits. */
  lemma PointedNumberLexeme(s: string, from: nat, point: nat, end: nat)
    requires from < point && point + 1 < end <= |s| && s[point] == '.'
    requires forall k :: from <= k < point ==> IsDigit(s[k])
    requires forall k :: point < k < end ==> IsDigit(s[k])
    ensures IsNumberLexeme(s[from..end]) && !AllDigits(s[from..end])
  {
    var t := s[from..end];
    assert t[..point - from] == s[from..point];
    assert t[point - from + 1..] == s[point + 1..end];
    assert t[point - from] == '.';
  }

  /** Value of a string of decimal digits, each counted by its distance from `0`. */
  function DigitsValue(t: string): int
  {
    if t == [] then 0 else DigitsValue(t[..|t| - 1]) * 10 + (t[|t| - 1] as int - '0' as int)
  }

  function Pow10(n: nat): (p: nat)
    ensures p > 0
  {
    if n == 0 then 1 else 10 * Pow10(n - 1)
  }

  /** Value of the digits d written after a decimal point, that is of `0.d`. */
  function FractionValue(d: string): real
  {
    if d == [] then 0.0 else ((d[0] as int - '0' as int) as real + FractionValue(d[1..])) / 10.0
  }

  /**
   * The exact value a number lexeme denotes (what `parseFloat` approximates): the digits
   * before the first non-digit, plus the fraction after it.
   */
  function DecimalValue(t: string): real
  {
    var k := SpanWhile(t, 0, IsDigit);
    DigitsValue(t[..k]) as real + (if k + 1 >= |t| then 0.0 else FractionValue(t[k + 1..]))
  }

  /** The leading digit of d counts its place value. */
  lemma {:induction false} DigitsValueFront(d: string)
    requires |d| > 0
    ensures DigitsValue(d) == (d[0] as int - '0' as int) * Pow10(|d| - 1) + DigitsValue(d[1..])
    decreases |d|
  {
    if |d| == 1 {
      assert d[..0] == [] && d[1..] == [];
    } else {
      var e := d[..|d| - 1];
      DigitsValueFront(e);
      assert e[0] == d[0] && e[1..] == d[1..][..|d| - 2];
      assert Pow10(|d| - 1) == 10 * Pow10(|d| - 2);
      assert (d[0] as int - '0' as int) * Pow10(|d| - 1) == (d[0] as int - '0' as int) * Pow10(|d| - 2) * 10;
    }
  }

  /** A fraction's digits denote their integer value scaled down by ten per digit. */
  lemma {:induction false} FractionValueScales(d: string)
    ensures FractionValue(d) == DigitsValue(d) as real / Pow10(|d|) as real
    decreases |d|
  {
    if d != [] {
      FractionValueScales(d[1..]);
      DigitsValueFront(d);
      var x := d[0] as int - '0' as int;
      var y := DigitsValue(d[1..]);
      var p := Pow10(|d| - 1);
      assert Pow10(|d|) == 10 * p;
      ShiftPoint(x, y, p, FractionValue(d), DigitsValue(d), Pow10(|d|));
    }
  }

  /** Moving the point one place: (x + y / p) / 10 is (x p + y) / (10 p). */
  lemma ShiftPoint(x: int, y: int, p: int, fraction: real, digits: int, scale: int)
    requires p > 0 && fraction == (x as real + y as real / p as real) / 10.0
    requires digits == x * p + y && scale == 10 * p
    ensures fraction == digits as real / scale as real
  {
    assert (x * p) as real == x as real * p as real;
    assert digits as real == (x as real + y as real / p as real) * p as real;
  }

  /** The decimal value of `a.b` is a plus b scaled by the number of fraction digits. */
  lemma DecimalValueOfParts(a: string, b: string)
    requires |a| > 0 && AllDigits(a) && AllDigits(b)
    ensures IsNumberLexeme(a)
    ensures DecimalValue(a) == DigitsValue(a) as real
    ensures |b| > 0 ==> IsNumberLexeme(a + "." + b)
    ensures |b| > 0 ==>
      DecimalValue(a + "." + b) == DigitsValue(a) as real + DigitsValue(b) as real / Pow10(|b|) as real
  {
    SpanWhileUnique(a, 0, |a|, IsDigit);
    assert a[..|a|] == a;
    if |b| > 0 {
      FractionValueScales(b);
      var t := a + "." + b;
      assert t[..|a|] == a && t[|a| + 1..] == b && t[|a|] == '.';
      assert forall j :: 0 <= j < |a| ==> IsDigit(t[j]);
      SpanWhileUnique(t, 0, |a|, IsDigit);
    }
  }

  /** A lexeme that `identifier()` can produce: an ASCII letter, then identifier characters. */
  predicate IsIdentifierLexeme(t: string) {
    |t| > 0 && IsAlpha(t[0]) && forall k :: 0 <= k < |t| ==> IsIdentChar(t[k])
  }

  /**
   * The token type of an identifier lexeme (scanner.ts:144-145): its keyword-record entry,
   * or IDENTIFIER. This is the lookup as the record intends it; see KeywordLookupAsWritten.
   */
  function KeywordType(id: string): (r: TokenType)
    ensures r == Identifier || r.IsKeyword()
  {
    match Keywords(id)
    case Some(t) => t
    case None => Identifier
  }

  /** Reserved spellings get keyword types, every other identifier gets IDENTIFIER. */
  lemma KeywordTypeClassifies(id: string)
    ensures KeywordType(id).IsKeyword() <==> Keywords(id).Some?
    ensures KeywordType(id) == Identifier <==> Keywords(id).None?
  {
  }

  /** Property names every JavaScript object literal inherits from Object.prototype. */
  const InheritedMembers: set<string> := {
    "constructor", "hasOwnProperty", "isPrototypeOf", "propertyIsEnumerable",
    "toLocaleString", "toString", "valueOf", "__defineGetter__", "__defineSetter__",
    "__lookupGetter__", "__lookupSetter__", "__proto__"
  }

  /** What `keywords[identifier]` yields: a token type, or an inherited property's value. */
  datatype KeywordLookup = TypeTag(kind: TokenType) | InheritedValue(name: string)

  /**
   * The lookup as written at scanner.ts:144-145: JavaScript's `in` also sees the
   * properties the keyword object inherits, and indexing then yields that property's value
   * (a function), which is not a token type at all.
   */
  function KeywordLookupAsWritten(id: string): (r: KeywordLookup)
    ensures r.InheritedValue? <==> Keywords(id).None? && id in InheritedMembers
  {
    match Keywords(id)
    case Some(t) => TypeTag(t)
    case None => if id in InheritedMembers then InheritedValue(id) else TypeTag(Identifier)
  }

  /** The identifier `toString` is scanned with a type that is no token type. */
  lemma InheritedMemberLeaksIntoTokenType()
    ensures IsIdentifierLexeme("toString")
    ensures KeywordLookupAsWritten("toString") == InheritedValue("toString")
    ensures KeywordType("toString") == Identifier
  {
  }

  /** Off the inherited property names, the lookup as written and the intended one agree. */
  lemma LookupAgreesOffInheritedNames(id: string)
    requires id !in InheritedMembers
    ensures KeywordLookupAsWritten(id) == TypeTag(KeywordType(id))
  {
  }
}
