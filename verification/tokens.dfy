/**
 * The token vocabulary of the scanner (Token.ts).
 *
 * Each constructor of TokenType is the member of the source's closed string union with
 * the same name written in PascalCase (LEFT_PAREN is LeftParen, EOF is Eof, ...).
 */
module Tokens {

  datatype TokenType =
    // Brackets
    | LeftParen | RightParen | LeftBrace | RightBrace
    // Punctuation
    | Comma | Dot | Minus | Plus | Semicolon | Slash | Star
    // Comparison and assignment
    | Not | NotEqual | Equal | Greater | GreaterEqual | Less | LessEqual | Gets
    // Literal kinds
    | Identifier | String | Number
    // Keywords
    | And | Class | Else | False | Fun | For | If | Nil | Or | Print | Return
    | Super | This | True | Var | While
    // End of input
    | Eof
  {
    /** The keyword members of the union (TokenKeyword in the source). */
    predicate IsKeyword() {
      And? || Class? || Else? || False? || Fun? || For? || If? || Nil? || Or? || Print? ||
      Return? || Super? || This? || True? || Var? || While?
    }
  }

  /**
   * The decoded value a token carries: Null for every token but STRING and NUMBER.
   * A number's value is the exact decimal the lexeme denotes (the source converts it to
   * a binary floating-point value; that rounding is not modelled).
   */
  datatype Literal = Null | Str(text: string) | Num(value: real)

  /** The token record; the source's field `type` is called `kind` here. */
  datatype Token = Token(kind: TokenType, lexeme: string, literal: Literal, line: int)

  /** The end-of-input token the scanner always appends last. */
  function EofToken(line: int): Token
  {
    Token(Eof, "", Null, line)
  }
}
