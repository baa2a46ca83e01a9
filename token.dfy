/** An optional value: Python's `None` or a present value. */
module Options {
  datatype Option<T> = None | Some(value: T)
}

/** Tokens produced by the scanner (token.py). */
module Tokens {

  import opened Options

  /** The five token kinds the scanner emits, spelled as in the source's type strings. */
  datatype TokenType = ID | CONST | KEY | SS | INVALID

  /** scanner.py:5-10; the enumeration's integer codes are not used by the core. */
  datatype LexicalError =
    | InvalidSyntax
    | InvalidIdentifier
    | InvalidConstant
    | UnrecognizedSymbol
    | MultipleDecimals

  datatype Token = Token(lexeme: string, tokenType: TokenType, lineNum: int, lexicalError: Option<LexicalError>)

  /** The constructor of token.py: stores its three arguments, and no error yet. */
  function MakeToken(lexeme: string, tokenType: TokenType, lineNum: int): (t: Token)
    ensures t.lexeme == lexeme && t.tokenType == tokenType && t.lineNum == lineNum
    ensures t.lexicalError == None
  {
    Token(lexeme, tokenType, lineNum, None)
  }

  /** An INVALID token: construction followed by the scanner's assignment of `lexicalError` (scanner.py:107-108). */
  function MakeInvalid(lexeme: string, lineNum: int, e: LexicalError): (t: Token)
    ensures t.lexeme == lexeme && t.tokenType == INVALID && t.lineNum == lineNum
    ensures t.lexicalError == Some(e)
  {
    MakeToken(lexeme, INVALID, lineNum).(lexicalError := Some(e))
  }

  /** The invariant every scanner token keeps: it is on the given line, and it carries an error exactly when it is INVALID. */
  predicate WellTagged(t: Token, line: int)
  {
    t.lineNum == line && (t.tokenType == INVALID <==> t.lexicalError.Some?)
  }
}
