/** The `Scanner` class of scanner.py. The source file becomes the string `source` and the stream position `pos`;
    `read(1)`, `readline()` and `seek(tell() - 1)` are the only ways the methods touch them. Each method is proved
    to leave exactly the state its function in `Lexer` describes. */
module Scanning {

  import opened Options
  import opened Tokens
  import opened Lexicon
  import opened Lexer

  class Scanner {
    /** The decoded text of the source file. */
    const source: string
    /** The stream position, `tell()`. */
    var pos: nat
    var lineNum: int
    /** The characters read for the current unit. */
    var lexeme: string
    var tokens: seq<Token>
    var lexicalError: Option<LexicalError>

    /** scanner.py:17-22, with the opened file given as its contents. */
    constructor (source: string)
      ensures this.source == source && pos == 0 && lineNum == 1
      ensures lexeme == "" && tokens == [] && lexicalError == None
    {
      this.source := source;
      pos := 0;
      lineNum := 1;
      lexeme := "";
      tokens := [];
      lexicalError := None;
    }

    /** `read(1)`. */
    method Read() returns (c: string)
      requires pos <= |source|
      modifies this`pos
      ensures c == Ch(source, old(pos)) && pos == Next(source, old(pos))
    {
      if pos < |source| {
        c := [source[pos]];
        pos := pos + 1;
      } else {
        c := "";
      }
    }

    /** `read(1)` followed by `lexeme += char`, the step every block state begins with. */
    method ReadOn(ghost start: nat) returns (c: string)
      requires start <= pos <= |source| && lexeme == source[start..pos]
      modifies this`pos, this`lexeme
      ensures c == Ch(source, old(pos)) && pos == Next(source, old(pos))
      ensures lexeme == source[start..pos]
    {
      c := Read();
      if c != "" {
        assert source[start..pos] == source[start..pos - 1] + [source[pos - 1]];
      }
      lexeme := lexeme + c;
    }

    /** `getNextValidChar` (scanner.py:24-42): skips blanks, line breaks and `#` comments, counting lines, and
        returns the first other character ("" at the end of the input). */
    method GetNextValidChar() returns (c: string)
      requires pos <= |source|
      modifies this`pos, this`lineNum
      ensures c == Ch(source, SkipSpec(source, old(pos), old(lineNum)).0)
      ensures pos == Next(source, SkipSpec(source, old(pos), old(lineNum)).0)
      ensures lineNum == SkipSpec(source, old(pos), old(lineNum)).1
    {
      ghost var q := pos;
      c := Read();
      while c == "\t" || c == " " || c == "\n" || c == "\r" || c == "#"
        invariant q <= |source| && c == Ch(source, q) && pos == Next(source, q)
        invariant SkipSpec(source, old(pos), old(lineNum)) == SkipSpec(source, q, lineNum)
        decreases |source| - q
      {
        if c == "\t" || c == " " {
          q := pos;
          c := Read();
        } else if c == "\n" || c == "\r" {
          lineNum := lineNum + 1;
          q := pos;
          c := Read();
        } else {
          pos := LineEnd(source, pos);  // readline()
          lineNum := lineNum + 1;
          q := pos;
          c := Read();
        }
      }
    }

    /** `invalidToken` (scanner.py:128-143), with the error already recorded in `lexicalError`. */
    method InvalidToken(ghost start: nat)
      requires start < pos <= |source| && lexeme == source[start..pos] && lexicalError.Some?
      modifies this`pos, this`lexeme, this`tokens
      ensures var r := InvalidSpec(source, start, old(pos), lineNum, lexicalError.value);
        tokens == old(tokens) + r.tokens && pos == r.pos && lexeme == source[start..r.readTo]
    {
      ghost var q := pos;
      var c := ReadOn(start);
      while c != "" && c != " " && !SymbolOrHashClass(c)
        invariant old(pos) <= q <= |source| && c == Ch(source, q) && pos == Next(source, q)
        invariant lexeme == source[start..pos] && tokens == old(tokens)
        invariant InvalidRunEnd(source, old(pos)) == InvalidRunEnd(source, q)
        decreases |source| - q
      {
        q := pos;
        c := ReadOn(start);
      }
      assert InvalidRunEnd(source, old(pos)) == q;
      assert c != "" ==> c == [source[q]] && lexeme[..|lexeme| - 1] == source[start..q];
      if c == " " {
        tokens := tokens + [MakeInvalid(lexeme[..|lexeme| - 1], lineNum, lexicalError.value)];
      } else if c != "" {
        tokens := tokens + [MakeInvalid(lexeme[..|lexeme| - 1], lineNum, lexicalError.value), MakeToken(c, SS, lineNum)];
      } else {
        // End of input: the run read so far is the token.
        tokens := tokens + [MakeInvalid(lexeme, lineNum, lexicalError.value)];
      }
    }

    /** `block_constants` (scanner.py:145-177), after the first digit `source[start]`. */
    method BlockConstants(ghost start: nat)
      requires start + 1 == pos <= |source| && lexeme == source[start..pos] && IsDigit(source[start])
      requires lexicalError == None
      modifies this`pos, this`lexeme, this`tokens, this`lexicalError
      ensures var r := ConstantsSpec(source, start, lineNum);
        tokens == old(tokens) + r.tokens && pos == r.pos && lexeme == source[start..r.readTo] && lexicalError == r.err
    {
      var decimalPointUsed := false;
      ghost var q := pos;
      var c := ReadOn(start);
      while true
        invariant start < q <= |source| && c == Ch(source, q) && pos == Next(source, q)
        invariant lexeme == source[start..pos] && tokens == old(tokens) && lexicalError == None
        invariant ConstRunEnd(source, start + 1, false) == ConstRunEnd(source, q, decimalPointUsed)
        decreases |source| - q
      {
        if DigitClass(c) {
          q := pos;
          c := ReadOn(start);
        } else if c == "." && !decimalPointUsed {
          q := pos;
          c := ReadOn(start);
          decimalPointUsed := true;
        } else {
          break;
        }
      }
      ConstantsExit(start, q, c);
    }

    /** The branches after the loop of `block_constants` (scanner.py:164-177), on the character `c` that stopped
        the loop at `q`. */
    method ConstantsExit(ghost start: nat, ghost q: nat, c: string)
      requires start < q <= |source| && IsDigit(source[start]) && ConstRunEnd(source, start + 1, false) == q
      requires c == Ch(source, q) && pos == Next(source, q) && lexeme == source[start..pos] && lexicalError == None
      modifies this`pos, this`lexeme, this`tokens, this`lexicalError
      ensures var r := ConstantsSpec(source, start, lineNum);
        tokens == old(tokens) + r.tokens && pos == r.pos && lexeme == source[start..r.readTo] && lexicalError == r.err
    {
      assert c != "" ==> c == [source[q]] && lexeme[..|lexeme| - 1] == source[start..q];
      if c == " " {
        tokens := tokens + [MakeToken(lexeme[..|lexeme| - 1], CONST, lineNum)];
      } else if SymbolOrHashClass(c) {
        tokens := tokens + [MakeToken(lexeme[..|lexeme| - 1], CONST, lineNum), MakeToken(c, SS, lineNum)];
      } else if c == "." {
        assert ConstantsSpec(source, start, lineNum) == InvalidSpec(source, start, pos, lineNum, MultipleDecimals);
        lexicalError := Some(MultipleDecimals);
        InvalidToken(start);
      } else {
        assert ConstantsSpec(source, start, lineNum) == InvalidSpec(source, start, pos, lineNum, InvalidConstant);
        lexicalError := Some(InvalidConstant);
        InvalidToken(start);
      }
    }

    /** `block_identifiers` (scanner.py:179-201). */
    method BlockIdentifiers(ghost start: nat)
      requires start < pos <= |source| && lexeme == source[start..pos] && lexicalError == None
      modifies this`pos, this`lexeme, this`tokens, this`lexicalError
      ensures var r := IdentifiersSpec(source, start, old(pos), lineNum);
        tokens == old(tokens) + r.tokens && pos == r.pos && lexeme == source[start..r.readTo] && lexicalError == r.err
    {
      ghost var q := pos;
      var c := ReadOn(start);
      while IdClass(c)
        invariant old(pos) <= q <= |source| && c == Ch(source, q) && pos == Next(source, q)
        invariant lexeme == source[start..pos] && tokens == old(tokens) && lexicalError == None
        invariant IdRunEnd(source, old(pos)) == IdRunEnd(source, q)
        decreases |source| - q
      {
        q := pos;
        c := ReadOn(start);
      }
      assert IdRunEnd(source, old(pos)) == q;
      assert c != "" ==> c == [source[q]] && lexeme[..|lexeme| - 1] == source[start..q];
      if c == " " {
        tokens := tokens + [MakeToken(lexeme[..|lexeme| - 1], ID, lineNum)];
      } else if SymbolOrHashClass(c) {
        tokens := tokens + [MakeToken(lexeme[..|lexeme| - 1], ID, lineNum), MakeToken(c, SS, lineNum)];
      } else {
        lexicalError := Some(InvalidIdentifier);
        InvalidToken(start);
      }
    }

    /** `block_identifierOrError` (scanner.py:203-221), given the character `c` just read. */
    method BlockIdentifierOrError(ghost start: nat, c: string)
      requires start < pos <= |source| && lexeme == source[start..pos] && lexicalError == None
      requires (c == "" || c == [source[pos - 1]]) && (c == "" ==> pos == |source|)
      modifies this`pos, this`lexeme, this`tokens, this`lexicalError
      ensures var r := IdentifierOrErrorSpec(source, start, old(pos), lineNum, c);
        tokens == old(tokens) + r.tokens && pos == r.pos && lexeme == source[start..r.readTo] && lexicalError == r.err
    {
      assert lexeme[..|lexeme| - 1] == source[start..pos - 1];
      if c == " " {
        tokens := tokens + [MakeToken(lexeme[..|lexeme| - 1], ID, lineNum)];
      } else if IdClass(c) {
        BlockIdentifiers(start);
      } else if SymbolClass(c) {
        tokens := tokens + [MakeToken(lexeme[..|lexeme| - 1], ID, lineNum), MakeToken(c, SS, lineNum)];
      } else {
        lexicalError := Some(InvalidIdentifier);
        InvalidToken(start);
      }
    }

    /** `keyAcceptingState` (scanner.py:223-241). */
    method KeyAcceptingState(ghost start: nat)
      requires start < pos <= |source| && lexeme == source[start..pos] && lexicalError == None
      modifies this`pos, this`lexeme, this`tokens, this`lexicalError
      ensures var r := KeyAcceptingSpec(source, start, old(pos), lineNum);
        tokens == old(tokens) + r.tokens && pos == r.pos && lexeme == source[start..r.readTo] && lexicalError == r.err
    {
      var c := ReadOn(start);
      assert c != "" ==> lexeme[..|lexeme| - 1] == source[start..pos - 1];
      if c == " " {
        tokens := tokens + [MakeToken(lexeme[..|lexeme| - 1], KEY, lineNum)];
      } else if SymbolClass(c) {
        tokens := tokens + [MakeToken(lexeme[..|lexeme| - 1], KEY, lineNum), MakeToken(c, SS, lineNum)];
      } else if IdClass(c) {
        BlockIdentifiers(start);
      } else {
        lexicalError := Some(InvalidSyntax);
        InvalidToken(start);
      }
    }

    /** `block_in` (scanner.py:762-775). When a separator symbol follows, the source keeps the "in" token and the
        symbol in attributes nothing reads, so neither reaches `tokens`. */
    method BlockIn(ghost start: nat)
      requires start < pos <= |source| && lexeme == source[start..pos] && lexicalError == None
      modifies this`pos, this`lexeme, this`tokens, this`lexicalError
      ensures var r := InSpec(source, start, old(pos), lineNum);
        tokens == old(tokens) + r.tokens && pos == r.pos && lexeme == source[start..r.readTo] && lexicalError == r.err
    {
      var c := ReadOn(start);
      assert c != "" ==> lexeme[..|lexeme| - 1] == source[start..pos - 1];
      if c == " " {
        tokens := tokens + [MakeToken(lexeme[..|lexeme| - 1], KEY, lineNum)];
      } else if c == "t" {
        KeyAcceptingState(start);
      } else if SymbolOrHashClass(c) {
      } else {
        BlockIdentifierOrError(start, c);
      }
    }

    /** The reachable `block_*` methods of the keyword trie (scanner.py:268-978), one call per state `st`. */
    method BlockTrie(ghost start: nat, st: State)
      requires start < pos <= |source| && lexeme == source[start..pos] && lexicalError == None
      modifies this`pos, this`lexeme, this`tokens, this`lexicalError
      ensures var r := TrieSpec(source, start, old(pos), lineNum, st);
        tokens == old(tokens) + r.tokens && pos == r.pos && lexeme == source[start..r.readTo] && lexicalError == r.err
      decreases |source| - pos
    {
      var c := ReadOn(start);
      if c == "" {
        BlockIdentifierOrError(start, c);
      } else {
        match Step(st, c[0])
        case Deeper(n) => BlockTrie(start, n);
        case ToIn => BlockIn(start);
        case Accepted => KeyAcceptingState(start);
        case Degrade => BlockIdentifierOrError(start, c);
      }
    }

    /** `block_leftAssignment` (scanner.py:256-266), after "<". The seek-back happens only when a character
        was actually read. */
    method BlockLeftAssignment(ghost start: nat)
      requires start + 1 == pos <= |source| && lexeme == source[start..pos] && source[start] == '<'
      requires lexicalError == None
      modifies this`pos, this`lexeme, this`tokens
      ensures var r := LeftSpec(source, start, lineNum);
        tokens == old(tokens) + r.tokens && pos == r.pos && lexeme == source[start..r.readTo] && lexicalError == r.err
    {
      var c := ReadOn(start);
      assert c != "" ==> lexeme[..|lexeme| - 1] == source[start..pos - 1];
      if c == "=" {
        tokens := tokens + [MakeToken(lexeme, KEY, lineNum)];
      } else if c == "" {
        tokens := tokens + [MakeInvalid(lexeme, lineNum, UnrecognizedSymbol)];
      } else {
        tokens := tokens + [MakeInvalid(lexeme[..|lexeme| - 1], lineNum, UnrecognizedSymbol)];
        pos := pos - 1;  // seek(tell() - 1), one character back
      }
    }

    /** `block_rightAssignment` (scanner.py:245-254), after "=". The seek-back happens only when a character
        was actually read. */
    method BlockRightAssignment(ghost start: nat)
      requires start + 1 == pos <= |source| && lexeme == source[start..pos] && source[start] == '='
      requires lexicalError == None
      modifies this`pos, this`lexeme, this`tokens
      ensures var r := RightSpec(source, start, lineNum);
        tokens == old(tokens) + r.tokens && pos == r.pos && lexeme == source[start..r.readTo] && lexicalError == r.err
    {
      var c := ReadOn(start);
      assert c != "" ==> lexeme[..|lexeme| - 1] == source[start..pos - 1];
      if c == ">" {
        tokens := tokens + [MakeToken(lexeme, KEY, lineNum)];
      } else if c == "" {
        tokens := tokens + [MakeToken(lexeme, SS, lineNum)];
      } else {
        tokens := tokens + [MakeToken(lexeme[..|lexeme| - 1], SS, lineNum)];
        pos := pos - 1;  // seek(tell() - 1), one character back
      }
    }

    /** The dispatch of `nextToken` on the first character of a unit (scanner.py:62-109). */
    method Dispatch(ghost q: nat, c: string)
      requires q + 1 == pos <= |source| && c == [source[q]] && lexeme == c && lexicalError == None
      modifies this`pos, this`lexeme, this`tokens, this`lexicalError
      ensures var u := UnitSpec(source, q, lineNum);
        tokens == old(tokens) + u.tokens && pos == u.pos && lexeme == source[q..u.readTo] && lexicalError == u.err
    {
      assert lexeme == source[q..pos];
      var ch := c[0];
      match Entry(ch)
      case Some(st) =>
        BlockTrie(q, st);
      case None =>
        if ch == '<' {
          BlockLeftAssignment(q);
        } else if ch == '=' {
          BlockRightAssignment(q);
        } else if IsLetter(ch) {
          BlockIdentifiers(q);
        } else if IsSymbol(ch) {
          tokens := tokens + [MakeToken(lexeme, SS, lineNum)];
        } else if IsDigit(ch) {
          BlockConstants(q);
        } else {
          tokens := tokens + [MakeInvalid(c, lineNum, UnrecognizedSymbol)];
        }
    }

    /** `nextToken` (scanner.py:44-111): None at the end of the input, with `tokens` left empty where the source sets
        it to None; otherwise the tokens of the next unit, all on the line reached by skipping. */
    method NextToken() returns (r: Option<seq<Token>>)
      requires pos <= |source|
      modifies this`pos, this`lineNum, this`lexeme, this`tokens, this`lexicalError
      ensures pos <= |source|
      ensures lineNum == SkipSpec(source, old(pos), old(lineNum)).1
      ensures SkipSpec(source, old(pos), old(lineNum)).0 == |source| ==>
                r == None && pos == |source| && lexeme == "" && tokens == [] && lexicalError == None
      ensures var (q, l) := SkipSpec(source, old(pos), old(lineNum));
        q < |source| ==> var u := UnitSpec(source, q, l);
          r == Some(u.tokens) && tokens == u.tokens && pos == u.pos && lexeme == source[q..u.readTo] && lexicalError == u.err
    {
      ghost var skip := SkipSpec(source, pos, lineNum);
      lexeme := "";
      tokens := [];
      lexicalError := None;
      var c := GetNextValidChar();
      if c == "" {
        return None;
      }
      assert pos - 1 == skip.0 && lineNum == skip.1;
      lexeme := lexeme + c;
      Dispatch(pos - 1, c);
      assert tokens == UnitSpec(source, skip.0, skip.1).tokens;
      r := Some(tokens);
    }
  }
}
