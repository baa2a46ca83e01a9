/** What one call of the scanner (scanner.py) reads and emits, as functions of the input text and the read
    position. Every method of the `Scanner` class is proved equal to one of these functions. */
module Lexer {

  import opened Options
  import opened Tokens
  import opened Lexicon

  /** `read(1)`: the next character as a one-character string, or "" at the end of the input. */
  function Ch(s: string, p: nat): (c: string)
    ensures |c| <= 1 && (c == "" <==> p >= |s|)
    ensures p < |s| ==> c[0] == s[p]
  {
    if p < |s| then [s[p]] else ""
  }

  /** The read position after `read(1)`: one further, except at the end of the input. */
  function Next(s: string, p: nat): nat
  {
    if p < |s| then p + 1 else p
  }

  // The `re.match` tests of the source, applied to what `read(1)` returned ("" matches no class).
  predicate IdClass(c: string) { |c| == 1 && IsIdChar(c[0]) }
  predicate DigitClass(c: string) { |c| == 1 && IsDigit(c[0]) }
  predicate SymbolClass(c: string) { |c| == 1 && IsSymbol(c[0]) }
  predicate SymbolOrHashClass(c: string) { |c| == 1 && IsSymbolOrHash(c[0]) }

  /** A character that ends an ill-formed run in `invalidToken` (scanner.py:132, 137). */
  predicate EndsInvalid(ch: char) { ch == ' ' || IsSymbolOrHash(ch) }

  /** The outcome of one block state: the tokens it appends, where the read position is left, how far
      `lexeme` reached (it differs from `pos` only after a seek-back), and the `lexicalError` it recorded. */
  datatype Scan = Scan(tokens: seq<Token>, pos: nat, readTo: nat, err: Option<LexicalError>)

  /** What every block state promises: at most two tokens, all on the current line and carrying an error exactly
      when INVALID; a second token is a one-character special symbol. */
  predicate Emits(r: Scan, line: int)
  {
    |r.tokens| <= 2
    && (forall t :: t in r.tokens ==> WellTagged(t, line))
    && (|r.tokens| == 2 ==> r.tokens[1].tokenType == SS && |r.tokens[1].lexeme| == 1)
  }

  /** The position where `invalidToken` stops: the first space or separator symbol at or after `p`, or the end. */
  function InvalidRunEnd(s: string, p: nat): (k: nat)
    requires p <= |s|
    ensures p <= k <= |s|
    ensures k < |s| ==> EndsInvalid(s[k])
    ensures forall i :: p <= i < k ==> !EndsInvalid(s[i])
    decreases |s| - p
  {
    if p == |s| || EndsInvalid(s[p]) then p else InvalidRunEnd(s, p + 1)
  }

  /** `invalidToken` (scanner.py:128-143), entered with `lexeme == s[start..p]`: everything up to the next space or
      separator symbol becomes one INVALID token, followed by an SS token when the separator is a symbol.
      At the end of the input the source loops for ever; here the run read so far is emitted instead. */
  function InvalidSpec(s: string, start: nat, p: nat, line: int, e: LexicalError): (r: Scan)
    requires start < p <= |s|
    ensures Emits(r, line) && 1 <= |r.tokens| && r.err == Some(e)
    ensures r.tokens[0] == MakeInvalid(s[start..InvalidRunEnd(s, p)], line, e)
    ensures start < r.pos == r.readTo <= |s|
    ensures var k := InvalidRunEnd(s, p);
      r.pos == (if k < |s| then k + 1 else k)
      && (|r.tokens| == 2 <==> k < |s| && s[k] != ' ')
      && (|r.tokens| == 2 ==> r.tokens[1] == MakeToken([s[k]], SS, line))
    ensures forall t :: t in r.tokens ==> t.tokenType != CONST
  {
    var k := InvalidRunEnd(s, p);
    if k == |s| then Scan([MakeInvalid(s[start..k], line, e)], k, k, Some(e))
    else if s[k] == ' ' then Scan([MakeInvalid(s[start..k], line, e)], k + 1, k + 1, Some(e))
    else Scan([MakeInvalid(s[start..k], line, e), MakeToken([s[k]], SS, line)], k + 1, k + 1, Some(e))
  }

  /** Where the loop of `block_identifiers` stops: the first character at or after `p` outside `[a-zA-Z0-9.]`. */
  function IdRunEnd(s: string, p: nat): (j: nat)
    requires p <= |s|
    ensures p <= j <= |s|
    ensures j < |s| ==> !IsIdChar(s[j])
    ensures forall i :: p <= i < j ==> IsIdChar(s[i])
    decreases |s| - p
  {
    if p == |s| || !IsIdChar(s[p]) then p else IdRunEnd(s, p + 1)
  }

  /** `block_identifiers` (scanner.py:179-201), entered with `lexeme == s[start..p]`. */
  function IdentifiersSpec(s: string, start: nat, p: nat, line: int): (r: Scan)
    requires start < p <= |s|
    ensures Emits(r, line) && 1 <= |r.tokens| && start < r.pos == r.readTo <= |s|
    ensures r.tokens[0].tokenType in {ID, INVALID}
    ensures forall t :: t in r.tokens ==> t.tokenType != CONST
  {
    var j := IdRunEnd(s, p);
    if j < |s| && s[j] == ' ' then Scan([MakeToken(s[start..j], ID, line)], j + 1, j + 1, None)
    else if j < |s| && IsSymbolOrHash(s[j]) then Scan([MakeToken(s[start..j], ID, line), MakeToken([s[j]], SS, line)], j + 1, j + 1, None)
    else InvalidSpec(s, start, Next(s, j), line, InvalidIdentifier)
  }

  /** A well-formed constant: a digit, then digits and at most one decimal point. */
  predicate IsConstLexeme(w: string)
  {
    |w| >= 1 && IsDigit(w[0])
    && (forall i :: 0 <= i < |w| ==> IsDigit(w[i]) || w[i] == '.')
    && (forall i, j :: 0 <= i < j < |w| && w[i] == '.' ==> w[j] != '.')
  }

  /** Where the loop of `block_constants` stops, scanning from `p` with `dot` telling whether a decimal point was
      already taken: the first character that is neither a digit nor the first decimal point. */
  function ConstRunEnd(s: string, p: nat, dot: bool): (j: nat)
    requires p <= |s|
    ensures p <= j <= |s|
    ensures forall i :: p <= i < j ==> IsDigit(s[i]) || s[i] == '.'
    ensures forall i, i' :: p <= i < i' < j && s[i] == '.' ==> s[i'] != '.'
    ensures dot ==> forall i :: p <= i < j ==> s[i] != '.'
    ensures j < |s| ==> !IsDigit(s[j]) && (s[j] == '.' ==> dot || exists i :: p <= i < j && s[i] == '.')
    decreases |s| - p
  {
    if p == |s| then p
    else if IsDigit(s[p]) then ConstRunEnd(s, p + 1, dot)
    else if s[p] == '.' && !dot then ConstRunEnd(s, p + 1, true)
    else p
  }

  /** `block_constants` (scanner.py:145-177), entered after the first digit `s[start]`. */
  function ConstantsSpec(s: string, start: nat, line: int): (r: Scan)
    requires start < |s| && IsDigit(s[start])
    ensures Emits(r, line) && 1 <= |r.tokens| && start < r.pos == r.readTo <= |s|
    ensures r.tokens[0].tokenType in {CONST, INVALID}
    ensures forall t :: t in r.tokens && t.tokenType == CONST ==> IsConstLexeme(t.lexeme)
  {
    var j := ConstRunEnd(s, start + 1, false);
    if j < |s| && s[j] == ' ' then Scan([MakeToken(s[start..j], CONST, line)], j + 1, j + 1, None)
    else if j < |s| && IsSymbolOrHash(s[j]) then Scan([MakeToken(s[start..j], CONST, line), MakeToken([s[j]], SS, line)], j + 1, j + 1, None)
    else if j < |s| && s[j] == '.' then InvalidSpec(s, start, j + 1, line, MultipleDecimals)
    else InvalidSpec(s, start, Next(s, j), line, InvalidConstant)
  }

  /** `block_identifierOrError` (scanner.py:203-221): `c` was just read and `lexeme == s[start..p]` ends with it.
      Its separator class lacks `#`. */
  function IdentifierOrErrorSpec(s: string, start: nat, p: nat, line: int, c: string): (r: Scan)
    requires start < p <= |s| && (c == "" || c == [s[p - 1]]) && (c == "" ==> p == |s|)
    ensures Emits(r, line) && 1 <= |r.tokens| && start < r.pos == r.readTo <= |s|
    ensures r.tokens[0].tokenType in {ID, INVALID}
    ensures forall t :: t in r.tokens ==> t.tokenType != CONST
  {
    if c == " " then Scan([MakeToken(s[start..p - 1], ID, line)], p, p, None)
    else if IdClass(c) then IdentifiersSpec(s, start, p, line)
    else if SymbolClass(c) then Scan([MakeToken(s[start..p - 1], ID, line), MakeToken(c, SS, line)], p, p, None)
    else InvalidSpec(s, start, p, line, InvalidIdentifier)
  }

  /** `keyAcceptingState` (scanner.py:223-241), entered when `s[start..p]` is a whole keyword. Its separator class
      lacks `#`. */
  function KeyAcceptingSpec(s: string, start: nat, p: nat, line: int): (r: Scan)
    requires start < p <= |s|
    ensures Emits(r, line) && 1 <= |r.tokens| && start < r.pos == r.readTo <= |s|
    ensures r.tokens[0].tokenType in {KEY, ID, INVALID}
    ensures forall t :: t in r.tokens ==> t.tokenType != CONST
  {
    var c, np := Ch(s, p), Next(s, p);
    if c == " " then Scan([MakeToken(s[start..p], KEY, line)], np, np, None)
    else if SymbolClass(c) then Scan([MakeToken(s[start..p], KEY, line), MakeToken(c, SS, line)], np, np, None)
    else if IdClass(c) then IdentifiersSpec(s, start, np, line)
    else InvalidSpec(s, start, np, line, InvalidSyntax)
  }

  /** `block_in` (scanner.py:762-775), entered when "in" has been read. A separator symbol right after "in" is
      consumed and neither "in" nor the symbol is emitted: the source stores them in unused attributes. */
  function InSpec(s: string, start: nat, p: nat, line: int): (r: Scan)
    requires start < p <= |s|
    ensures Emits(r, line) && start < r.pos == r.readTo <= |s|
    ensures forall t :: t in r.tokens ==> t.tokenType != CONST
  {
    var c, np := Ch(s, p), Next(s, p);
    if c == " " then Scan([MakeToken(s[start..p], KEY, line)], np, np, None)
    else if c == "t" then KeyAcceptingSpec(s, start, np, line)
    else if SymbolOrHashClass(c) then Scan([], np, np, None)
    else IdentifierOrErrorSpec(s, start, np, line, c)
  }

  /** The chain of trie states (`block_p`, `block_pa`, ... scanner.py:268-978): in state `st` with `lexeme == s[start..p]`. */
  function TrieSpec(s: string, start: nat, p: nat, line: int, st: State): (r: Scan)
    requires start < p <= |s|
    ensures Emits(r, line) && start < r.pos == r.readTo <= |s|
    decreases |s| - p
    ensures forall t :: t in r.tokens ==> t.tokenType != CONST
  {
    var c, np := Ch(s, p), Next(s, p);
    if c == "" then IdentifierOrErrorSpec(s, start, np, line, c)
    else match Step(st, c[0])
      case Deeper(n) => TrieSpec(s, start, np, line, n)
      case ToIn => InSpec(s, start, np, line)
      case Accepted => KeyAcceptingSpec(s, start, np, line)
      case Degrade => IdentifierOrErrorSpec(s, start, np, line, c)
  }

  /** `block_leftAssignment` (scanner.py:256-266), after "<" at `start`: "<=" is a keyword; otherwise "<" is an
      unrecognised symbol and the character read after it is pushed back. At the end of the input nothing was
      read, so nothing is pushed back and the lexeme is the whole "<". */
  function LeftSpec(s: string, start: nat, line: int): (r: Scan)
    requires start < |s| && s[start] == '<'
    ensures Emits(r, line) && |r.tokens| == 1 && start < r.pos <= r.readTo <= |s|
    ensures forall t :: t in r.tokens ==> t.tokenType != CONST
    ensures start + 1 < |s| && s[start + 1] == '=' ==> r.tokens == [MakeToken("<=", KEY, line)] && r.pos == start + 2
    ensures !(start + 1 < |s| && s[start + 1] == '=') ==>
              r.tokens == [MakeInvalid("<", line, UnrecognizedSymbol)] && r.pos == start + 1
  {
    var p := start + 1;
    var c, np := Ch(s, p), Next(s, p);
    if c == "=" then
      assert s[start..np] == [s[start], s[p]];
      Scan([MakeToken(s[start..np], KEY, line)], np, np, None)
    else
      assert s[start..p] == [s[start]];
      if c == "" then Scan([MakeInvalid(s[start..p], line, UnrecognizedSymbol)], p, p, None)
      else Scan([MakeInvalid(s[start..np - 1], line, UnrecognizedSymbol)], np - 1, np, None)
  }

  /** `block_rightAssignment` (scanner.py:245-254), after "=" at `start`: "=>" is a keyword; otherwise "=" is a
      special symbol and the character read after it is pushed back (not at the end of the input, as for "<"). */
  function RightSpec(s: string, start: nat, line: int): (r: Scan)
    requires start < |s| && s[start] == '='
    ensures Emits(r, line) && |r.tokens| == 1 && start < r.pos <= r.readTo <= |s|
    ensures forall t :: t in r.tokens ==> t.tokenType != CONST
    ensures start + 1 < |s| && s[start + 1] == '>' ==> r.tokens == [MakeToken("=>", KEY, line)] && r.pos == start + 2
    ensures !(start + 1 < |s| && s[start + 1] == '>') ==> r.tokens == [MakeToken("=", SS, line)] && r.pos == start + 1
  {
    var p := start + 1;
    var c, np := Ch(s, p), Next(s, p);
    if c == ">" then
      assert s[start..np] == [s[start], s[p]];
      Scan([MakeToken(s[start..np], KEY, line)], np, np, None)
    else
      assert s[start..p] == [s[start]];
      if c == "" then Scan([MakeToken(s[start..p], SS, line)], p, p, None)
      else Scan([MakeToken(s[start..np - 1], SS, line)], np - 1, np, None)
  }

  /** Every CONST token has a well-formed constant as its lexeme. */
  predicate ConstsWellFormed(ts: seq<Token>)
  {
    forall t :: t in ts && t.tokenType == CONST ==> IsConstLexeme(t.lexeme)
  }

  /** The dispatch of `nextToken` on the first character `s[q]` (scanner.py:62-109). */
  function UnitSpec(s: string, q: nat, line: int): (r: Scan)
    requires q < |s|
    ensures Emits(r, line) && q < r.pos <= r.readTo <= |s|
    ensures ConstsWellFormed(r.tokens)
  {
    var c := s[q];
    match Entry(c)
    case Some(st) => TrieSpec(s, q, q + 1, line, st)
    case None =>
      if c == '<' then LeftSpec(s, q, line)
      else if c == '=' then RightSpec(s, q, line)
      else if IsLetter(c) then IdentifiersSpec(s, q, q + 1, line)
      else if IsSymbol(c) then Scan([MakeToken([c], SS, line)], q + 1, q + 1, None)
      else if IsDigit(c) then ConstantsSpec(s, q, line)
      else Scan([MakeInvalid([c], line, UnrecognizedSymbol)], q + 1, q + 1, None)
  }

  predicate IsBlank(ch: char) { ch == ' ' || ch == '\t' }
  predicate IsLineBreak(ch: char) { ch == '\n' || ch == '\r' }

  /** `readline()` from `i`: the position just after the next '\n', or the end of the input. */
  function LineEnd(s: string, i: nat): (r: nat)
    requires i <= |s|
    ensures i <= r <= |s|
    ensures forall j :: i <= j < r - 1 ==> s[j] != '\n'
    ensures r < |s| ==> i < r && s[r - 1] == '\n'
    decreases |s| - i
  {
    if i == |s| then i else if s[i] == '\n' then i + 1 else LineEnd(s, i + 1)
  }

  /** `getNextValidChar` (scanner.py:24-42) from `p` on line `line`: the position of the first character that is
      not a blank, a line break or the start of a `#` comment (or the end), and the line reached. */
  function SkipSpec(s: string, p: nat, line: int): (r: (nat, int))
    requires p <= |s|
    ensures p <= r.0 <= |s| && line <= r.1
    ensures r.0 < |s| ==> !IsBlank(s[r.0]) && !IsLineBreak(s[r.0]) && s[r.0] != '#'
    decreases |s| - p
  {
    if p == |s| then (p, line)
    else if IsBlank(s[p]) then SkipSpec(s, p + 1, line)
    else if IsLineBreak(s[p]) then SkipSpec(s, p + 1, line + 1)
    else if s[p] == '#' then SkipSpec(s, LineEnd(s, p + 1), line + 1)
    else (p, line)
  }

  /** Every token of every `nextToken` call from `p` on line `line`, until the call that finds the end of input. */
  function ScanAll(s: string, p: nat, line: int): (ts: seq<Token>)
    requires p <= |s|
    decreases |s| - p
  {
    var (q, l) := SkipSpec(s, p, line);
    if q == |s| then [] else var u := UnitSpec(s, q, l); u.tokens + ScanAll(s, u.pos, l)
  }
}
