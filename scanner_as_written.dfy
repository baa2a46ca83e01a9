/** Three places where scanner.py, as written, never gets past the end of the input, each next to the corrected
    behaviour that `Lexer` (and so the `Scanner` class) uses instead. */
module ScannerAsWritten {

  import opened Options
  import opened Tokens
  import opened Lexicon
  import opened Lexer

  /** The loop of `invalidToken` as written (scanner.py:128-143): the position of the separator that ends it, or
      None when the input runs out first. At the end of the input `read(1)` keeps returning "", which is neither a
      space nor a separator symbol, so the loop never exits. */
  function InvalidStopAsWritten(s: string, p: nat): (r: Option<nat>)
    requires p <= |s|
    ensures r.Some? ==> p <= r.value < |s| && EndsInvalid(s[r.value])
    ensures r.Some? ==> forall i :: p <= i < r.value ==> !EndsInvalid(s[i])
    ensures r.None? <==> forall i :: p <= i < |s| ==> !EndsInvalid(s[i])
    decreases |s| - p
  {
    if p == |s| then None
    else if EndsInvalid(s[p]) then Some(p)
    else InvalidStopAsWritten(s, p + 1)
  }

  /** Where the source's loop does stop, the corrected `invalidToken` stops at the same separator. */
  lemma {:induction false} InvalidStopAgrees(s: string, p: nat)
    requires p <= |s| && InvalidStopAsWritten(s, p).Some?
    ensures InvalidRunEnd(s, p) == InvalidStopAsWritten(s, p).value
    decreases |s| - p
  {
    if !EndsInvalid(s[p]) {
      InvalidStopAgrees(s, p + 1);
    }
  }

  lemma {:induction false} InvalidRunReachesEnd(s: string, p: nat)
    requires p <= |s| && InvalidStopAsWritten(s, p).None?
    ensures InvalidRunEnd(s, p) == |s|
    decreases |s| - p
  {
    if p < |s| {
      InvalidRunReachesEnd(s, p + 1);
    }
  }

  /** Where the source's loop never stops, the corrected `invalidToken` emits everything up to the end of the input
      as one INVALID token and leaves the position at the end. */
  lemma InvalidAtEnd(s: string, start: nat, p: nat, line: int, e: LexicalError)
    requires start < p <= |s| && InvalidStopAsWritten(s, p).None?
    ensures InvalidSpec(s, start, p, line, e) == Scan([MakeInvalid(s[start..], line, e)], |s|, |s|, Some(e))
  {
    InvalidRunReachesEnd(s, p);
    assert s[start..|s|] == s[start..];
  }

  /** "1" at the end of the last line: the newline is not a separator, so `block_constants` hands over to
      `invalidToken`, whose loop as written finds no separator before the end of the input. */
  lemma ConstantBeforeFinalNewline()
    ensures ConstantsSpec("1\n", 0, 1).err == Some(InvalidConstant)
    ensures InvalidStopAsWritten("1\n", 2).None?
    ensures ConstantsSpec("1\n", 0, 1).tokens == [MakeInvalid("1\n", 1, InvalidConstant)]
  {
    var s := "1\n";
    assert ConstRunEnd(s, 1, false) == 1;
    assert InvalidRunEnd(s, 2) == 2;
    assert s[0..2] == s;
  }

  /** `block_leftAssignment` as written (scanner.py:256-266). At the end of the input `read(1)` gives "", so the
      token is INVALID with lexeme `lexeme[:-1] == ""`, and `seek(tell() - 1)` moves back onto the `<` itself. */
  function LeftAsWritten(s: string, start: nat, line: int): (r: Scan)
    requires start < |s| && s[start] == '<'
    ensures |r.tokens| == 1 && r.readTo <= |s|
    ensures start + 1 == |s| ==> r.pos == start && r.tokens == [MakeInvalid("", line, UnrecognizedSymbol)]
  {
    var p := start + 1;
    var c := Ch(s, p);
    if c == "=" then Scan([MakeToken("<=", KEY, line)], p + 1, p + 1, None)
    else if c == "" then Scan([MakeInvalid("", line, UnrecognizedSymbol)], p - 1, p, None)
    else Scan([MakeInvalid("<", line, UnrecognizedSymbol)], p, p + 1, None)
  }

  /** `block_rightAssignment` as written (scanner.py:245-254): at the end of the input the SS token has the empty
      lexeme and the position goes back onto the `=` itself. */
  function RightAsWritten(s: string, start: nat, line: int): (r: Scan)
    requires start < |s| && s[start] == '='
    ensures |r.tokens| == 1 && r.readTo <= |s|
    ensures start + 1 == |s| ==> r.pos == start && r.tokens == [MakeToken("", SS, line)]
  {
    var p := start + 1;
    var c := Ch(s, p);
    if c == ">" then Scan([MakeToken("=>", KEY, line)], p + 1, p + 1, None)
    else if c == "" then Scan([MakeToken("", SS, line)], p - 1, p, None)
    else Scan([MakeToken("=", SS, line)], p, p + 1, None)
  }

  /** Before the end of the input the source's `<`/`=` states agree with the corrected ones. */
  lemma AssignmentsAgreeBeforeEnd(s: string, start: nat, line: int)
    requires start + 1 < |s|
    ensures s[start] == '<' ==> LeftAsWritten(s, start, line).tokens == LeftSpec(s, start, line).tokens
                                && LeftAsWritten(s, start, line).pos == LeftSpec(s, start, line).pos
    ensures s[start] == '=' ==> RightAsWritten(s, start, line).tokens == RightSpec(s, start, line).tokens
                                && RightAsWritten(s, start, line).pos == RightSpec(s, start, line).pos
  {
  }

  /** A trailing `<` (or `=`): the source leaves the position where the unit started, and since `getNextValidChar`
      stops on that same character again, every later `nextToken` call repeats the same step for ever. The
      corrected states move past the character and emit it. */
  lemma TrailingAssignmentSymbolRepeats(s: string, line: int)
    requires |s| >= 1 && (s[|s| - 1] == '<' || s[|s| - 1] == '=')
    ensures var q := |s| - 1;
      SkipSpec(s, q, line) == (q, line)
      && (s[q] == '<' ==> LeftAsWritten(s, q, line).pos == q
                          && LeftSpec(s, q, line) == Scan([MakeInvalid("<", line, UnrecognizedSymbol)], |s|, |s|, None))
      && (s[q] == '=' ==> RightAsWritten(s, q, line).pos == q
                          && RightSpec(s, q, line) == Scan([MakeToken("=", SS, line)], |s|, |s|, None))
  {
    var q := |s| - 1;
    assert s[q..|s|] == [s[q]];
  }
}
