/** What the scanner promises, proved about the functions of `Lexer`: line counting, the shape of the token stream,
    keywords against identifiers, constants, and the separator quirks of scanner.py. */
module LexerFacts {

  import opened Options
  import opened Tokens
  import opened Lexicon
  import opened Lexer

  // ---------------------------------------------------------------------------------------------------------
  // Line counting in getNextValidChar

  /** The number of line breaks ('\n' or '\r') in `s[i..j]`. */
  function Breaks(s: string, i: nat, j: nat): nat
    requires i <= j <= |s|
    decreases j - i
  {
    if i == j then 0 else (if IsLineBreak(s[i]) then 1 else 0) + Breaks(s, i + 1, j)
  }

  lemma {:induction false} BreaksSplit(s: string, i: nat, j: nat, k: nat)
    requires i <= j <= k <= |s|
    ensures Breaks(s, i, k) == Breaks(s, i, j) + Breaks(s, j, k)
    decreases j - i
  {
    if i < j {
      BreaksSplit(s, i + 1, j, k);
    }
  }

  /** A comment body without '\r' that ends before the end of the input holds exactly one line break: the '\n'
      that `readline()` consumes. */
  lemma {:induction false} CommentHasOneBreak(s: string, i: nat)
    requires i <= |s| && LineEnd(s, i) < |s|
    requires forall j :: i <= j < LineEnd(s, i) ==> s[j] != '\r'
    ensures Breaks(s, i, LineEnd(s, i)) == 1
    decreases |s| - i
  {
    if s[i] != '\n' {
      CommentHasOneBreak(s, i + 1);
    }
  }

  /** `getNextValidChar` passes blanks and line breaks and stops on the first character that is none of them and
      not `#` (or at the end of the input): it skips nothing else. */
  lemma {:induction false} SkipStopsAt(s: string, p: nat, q: nat, line: int)
    requires p <= q <= |s|
    requires forall i :: p <= i < q ==> IsBlank(s[i]) || IsLineBreak(s[i])
    requires q < |s| ==> !IsBlank(s[q]) && !IsLineBreak(s[q]) && s[q] != '#'
    ensures SkipSpec(s, p, line).0 == q
    ensures SkipSpec(s, p, line).1 == line + Breaks(s, p, q)
    decreases q - p
  {
    if p < q {
      if IsBlank(s[p]) {
        SkipStopsAt(s, p + 1, q, line);
      } else {
        SkipStopsAt(s, p + 1, q, line + 1);
      }
    }
  }

  /** Where no comment is skipped, `getNextValidChar` adds one line per '\n' or '\r' it passes. */
  lemma {:induction false} SkipCountsBreaks(s: string, p: nat, line: int)
    requires p <= |s|
    requires forall i :: p <= i < SkipSpec(s, p, line).0 ==> s[i] != '#'
    ensures SkipSpec(s, p, line).1 == line + Breaks(s, p, SkipSpec(s, p, line).0)
    decreases |s| - p
  {
    if p == |s| {
    } else if IsBlank(s[p]) {
      SkipCountsBreaks(s, p + 1, line);
    } else if IsLineBreak(s[p]) {
      SkipCountsBreaks(s, p + 1, line + 1);
    } else if s[p] == '#' {
      assert false;
    }
  }

  /** In text without '\r' (what a text-mode read delivers), `getNextValidChar` adds one line per '\n' it passes,
      whether the '\n' stands alone or ends a `#` comment. */
  lemma {:induction false} SkipCountsNewlines(s: string, p: nat, line: int)
    requires p <= |s| && SkipSpec(s, p, line).0 < |s|
    requires forall i :: p <= i < SkipSpec(s, p, line).0 ==> s[i] != '\r'
    ensures SkipSpec(s, p, line).1 == line + Breaks(s, p, SkipSpec(s, p, line).0)
    decreases |s| - p
  {
    if IsBlank(s[p]) {
      SkipCountsNewlines(s, p + 1, line);
    } else if IsLineBreak(s[p]) {
      SkipCountsNewlines(s, p + 1, line + 1);
    } else if s[p] == '#' {
      var e := LineEnd(s, p + 1);
      var q := SkipSpec(s, p, line).0;
      SkipCountsNewlines(s, e, line + 1);
      CommentHasOneBreak(s, p + 1);
      BreaksSplit(s, p + 1, e, q);
    }
  }

  // ---------------------------------------------------------------------------------------------------------
  // The token stream

  /** Over a whole run of `nextToken` calls, line numbers never decrease and never fall below the starting line,
      only INVALID tokens carry an error, and every CONST token is a well-formed constant. */
  lemma {:induction false} ScanAllWellFormed(s: string, p: nat, line: int)
    requires p <= |s|
    ensures var ts := ScanAll(s, p, line);
      (forall i :: 0 <= i < |ts| ==> line <= ts[i].lineNum)
      && (forall i, j :: 0 <= i < j < |ts| ==> ts[i].lineNum <= ts[j].lineNum)
      && (forall t :: t in ts ==> (t.tokenType == INVALID <==> t.lexicalError.Some?))
      && ConstsWellFormed(ts)
    decreases |s| - p
  {
    var (q, l) := SkipSpec(s, p, line);
    if q < |s| {
      var u := UnitSpec(s, q, l);
      ScanAllWellFormed(s, u.pos, l);
      var rest := ScanAll(s, u.pos, l);
      var ts := ScanAll(s, p, line);
      assert ts == u.tokens + rest;
      assert forall i :: 0 <= i < |u.tokens| ==> ts[i] == u.tokens[i] && ts[i] in u.tokens;
      assert forall i :: |u.tokens| <= i < |ts| ==> ts[i] == rest[i - |u.tokens|];
    }
  }

  // ---------------------------------------------------------------------------------------------------------
  // Walking the keyword trie

  /** Following the trie through `s[p..j]` while it keeps going deeper is what the chain of `block_*` calls does. */
  lemma {:induction false} TrieWalkDeeper(s: string, start: nat, p: nat, j: nat, line: int, st: State, n: State)
    requires start < p < j <= |s| && Walk(st, s, p, j) == Deeper(n)
    ensures TrieSpec(s, start, p, line, st) == TrieSpec(s, start, j, line, n)
    decreases j - p
  {
    if p + 1 < j {
      TrieWalkDeeper(s, start, p + 1, j, line, Step(st, s[p]).next, n);
    }
  }

  /** A walk through `s[p..j]` that ends on a whole keyword hands over to `keyAcceptingState` after `s[j - 1]`. */
  lemma {:induction false} TrieWalkAccepted(s: string, start: nat, p: nat, j: nat, line: int, st: State)
    requires start < p < j <= |s| && Walk(st, s, p, j) == Accepted
    ensures TrieSpec(s, start, p, line, st) == KeyAcceptingSpec(s, start, j, line)
    decreases j - p
  {
    if p + 1 < j {
      TrieWalkAccepted(s, start, p + 1, j, line, Step(st, s[p]).next);
    }
  }

  /** `nextToken` hands a character that starts a keyword branch to the trie. */
  lemma UnitOnTrie(s: string, q: nat, line: int)
    requires q < |s| && Entry(s[q]).Some?
    ensures UnitSpec(s, q, line) == TrieSpec(s, q, q + 1, line, Entry(s[q]).value)
  {
  }

  /** `nextToken` hands a digit to `block_constants`. */
  lemma UnitOnDigit(s: string, q: nat, line: int)
    requires q < |s| && IsDigit(s[q])
    ensures UnitSpec(s, q, line) == ConstantsSpec(s, q, line)
  {
    assert Entry(s[q]).None? && !IsLetter(s[q]) && !IsSymbol(s[q]);
  }

  lemma KeywordRecognized(k: string)
    requires k in Keywords && k != "in" && k != "int"
    ensures Recognizes(k)
  {
    KeywordsRecognized();
  }

  /** A trie-recognised keyword `k` at `s[q..e]` reaches `keyAcceptingState` just after its last letter. */
  lemma RecognizedWalk(s: string, q: nat, k: string, e: nat, line: int)
    requires Recognizes(k) && e == q + |k| && e <= |s| && s[q..e] == k
    ensures Entry(s[q]).Some?
    ensures UnitSpec(s, q, line) == KeyAcceptingSpec(s, q, e, line)
  {
    assert s[q] == k[0];
    assert k[1..|k|] == s[q + 1..q + 1 + (|k| - 1)];
    WalkSame(Entry(k[0]).value, k, 1, |k|, s, q + 1);
    TrieWalkAccepted(s, q, q + 1, e, line, Entry(k[0]).value);
    UnitOnTrie(s, q, line);
  }

  /** "in" and "int" leave the trie through `block_in`. */
  lemma InWalk(s: string, q: nat, line: int)
    requires q + 2 <= |s| && s[q] == 'i' && s[q + 1] == 'n'
    ensures UnitSpec(s, q, line) == InSpec(s, q, q + 2, line)
  {
    UnitOnTrie(s, q, line);
    assert Step(FromI(I), 'n') == ToIn;
  }

  lemma IntWalk(s: string, q: nat, line: int)
    requires q + 3 <= |s| && s[q] == 'i' && s[q + 1] == 'n' && s[q + 2] == 't'
    ensures UnitSpec(s, q, line) == KeyAcceptingSpec(s, q, q + 3, line)
  {
    InWalk(s, q, line);
  }

  /** A keyword at `s[q..e]` that is not "in" reaches `keyAcceptingState` just after its last letter. */
  lemma KeywordWalk(s: string, q: nat, k: string, e: nat, line: int)
    requires k in Keywords && k != "in" && e == q + |k| && e <= |s| && s[q..e] == k
    ensures UnitSpec(s, q, line) == KeyAcceptingSpec(s, q, e, line)
  {
    if k == "int" {
      assert s[q] == 'i' && s[q + 1] == 'n' && s[q + 2] == 't';
      IntWalk(s, q, line);
    } else {
      KeywordRecognized(k);
      RecognizedWalk(s, q, k, e, line);
    }
  }

  /** `block_identifiers` entered at `p` on a run of identifier characters that a space ends at `j`. */
  lemma IdentifiersUpToSpace(s: string, start: nat, p: nat, j: nat, line: int)
    requires start < p <= j < |s| && s[j] == ' '
    requires forall i :: p <= i < j ==> IsIdChar(s[i])
    ensures IdentifiersSpec(s, start, p, line) == Scan([MakeToken(s[start..j], ID, line)], j + 1, j + 1, None)
  {
    assert IdRunEnd(s, p) == j;
  }

  /** `block_identifiers` on a run of identifier characters that a separator symbol (or `#`) ends at `j`: an ID
      token and an SS token for the symbol. */
  lemma IdentifiersUpToSymbol(s: string, start: nat, p: nat, j: nat, line: int)
    requires start < p <= j < |s| && IsSymbolOrHash(s[j])
    requires forall i :: p <= i < j ==> IsIdChar(s[i])
    ensures IdentifiersSpec(s, start, p, line)
      == Scan([MakeToken(s[start..j], ID, line), MakeToken([s[j]], SS, line)], j + 1, j + 1, None)
  {
  }

  /** A space ends every trie state: the lexeme read so far is an identifier. */
  lemma TrieOnSpace(s: string, start: nat, p: nat, line: int, st: State)
    requires start < p < |s| && s[p] == ' '
    ensures TrieSpec(s, start, p, line, st) == Scan([MakeToken(s[start..p], ID, line)], p + 1, p + 1, None)
  {
    assert Step(st, ' ') == Degrade;
  }

  /** `block_identifiers` on a run of identifier characters ended at `j` by a character that is neither a space, a
      separator symbol nor `#` (a newline right after the identifier, say): no separator, so the run becomes an
      INVALID token with InvalidIdentifier that goes on to the next space or separator symbol. */
  lemma IdentifiersOnOther(s: string, start: nat, p: nat, j: nat, line: int)
    requires start < p <= j < |s| && !IsIdChar(s[j]) && s[j] != ' ' && !IsSymbolOrHash(s[j])
    requires forall i :: p <= i < j ==> IsIdChar(s[i])
    ensures IdentifiersSpec(s, start, p, line) == InvalidSpec(s, start, j + 1, line, InvalidIdentifier)
    ensures IdentifiersSpec(s, start, p, line).tokens[0]
              == MakeInvalid(s[start..InvalidRunEnd(s, j + 1)], line, InvalidIdentifier)
  {
    assert IdRunEnd(s, p) == j;
  }

  /** A separator symbol ends every trie state (through `block_identifierOrError`): the lexeme read so far is an ID
      token, followed by an SS token for the symbol. */
  lemma TrieOnSymbol(s: string, start: nat, p: nat, line: int, st: State)
    requires start < p < |s| && IsSymbol(s[p])
    ensures TrieSpec(s, start, p, line, st)
              == Scan([MakeToken(s[start..p], ID, line), MakeToken([s[p]], SS, line)], p + 1, p + 1, None)
  {
    assert Step(st, s[p]) == Degrade;
  }

  /** An identifier character off the keyword paths sends a trie state on to `block_identifiers`. */
  lemma TrieOnIdChar(s: string, start: nat, p: nat, line: int, st: State)
    requires start < p < |s| && IsIdChar(s[p]) && Step(st, s[p]) == Degrade
    ensures TrieSpec(s, start, p, line, st) == IdentifiersSpec(s, start, p + 1, line)
  {
    assert !IsSymbol(s[p]) && s[p] != ' ';
  }

  /** Any other character in a trie state, `#` and a newline included, is no separator for
      `block_identifierOrError`: the run becomes an INVALID token with InvalidIdentifier. */
  lemma TrieOnOther(s: string, start: nat, p: nat, line: int, st: State)
    requires start < p < |s| && s[p] != ' ' && !IsSymbol(s[p]) && !IsIdChar(s[p])
    ensures TrieSpec(s, start, p, line, st) == InvalidSpec(s, start, p + 1, line, InvalidIdentifier)
  {
    assert Step(st, s[p]) == Degrade;
  }

  /** `keyAcceptingState` on a space: the keyword is emitted. */
  lemma KeyAcceptingOnSpace(s: string, start: nat, p: nat, line: int)
    requires start < p < |s| && s[p] == ' '
    ensures KeyAcceptingSpec(s, start, p, line) == Scan([MakeToken(s[start..p], KEY, line)], p + 1, p + 1, None)
  {
  }

  /** `keyAcceptingState` on an identifier character: the keyword turns into an identifier. */
  lemma KeyAcceptingOnIdChar(s: string, start: nat, p: nat, line: int)
    requires start < p < |s| && IsIdChar(s[p])
    ensures KeyAcceptingSpec(s, start, p, line) == IdentifiersSpec(s, start, p + 1, line)
  {
    assert !IsSymbol(s[p]);
  }

  /** `keyAcceptingState` on a character that is neither a space, a separator symbol nor an identifier character
      (`#` or a newline, say): no separator there, so the run becomes INVALID with InvalidSyntax. */
  lemma KeyAcceptingOnOther(s: string, start: nat, p: nat, line: int)
    requires start < p < |s| && s[p] != ' ' && !IsSymbol(s[p]) && !IsIdChar(s[p])
    ensures KeyAcceptingSpec(s, start, p, line) == InvalidSpec(s, start, p + 1, line, InvalidSyntax)
  {
  }

  /** `block_in` on 't' goes on to "int"; on another identifier character it turns into an identifier. */
  lemma InOnIdChar(s: string, start: nat, p: nat, line: int)
    requires start < p < |s| && IsIdChar(s[p])
    ensures s[p] == 't' ==> InSpec(s, start, p, line) == KeyAcceptingSpec(s, start, p + 1, line)
    ensures s[p] != 't' ==> InSpec(s, start, p, line) == IdentifiersSpec(s, start, p + 1, line)
  {
    assert !IsSymbolOrHash(s[p]);
  }

  /** `block_in` on a character that is neither a space, a separator symbol, `#` nor an identifier character (a
      newline, say): no separator, so "in" and what follows become INVALID with InvalidIdentifier. */
  lemma InOnOther(s: string, start: nat, p: nat, line: int)
    requires start < p < |s| && s[p] != ' ' && !IsSymbolOrHash(s[p]) && !IsIdChar(s[p])
    ensures InSpec(s, start, p, line) == InvalidSpec(s, start, p + 1, line, InvalidIdentifier)
  {
  }

  /** "in" directly followed by a newline is one INVALID token with InvalidIdentifier. */
  lemma InThenNewline(s: string, q: nat, line: int)
    requires q + 2 < |s| && s[q] == 'i' && s[q + 1] == 'n' && s[q + 2] == '\n'
    ensures UnitSpec(s, q, line) == InvalidSpec(s, q, q + 3, line, InvalidIdentifier)
    ensures UnitSpec(s, q, line).tokens[0] == MakeInvalid(s[q..InvalidRunEnd(s, q + 3)], line, InvalidIdentifier)
  {
    InWalk(s, q, line);
    InOnOther(s, q, q + 2, line);
  }

  // ---------------------------------------------------------------------------------------------------------
  // Keywords and identifiers (`e` names the position just after the word)

  /** Each keyword followed by a space is one KEY token whose lexeme is the keyword. */
  lemma KeywordThenSpace(s: string, q: nat, k: string, e: nat, line: int)
    requires k in Keywords && e == q + |k| && e < |s| && s[q..e] == k && s[e] == ' '
    ensures UnitSpec(s, q, line).tokens == [MakeToken(k, KEY, line)]
    ensures UnitSpec(s, q, line).pos == e + 1
  {
    if k == "in" {
      assert s[q] == 'i' && s[q + 1] == 'n';
      InWalk(s, q, line);
    } else {
      KeywordWalk(s, q, k, e, line);
      KeyAcceptingOnSpace(s, q, e, line);
    }
  }

  /** A keyword other than "in" ended directly by a separator symbol gives two tokens: the KEY token, then an SS
      token for the symbol. */
  lemma KeywordThenSymbol(s: string, q: nat, k: string, e: nat, line: int)
    requires k in Keywords && k != "in" && e == q + |k| && e < |s| && s[q..e] == k && IsSymbol(s[e])
    ensures UnitSpec(s, q, line).tokens == [MakeToken(k, KEY, line), MakeToken([s[e]], SS, line)]
    ensures UnitSpec(s, q, line).pos == e + 1
  {
    KeywordWalk(s, q, k, e, line);
  }

  /** A proper prefix of a keyword followed by a space is one ID token ("in" and "int" only have the prefix "i",
      which is also a prefix of "if" and "import"). */
  lemma KeywordPrefixThenSpace(s: string, q: nat, k: string, m: nat, e: nat, line: int)
    requires k in Keywords && k != "in" && k != "int" && 1 <= m < |k|
    requires e == q + m && e < |s| && s[q..e] == k[..m] && s[e] == ' '
    ensures UnitSpec(s, q, line).tokens == [MakeToken(k[..m], ID, line)]
    ensures UnitSpec(s, q, line).pos == e + 1
  {
    KeywordRecognized(k);
    PrefixThenSpace(s, q, k, m, e, line);
  }

  lemma PrefixThenSpace(s: string, q: nat, k: string, m: nat, e: nat, line: int)
    requires Recognizes(k) && 1 <= m < |k|
    requires e == q + m && e < |s| && s[q..e] == k[..m] && s[e] == ' '
    ensures UnitSpec(s, q, line) == Scan([MakeToken(k[..m], ID, line)], e + 1, e + 1, None)
  {
    var st := Entry(k[0]).value;
    assert s[q] == k[..m][0] == k[0];
    UnitOnTrie(s, q, line);
    var n := st;
    if 1 < m {
      WalkPrefixDeeper(st, k, 1, m, |k|);
      n := Walk(st, k, 1, m).next;
      assert k[1..m] == s[q + 1..q + 1 + (m - 1)];
      WalkSame(st, k, 1, m, s, q + 1);
      TrieWalkDeeper(s, q, q + 1, e, line, st, n);
    }
    TrieOnSpace(s, q, e, line, n);
  }

  /** Once `keyAcceptingState` is reached at `j`, identifier characters up to a space make the whole run an ID. */
  lemma AcceptedThenIdChars(s: string, q: nat, j: nat, e: nat, line: int)
    requires q < j < e < |s| && s[e] == ' ' && UnitSpec(s, q, line) == KeyAcceptingSpec(s, q, j, line)
    requires forall i :: j <= i < e ==> IsIdChar(s[i])
    ensures UnitSpec(s, q, line) == Scan([MakeToken(s[q..e], ID, line)], e + 1, e + 1, None)
  {
    KeyAcceptingOnIdChar(s, q, j, line);
    IdentifiersUpToSpace(s, q, j + 1, e, line);
  }

  /** "in" followed by identifier characters other than a leading 't' and then a space is an ID. */
  lemma InThenIdChars(s: string, q: nat, e: nat, line: int)
    requires q + 2 < e < |s| && s[q] == 'i' && s[q + 1] == 'n' && s[q + 2] != 't' && s[e] == ' '
    requires forall i :: q + 2 <= i < e ==> IsIdChar(s[i])
    ensures UnitSpec(s, q, line) == Scan([MakeToken(s[q..e], ID, line)], e + 1, e + 1, None)
  {
    InWalk(s, q, line);
    InOnIdChar(s, q, q + 2, line);
    IdentifiersUpToSpace(s, q, q + 3, e, line);
  }

  /** "in" extended by identifier characters (but not to "int"), followed by a space, is one ID token. */
  lemma InExtendedThenSpace(s: string, q: nat, x: string, e: nat, line: int)
    requires |x| >= 1 && (forall i :: 0 <= i < |x| ==> IsIdChar(x[i])) && x != "t"
    requires e == q + 2 + |x| && e < |s| && s[q..e] == "in" + x && s[e] == ' '
    ensures UnitSpec(s, q, line) == Scan([MakeToken(s[q..e], ID, line)], e + 1, e + 1, None)
  {
    assert forall i :: q + 2 <= i < e ==> s[i] == ("in" + x)[i - q] == x[i - q - 2];
    assert s[q] == 'i' && s[q + 1] == 'n' && s[q + 2] == x[0];
    if x[0] == 't' {
      assert x == x[..1] + x[1..];
      IntWalk(s, q, line);
      AcceptedThenIdChars(s, q, q + 3, e, line);
    } else {
      InThenIdChars(s, q, e, line);
    }
  }

  /** A keyword extended by identifier characters, followed by a space, is one ID token for the whole run. */
  lemma KeywordExtendedThenSpace(s: string, q: nat, k: string, x: string, e: nat, line: int)
    requires k in Keywords && |x| >= 1 && (forall i :: 0 <= i < |x| ==> IsIdChar(x[i])) && k + x !in Keywords
    requires e == q + |k| + |x| && e < |s| && s[q..e] == k + x && s[e] == ' '
    ensures UnitSpec(s, q, line).tokens == [MakeToken(k + x, ID, line)]
    ensures UnitSpec(s, q, line).pos == e + 1
  {
    if k == "in" {
      assert "in" + "t" == "int";
      InExtendedThenSpace(s, q, x, e, line);
    } else {
      ExtendedSplit(s, q, k, x, e);
      KeywordWalk(s, q, k, q + |k|, line);
      AcceptedThenIdChars(s, q, q + |k|, e, line);
    }
  }

  /** Where `k + x` sits at `s[q..e]`, `k` is at `s[q..q + |k|]` and `x` fills the rest. */
  lemma ExtendedSplit(s: string, q: nat, k: string, x: string, e: nat)
    requires e == q + |k| + |x| && e <= |s| && s[q..e] == k + x
    ensures s[q..q + |k|] == k
    ensures forall i :: q + |k| <= i < e ==> s[i] == x[i - q - |k|]
  {
    var j := q + |k|;
    assert forall i :: j <= i < e ==> s[i] == (k + x)[i - q] == x[i - j];
    assert forall i :: q <= i < j ==> s[i] == s[q..e][i - q] == (k + x)[i - q] == k[i - q];
    assert s[q..j] == k;
  }

  /** "in" followed by a separator symbol (or `#`) yields no token at all: `block_in` parks both elsewhere. */
  lemma InThenSymbolDropped(s: string, q: nat, line: int)
    requires q + 2 < |s| && s[q] == 'i' && s[q + 1] == 'n' && IsSymbolOrHash(s[q + 2])
    ensures UnitSpec(s, q, line).tokens == []
    ensures UnitSpec(s, q, line).pos == q + 3
  {
    InWalk(s, q, line);
  }

  /** `keyAcceptingState` does not count `#` as a separator: a keyword other than "in" followed by `#` becomes an
      INVALID token with InvalidSyntax that runs on to the next space or separator symbol. */
  lemma KeywordThenHash(s: string, q: nat, k: string, e: nat, line: int)
    requires k in Keywords && k != "in" && e == q + |k| && e < |s| && s[q..e] == k && s[e] == '#'
    ensures |UnitSpec(s, q, line).tokens| >= 1
    ensures UnitSpec(s, q, line).tokens[0] == MakeInvalid(s[q..InvalidRunEnd(s, e + 1)], line, InvalidSyntax)
  {
    KeywordWalk(s, q, k, e, line);
    KeyAcceptingOnOther(s, q, e, line);
  }

  // ---------------------------------------------------------------------------------------------------------
  // Constants

  /** The loop of `block_constants` stops exactly where the characterisation of its stopping point says. */
  lemma {:induction false} ConstRunEndAt(s: string, p: nat, dot: bool, j: nat)
    requires p <= j <= |s|
    requires forall i :: p <= i < j ==> IsDigit(s[i]) || s[i] == '.'
    requires forall i, i' :: p <= i < i' < j && s[i] == '.' ==> s[i'] != '.'
    requires dot ==> forall i :: p <= i < j ==> s[i] != '.'
    requires j < |s| ==> !IsDigit(s[j]) && (s[j] == '.' ==> dot || exists i :: p <= i < j && s[i] == '.')
    ensures ConstRunEnd(s, p, dot) == j
    decreases j - p
  {
    if p < j {
      if IsDigit(s[p]) {
        ConstRunEndAt(s, p + 1, dot, j);
      } else {
        ConstRunEndAt(s, p + 1, true, j);
      }
    }
  }

  /** A well-formed constant at `s[q..]` is read up to its end. */
  lemma ConstantRun(s: string, q: nat, w: string, e: nat)
    requires IsConstLexeme(w) && e == q + |w| && e < |s| && s[q..e] == w
    requires s[e] == '.' ==> exists i :: 0 <= i < |w| && w[i] == '.'
    requires !IsDigit(s[e])
    ensures IsDigit(s[q]) && ConstRunEnd(s, q + 1, false) == e
  {
    assert forall i :: q <= i < e ==> s[i] == w[i - q];
    if s[e] == '.' {
      var i :| 0 <= i < |w| && w[i] == '.';
      assert s[q + i] == '.' && q + 1 <= q + i;
    }
    ConstRunEndAt(s, q + 1, false, e);
  }

  /** `block_constants` on a well-formed constant `w`: followed by a space, one CONST token; followed by a
      separator symbol or `#`, a CONST token and an SS token for the symbol; followed by a second decimal point,
      an INVALID token with MultipleDecimals; followed by anything else (a letter, a newline, ...), an INVALID
      token with InvalidConstant. Either INVALID token runs on to the next space or separator symbol. */
  lemma ConstantFollowedBy(s: string, q: nat, w: string, e: nat, line: int)
    requires IsConstLexeme(w) && e == q + |w| && e < |s| && s[q..e] == w && !IsDigit(s[e])
    requires s[e] == '.' ==> exists i :: 0 <= i < |w| && w[i] == '.'
    ensures var r := ConstantsSpec(s, q, line);
      (s[e] == ' ' ==> r.tokens == [MakeToken(w, CONST, line)] && r.pos == e + 1)
      && (IsSymbolOrHash(s[e]) ==> r.tokens == [MakeToken(w, CONST, line), MakeToken([s[e]], SS, line)] && r.pos == e + 1)
      && (s[e] == '.' ==> r.tokens[0] == MakeInvalid(s[q..InvalidRunEnd(s, e + 1)], line, MultipleDecimals))
      && (s[e] != '.' && s[e] != ' ' && !IsSymbolOrHash(s[e]) ==>
            r.tokens[0] == MakeInvalid(s[q..InvalidRunEnd(s, e + 1)], line, InvalidConstant))
  {
    ConstantRun(s, q, w, e);
  }
}
