/** The static grammar data of the LL(1) parser (parser.py) and the two lookups over them, `get_token` and
    `findRule`. Codes 1..41 are terminals, 42..69 nonterminals, 0 the bottom-of-stack marker and 70 the end marker. */
module Grammar {

  const Bottom := 0
  const Start := 42
  const EndMarker := 70
  /** The right-hand-side item that stands for ε. */
  const Epsilon := -1

  predicate IsTerminal(x: int) { 1 <= x <= 41 }
  predicate IsNonterminal(x: int) { 42 <= x <= 69 }

  /** `token_lookup` (parser.py:35-42): the symbol named by each code, written as six consecutive slices. */
  const TokenLookup: seq<string> :=
    TerminalNamesA + TerminalNamesB + TerminalNamesC + NonterminalNamesA + NonterminalNamesB + ["$"]

  /** Codes 0..13: the bottom marker, `[id]`, `[const]` and the first keywords. */
  const TerminalNamesA: seq<string> := [
    "Z0", "[id]", "[const]", "package", "import", "abstract", "final", "sealed", "private", "protected", "class",
    "object", "val", "def"
  ]
  /** Codes 14..27. */
  const TerminalNamesB: seq<string> := [
    "<=", "if", "else", "while", "case", "=>", "in", "print", "return", "not", "true", "false", "and", "or"
  ]
  /** Codes 28..41: the last keywords and the special symbols. */
  const TerminalNamesC: seq<string> := [
    "int", "real", "bool", ";", "{", "}", "(", ")", ":", ",", "=", "+", "*", "@"
  ]
  /** Codes 42..55. */
  const NonterminalNamesA: seq<string> := [
    "<scala>", "<packages>", "<imports>", "<scala-body>", "<subbody>", "<modifier>", "<subbody-tail>",
    "<tail-type>", "<block>", "<stmts>", "<stmt>", "<dcl>", "<dcl-tail>", "<ids>"
  ]
  /** Codes 56..69. */
  const NonterminalNamesB: seq<string> := [
    "<more-ids>", "<type>", "<asmt>", "<if>", "<while>", "<case>", "<in>", "<out>", "<return>", "<expr>",
    "<arith-expr>", "<arith>", "<bool-expr>", "<bool>"
  ]

  /** `syntax_rules` (parser.py:46-105): the right-hand side of each rule, -1 standing for ε. The one dictionary of
      the source is written as the union of three literals with disjoint keys. */
  const SyntaxRules: map<int, seq<int>> := RulesA + RulesB + RulesC

  /** Rules 1..20. */
  const RulesA: map<int, seq<int>> := map[
    1 := [43, 44, 45], 2 := [3, 1, 31, 43], 3 := [-1], 4 := [4, 1, 31, 44], 5 := [-1], 6 := [46, 45], 7 := [-1],
    8 := [47, 48], 9 := [5], 10 := [6], 11 := [7], 12 := [8], 13 := [9], 14 := [49, 50], 15 := [10], 16 := [11],
    17 := [32, 51, 33], 18 := [52, 31, 51], 19 := [-1], 20 := [53]
  ]
  /** Rules 21..40. */
  const RulesB: map<int, seq<int>> := map[
    21 := [58], 22 := [59], 23 := [60], 24 := [61], 25 := [62], 26 := [63], 27 := [64], 28 := [50], 29 := [12, 54],
    30 := [13, 1, 34, 55, 35, 50], 31 := [55, 36, 57], 32 := [1, 56], 33 := [37, 1, 56], 34 := [-1], 35 := [28],
    36 := [29], 37 := [30], 38 := [1, 14, 65], 39 := [15, 34, 65, 35, 52, 31, 16, 52], 40 := [17, 34, 65, 35, 52]
  ]
  /** Rules 41..59. */
  const RulesC: map<int, seq<int>> := map[
    41 := [18, 1, 38, 65, 19, 52], 42 := [20, 34, 55, 35], 43 := [21, 34, 55, 35], 44 := [22, 34, 65, 35],
    45 := [66], 46 := [68], 47 := [1, 67], 48 := [2, 67], 49 := [34, 66, 35, 67], 50 := [39, 66], 51 := [40, 66],
    52 := [-1], 53 := [23, 34, 68, 35, 69], 54 := [24, 69], 55 := [25, 69], 56 := [41, 66, 66], 57 := [26, 68],
    58 := [27, 68], 59 := [-1]
  ]

  /** `parse_table` (parser.py:112-274): nonterminal on top of the stack -> lookahead terminal -> rule. */
  const ParseTable: map<int, map<int, int>> := map[
    42 := map[3 := 1, 4 := 1, 5 := 1, 6 := 1, 7 := 1, 8 := 1, 9 := 1],
    43 := map[3 := 2, 4 := 3, 5 := 3, 6 := 3, 7 := 3, 8 := 3, 9 := 3],
    44 := map[4 := 4, 5 := 5, 6 := 5, 7 := 5, 8 := 5, 9 := 5],
    45 := map[5 := 6, 6 := 6, 7 := 6, 8 := 6, 9 := 6, 70 := 7],
    46 := map[5 := 8, 6 := 8, 7 := 8, 8 := 8, 9 := 8],
    47 := map[5 := 9, 6 := 10, 7 := 11, 8 := 12, 9 := 13],
    48 := map[10 := 14, 11 := 14],
    49 := map[10 := 15, 11 := 16],
    50 := map[32 := 17],
    51 := map[12 := 18, 13 := 18, 1 := 18, 15 := 18, 17 := 18, 18 := 18, 20 := 18, 21 := 18, 22 := 18, 32 := 18,
              33 := 19],
    52 := map[12 := 20, 13 := 20, 1 := 21, 15 := 22, 17 := 23, 18 := 24, 20 := 25, 21 := 26, 22 := 27,
              32 := 28],
    53 := map[12 := 29, 13 := 30],
    54 := map[1 := 31],
    55 := map[1 := 32],
    56 := map[37 := 33, 36 := 34, 35 := 34],
    57 := map[28 := 35, 29 := 36, 30 := 37],
    58 := map[1 := 38],
    59 := map[15 := 39],
    60 := map[17 := 40],
    61 := map[18 := 41],
    62 := map[20 := 42],
    63 := map[21 := 43],
    64 := map[22 := 44],
    65 := map[1 := 45, 2 := 45, 34 := 45, 23 := 46, 24 := 46, 25 := 46, 41 := 46],
    66 := map[1 := 47, 2 := 48, 34 := 49],
    67 := map[39 := 50, 40 := 51, 31 := 52, 35 := 52, 19 := 52, 1 := 52, 2 := 52],
    68 := map[23 := 53, 24 := 54, 25 := 55, 41 := 56],
    69 := map[26 := 57, 27 := 58, 31 := 59, 35 := 59, 19 := 59]
  ]

  // ---------------------------------------------------------------------------------------------------------
  // Lookups

  /** `list.index` as `get_token` uses it: the first position at or after `i` holding `x`, or -1. */
  function IndexFrom(xs: seq<string>, x: string, i: nat): (r: int)
    requires i <= |xs|
    ensures r == -1 <==> forall j :: i <= j < |xs| ==> xs[j] != x
    ensures r != -1 ==> i <= r < |xs| && xs[r] == x && forall j :: i <= j < r ==> xs[j] != x
    decreases |xs| - i
  {
    if i == |xs| then -1 else if xs[i] == x then i else IndexFrom(xs, x, i + 1)
  }

  /** The three class attributes of `Parser` (parser.py:35-274), as one value. */
  datatype Tables = Tables(tokenLookup: seq<string>, syntaxRules: map<int, seq<int>>, parseTable: map<int, map<int, int>>)

  /** The tables of parser.py. */
  const ScalaTables := Tables(TokenLookup, SyntaxRules, ParseTable)

  /** `get_token` (parser.py:310-320): the code of a symbol name, or -1 when it is not in the list. */
  function GetToken(g: Tables, token: string): (r: int)
    ensures r == -1 <==> token !in g.tokenLookup
    ensures r != -1 ==> 0 <= r < |g.tokenLookup| && g.tokenLookup[r] == token
    ensures r != -1 ==> forall j :: 0 <= j < r ==> g.tokenLookup[j] != token
  {
    IndexFrom(g.tokenLookup, token, 0)
  }

  /** What the parser relies on in its tables: the table has rows only for nonterminals and columns only for
      terminals and the end marker, every rule it names exists, rules are numbered from 1, and every right-hand
      side is ε alone or a non-empty list of terminals and nonterminals. */
  predicate WellFormedTables(g: Tables)
  {
    (forall n :: n in g.parseTable ==> IsNonterminal(n))
    && (forall n, t :: n in g.parseTable && t in g.parseTable[n] ==> IsTerminal(t) || t == EndMarker)
    && (forall n, t :: n in g.parseTable && t in g.parseTable[n] ==> g.parseTable[n][t] in g.syntaxRules)
    && (forall r :: r in g.syntaxRules ==> r >= 1)
    && (forall r :: r in g.syntaxRules ==> WellFormedRhs(g.syntaxRules[r]))
  }

  /** `findRule` (parser.py:298-308): the table entry for a stack top and a lookahead, or -1 when there is none.
      In well-formed tables -1 means exactly that there is no entry, and a rule found is one of the grammar's, for
      a nonterminal top. */
  function FindRule(g: Tables, top: int, lookahead: int): (r: int)
    ensures top in g.parseTable && lookahead in g.parseTable[top] ==> r == g.parseTable[top][lookahead]
    ensures !(top in g.parseTable && lookahead in g.parseTable[top]) ==> r == -1
    ensures WellFormedTables(g) && r != -1 ==>
              r in g.syntaxRules && IsNonterminal(top) && (IsTerminal(lookahead) || lookahead == EndMarker)
    ensures WellFormedTables(g) ==> (r == -1 <==> !(top in g.parseTable && lookahead in g.parseTable[top]))
  {
    if top in g.parseTable && lookahead in g.parseTable[top] then g.parseTable[top][lookahead] else -1
  }

  /** The items `executeRule` pushes for a right-hand side: every item but the ε marker and nothing else, the whole
      right-hand side when it holds no ε, and in order (as `PushedConcat` states). */
  function Pushed(rhs: seq<int>): (r: seq<int>)
    ensures Epsilon !in r
    ensures forall i :: 0 <= i < |rhs| && rhs[i] != Epsilon ==> rhs[i] in r
    ensures forall i :: 0 <= i < |r| ==> r[i] in rhs
    ensures Epsilon !in rhs ==> r == rhs
  {
    if rhs == [] then []
    else
      assert rhs == [rhs[0]] + rhs[1..];
      (if rhs[0] == Epsilon then [] else [rhs[0]]) + Pushed(rhs[1..])
  }

  /** Filtering out ε keeps the order: the items pushed for `a + b` are those for `a` followed by those for `b`. */
  lemma {:induction false} PushedConcat(a: seq<int>, b: seq<int>)
    ensures Pushed(a + b) == Pushed(a) + Pushed(b)
  {
    if a != [] {
      assert (a + b)[1..] == a[1..] + b;
      PushedConcat(a[1..], b);
    } else {
      assert a + b == b;
    }
  }

  // ---------------------------------------------------------------------------------------------------------
  // Consistency of the tables

  predicate Distinct(xs: seq<string>) {
    forall i, j :: 0 <= i < j < |xs| ==> xs[i] != xs[j]
  }

  predicate Apart(xs: seq<string>, ys: seq<string>) {
    forall i, j :: 0 <= i < |xs| && 0 <= j < |ys| ==> xs[i] != ys[j]
  }

  lemma DistinctConcat(xs: seq<string>, ys: seq<string>)
    requires Distinct(xs) && Distinct(ys) && Apart(xs, ys)
    ensures Distinct(xs + ys)
  {
  }

  lemma ApartConcat(xs: seq<string>, ys: seq<string>, zs: seq<string>)
    requires Apart(xs, zs) && Apart(ys, zs)
    ensures Apart(xs + ys, zs)
  {
  }

  // The pairwise comparisons of the name slices, grouped so that each lemma compares a few hundred pairs.

  lemma NamesApart1()
    ensures Distinct(TerminalNamesA) && Apart(TerminalNamesA, TerminalNamesB) && Apart(TerminalNamesA, TerminalNamesC)
  {
  }

  lemma NamesApart2()
    ensures Apart(TerminalNamesA, NonterminalNamesA) && Apart(TerminalNamesA, NonterminalNamesB)
    ensures Apart(TerminalNamesA, ["$"])
  {
  }

  lemma NamesApart3()
    ensures Distinct(TerminalNamesB) && Apart(TerminalNamesB, TerminalNamesC) && Apart(TerminalNamesB, NonterminalNamesA)
  {
  }

  lemma NamesApart4()
    ensures Apart(TerminalNamesB, NonterminalNamesB) && Apart(TerminalNamesB, ["$"])
    ensures Distinct(TerminalNamesC) && Apart(TerminalNamesC, NonterminalNamesA)
  {
  }

  lemma NamesApart5()
    ensures Apart(TerminalNamesC, NonterminalNamesB) && Apart(TerminalNamesC, ["$"])
    ensures Distinct(NonterminalNamesA) && Apart(NonterminalNamesA, NonterminalNamesB)
  {
  }

  lemma NamesApart6()
    ensures Apart(NonterminalNamesA, ["$"]) && Distinct(NonterminalNamesB) && Apart(NonterminalNamesB, ["$"])
  {
  }

  /** The 71 names are pairwise distinct, so `get_token` inverts `token_lookup`. */
  lemma TokenLookupDistinct()
    ensures |TokenLookup| == 71
    ensures Distinct(TokenLookup)
  {
    NamesApart1(); NamesApart2(); NamesApart3(); NamesApart4(); NamesApart5(); NamesApart6();
    var a, b, c, d, e, f := TerminalNamesA, TerminalNamesB, TerminalNamesC, NonterminalNamesA, NonterminalNamesB, ["$"];
    DistinctConcat(a, b);
    ApartConcat(a, b, c);
    DistinctConcat(a + b, c);
    ApartConcat(a, b, d); ApartConcat(a + b, c, d);
    DistinctConcat(a + b + c, d);
    ApartConcat(a, b, e); ApartConcat(a + b, c, e); ApartConcat(a + b + c, d, e);
    DistinctConcat(a + b + c + d, e);
    ApartConcat(a, b, f); ApartConcat(a + b, c, f); ApartConcat(a + b + c, d, f); ApartConcat(a + b + c + d, e, f);
    DistinctConcat(a + b + c + d + e, f);
  }

  /** `get_token(token_lookup[i]) == i` for every code. */
  lemma GetTokenRoundTrip(i: int)
    requires 0 <= i < |TokenLookup|
    ensures GetToken(ScalaTables, TokenLookup[i]) == i
  {
    TokenLookupDistinct();
  }

  /** A right-hand side is ε alone or a non-empty list of terminals and nonterminals. */
  predicate WellFormedRhs(rhs: seq<int>) {
    rhs == [Epsilon] || (|rhs| >= 1 && forall i :: 0 <= i < |rhs| ==> IsTerminal(rhs[i]) || IsNonterminal(rhs[i]))
  }

  /** The rules whose right-hand side is ε. */
  const EpsilonRuleIds: set<int> := {3, 5, 7, 19, 34, 52, 59}

  predicate RuleShape(r: int, rhs: seq<int>) {
    WellFormedRhs(rhs) && (rhs == [Epsilon] <==> r in EpsilonRuleIds)
  }

  lemma RulesAShape()
    ensures forall r :: r in RulesA ==> 1 <= r <= 20 && RuleShape(r, RulesA[r])
  {
  }

  lemma RulesBShape()
    ensures forall r :: r in RulesB ==> 21 <= r <= 40 && RuleShape(r, RulesB[r])
  {
  }

  lemma RulesCShape()
    ensures forall r :: r in RulesC ==> 41 <= r <= 59 && RuleShape(r, RulesC[r])
  {
  }

  lemma RuleIds()
    ensures forall r :: r in SyntaxRules <==> 1 <= r <= 59
  {
    RulesAKeys(); RulesBKeys(); RulesCKeys();
    RuleIdsPresent();
    forall r | r in SyntaxRules
      ensures 1 <= r <= 59
    {
      assert r in RulesA || r in RulesB || r in RulesC;
    }
  }

  lemma RuleIdsPresent() ensures forall r :: 1 <= r <= 59 ==> r in SyntaxRules {}
  lemma RulesAKeys() ensures forall r :: r in RulesA ==> 1 <= r <= 20 {}
  lemma RulesBKeys() ensures forall r :: r in RulesB ==> 21 <= r <= 40 {}
  lemma RulesCKeys() ensures forall r :: r in RulesC ==> 41 <= r <= 59 {}

  /** The rules are numbered 1..59; every right-hand side is ε alone or a non-empty list of codes that index
      `token_lookup`; exactly rules 3, 5, 7, 19, 34, 52 and 59 derive ε. */
  lemma RulesWellFormed()
    ensures forall r :: r in SyntaxRules <==> 1 <= r <= 59
    ensures forall r :: r in SyntaxRules ==> WellFormedRhs(SyntaxRules[r])
    ensures forall r :: r in SyntaxRules && SyntaxRules[r] == [Epsilon] <==> r in EpsilonRuleIds
  {
    RuleIds();
    forall r | r in SyntaxRules
      ensures RuleShape(r, SyntaxRules[r])
    {
      if r in RulesC {
        RulesCShape();
      } else if r in RulesB {
        RulesBShape();
      } else {
        RulesAShape();
      }
    }
  }

  /** Every code a right-hand side pushes indexes `token_lookup`. */
  lemma RuleSymbolsNamed(r: int, i: int)
    requires r in SyntaxRules && 0 <= i < |SyntaxRules[r]| && SyntaxRules[r][i] != Epsilon
    ensures 0 < SyntaxRules[r][i] < |TokenLookup|
  {
    RulesWellFormed();
    assert |TokenLookup| == 71;
  }

  lemma TableRows()
    ensures forall n :: n in ParseTable <==> IsNonterminal(n)
  {
  }

  lemma TableColumns()
    ensures forall n, t :: n in ParseTable && t in ParseTable[n] ==> IsTerminal(t) || t == EndMarker
  {
  }

  lemma TableRuleIds()
    ensures forall n, t :: n in ParseTable && t in ParseTable[n] ==> 1 <= ParseTable[n][t] <= 59
  {
  }

  /** The table of parser.py has a row for every nonterminal and no other, every column is a terminal or the end
      marker, and every rule it names exists. */
  lemma TableWellFormed()
    ensures forall n :: n in ParseTable <==> IsNonterminal(n)
    ensures forall n, t :: n in ParseTable && t in ParseTable[n] ==> IsTerminal(t) || t == EndMarker
    ensures forall n, t :: n in ParseTable && t in ParseTable[n] ==> ParseTable[n][t] in SyntaxRules
  {
    TableRows();
    TableColumns();
    TableRuleIds();
    RuleIds();
  }

  /** The tables of parser.py are well formed. */
  lemma ScalaTablesWellFormed()
    ensures WellFormedTables(ScalaTables)
  {
    TableWellFormed();
    RulesWellFormed();
  }
}
