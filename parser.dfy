/** The table-driven LL(1) parser engine of parser.py: its stack, `executeRule`, and the match / derive / accept /
    error steps of `parsing`, run over the sequence of tokens the scanner produces. */
module Parsing {

  import opened Options
  import opened Tokens
  import opened Grammar
  import opened SymbolTable

  // ---------------------------------------------------------------------------------------------------------
  // The stack

  /** `Stack` (parser.py:4-24): a list whose top is at index 0. */
  class Stack {
    var items: seq<int>

    constructor ()
      ensures items == []
    {
      items := [];
    }

    /** parser.py:11-12. */
    method IsEmpty() returns (r: bool)
      ensures r <==> |items| == 0
    {
      r := items == [];
    }

    /** parser.py:14-15: `items.insert(0, item)`. */
    method Push(x: int)
      modifies this
      ensures items == [x] + old(items)
    {
      items := [x] + items;
    }

    /** parser.py:17-18: `items.pop(0)`, which fails on an empty list. */
    method Pop() returns (x: int)
      requires |items| >= 1
      modifies this
      ensures x == old(items)[0] && items == old(items)[1..]
    {
      x := items[0];
      items := items[1..];
    }

    /** parser.py:20-21: the top, which `items[0]` requires to exist. */
    method Peek() returns (x: int)
      requires |items| >= 1
      ensures x == items[0]
    {
      x := items[0];
    }

    /** parser.py:23-24. */
    method Size() returns (n: nat)
      ensures n == |items|
    {
      n := |items|;
    }
  }

  /** A push followed by a pop gives back the pushed item and the stack as it was. */
  method PushThenPop(s: Stack, x: int) returns (y: int)
    modifies s
    ensures y == x && s.items == old(s.items)
  {
    s.Push(x);
    y := s.Pop();
  }

  // ---------------------------------------------------------------------------------------------------------
  // Pushing a right-hand side

  /** `Pushed` from position `i` on: the item at `i` unless it is ε, then the rest. */
  lemma PushedFrom(rhs: seq<int>, i: int)
    requires 0 <= i < |rhs|
    ensures Pushed(rhs[i..]) == (if rhs[i] == Epsilon then [] else [rhs[i]]) + Pushed(rhs[i + 1..])
  {
    assert rhs[i..][1..] == rhs[i + 1..];
  }

  /** One pass of the push loop of `executeRule`: pushing item `i` (unless it is ε) onto what items `i + 1..` left
      gives what items `i..` leave. */
  lemma PushStep(rhs: seq<int>, i: int, below: seq<int>)
    requires 0 <= i < |rhs|
    ensures rhs[i] != Epsilon ==> [rhs[i]] + (Pushed(rhs[i + 1..]) + below) == Pushed(rhs[i..]) + below
    ensures rhs[i] == Epsilon ==> Pushed(rhs[i + 1..]) + below == Pushed(rhs[i..]) + below
  {
    PushedFrom(rhs, i);
  }

  /** What `executeRule` puts on the stack for a rule of well-formed tables: nothing for an ε rule, and otherwise
      the whole right-hand side, first symbol on top; either way only terminals and nonterminals. */
  lemma RulePushes(g: Tables, r: int)
    requires WellFormedTables(g) && r in g.syntaxRules
    ensures g.syntaxRules[r] == [Epsilon] ==> Pushed(g.syntaxRules[r]) == []
    ensures g.syntaxRules[r] != [Epsilon] ==> Pushed(g.syntaxRules[r]) == g.syntaxRules[r] && |g.syntaxRules[r]| >= 1
    ensures forall i :: 0 <= i < |Pushed(g.syntaxRules[r])| ==>
              IsTerminal(Pushed(g.syntaxRules[r])[i]) || IsNonterminal(Pushed(g.syntaxRules[r])[i])
  {
    var rhs := g.syntaxRules[r];
    assert WellFormedRhs(rhs);
    if rhs == [Epsilon] {
      assert Pushed(rhs) == [] + Pushed([]);
    } else {
      assert Epsilon !in rhs;
    }
  }

  // ---------------------------------------------------------------------------------------------------------
  // The run as a step function

  /** A parser stack: the bottom marker 0 at the bottom and terminals or nonterminals above it. */
  predicate ValidStack(st: seq<int>)
  {
    |st| >= 1 && st[|st| - 1] == Bottom && forall i :: 0 <= i < |st| - 1 ==> IsTerminal(st[i]) || IsNonterminal(st[i])
  }

  /** Every entry of the symbol table was made for an identifier or a constant. */
  predicate SymbolsNamed(tab: map<string, TokenType>)
  {
    forall k :: k in tab ==> tab[k] == ID || tab[k] == CONST
  }

  /** The state of `parsing` between two iterations: the stack, the lookahead code, the tokens not yet read, and
      the symbol table. */
  datatype Config = Config(stack: seq<int>, lookahead: int, rest: seq<Token>, symtab: map<string, TokenType>)

  datatype Outcome =
    | Accept
    | SyntaxError(top: int, lookahead: int)
    | Mismatch(expected: int, found: int)
    | OutOfFuel

  datatype Next = Halt(outcome: Outcome) | Continue(config: Config)

  /** The lookahead code of a token read after a match (parser.py:369-381): an identifier is looked up as `[id]`,
      a constant as `[const]`, and any other token by its lexeme; -1 when the table names no such symbol. */
  function Lookahead(g: Tables, t: Token): (code: int)
    ensures var key := if t.tokenType == ID then "[id]" else if t.tokenType == CONST then "[const]" else t.lexeme;
      (code == -1 <==> key !in g.tokenLookup)
      && (code != -1 ==> 0 <= code < |g.tokenLookup| && g.tokenLookup[code] == key)
  {
    if t.tokenType == ID then GetToken(g, "[id]")
    else if t.tokenType == CONST then GetToken(g, "[const]")
    else GetToken(g, t.lexeme)
  }

  /** In parser.py's own tables (parser.py:35) `[id]` and `[const]` are codes 1 and 2, so those are the lookaheads
      of an identifier and a constant. */
  lemma IdAndConstCodes(t: Token)
    ensures ScalaTables.tokenLookup[1] == "[id]" && ScalaTables.tokenLookup[2] == "[const]"
    ensures t.tokenType == ID ==> Lookahead(ScalaTables, t) == 1
    ensures t.tokenType == CONST ==> Lookahead(ScalaTables, t) == 2
  {
  }

  /** Reading the token after a match (parser.py:366-379): identifiers and constants go into the symbol table.
      After the last token the lookahead is the end marker `$`. */
  function ReadNext(g: Tables, c: Config): (d: Config)
    ensures d.stack == c.stack
    ensures c.rest == [] ==> d.lookahead == EndMarker && d.rest == [] && d.symtab == c.symtab
    ensures c.rest != [] ==> d.lookahead == Lookahead(g, c.rest[0]) && d.rest == c.rest[1..]
    ensures c.rest != [] && (c.rest[0].tokenType == ID || c.rest[0].tokenType == CONST) ==>
              d.symtab == Inserted(c.symtab, c.rest[0])
    ensures c.rest != [] && c.rest[0].tokenType != ID && c.rest[0].tokenType != CONST ==> d.symtab == c.symtab
  {
    if c.rest == [] then
      c.(lookahead := EndMarker)
    else
      var t := c.rest[0];
      var tab := if t.tokenType == ID || t.tokenType == CONST then Inserted(c.symtab, t) else c.symtab;
      Config(c.stack, Lookahead(g, t), c.rest[1..], tab)
  }

  lemma ValidPush(xs: seq<int>, st: seq<int>)
    requires forall i :: 0 <= i < |xs| ==> IsTerminal(xs[i]) || IsNonterminal(xs[i])
    requires ValidStack(st)
    ensures ValidStack(xs + st)
  {
  }

  lemma ValidPop(st: seq<int>)
    requires ValidStack(st) && st[0] != Bottom
    ensures ValidStack(st[1..])
  {
  }

  lemma InsertKeepsNamed(tab: map<string, TokenType>, t: Token)
    requires SymbolsNamed(tab) && (t.tokenType == ID || t.tokenType == CONST)
    ensures SymbolsNamed(Inserted(tab, t))
  {
  }

  lemma ReadNextKeepsNamed(g: Tables, c: Config)
    ensures SymbolsNamed(c.symtab) ==> SymbolsNamed(ReadNext(g, c).symtab)
  {
    if SymbolsNamed(c.symtab) && c.rest != [] && (c.rest[0].tokenType == ID || c.rest[0].tokenType == CONST) {
      InsertKeepsNamed(c.symtab, c.rest[0]);
    }
  }

  /** One iteration of the loop of `parsing` (parser.py:348-398): accept at the bottom marker once the tokens are
      used up; match a terminal equal to the lookahead, popping it and reading the next token; stop on a terminal
      that does not match; otherwise expand the nonterminal on top by the rule the table gives, or stop with a
      syntax error when it gives none. A step keeps the stack valid, reads at most one token, enters only
      identifiers and constants into the symbol table, and accepts exactly at the bottom marker with no token
      left. */
  function Step(g: Tables, c: Config): (n: Next)
    requires WellFormedTables(g) && ValidStack(c.stack)
    ensures n == Halt(Accept) <==> c.stack == [Bottom] && c.rest == []
    ensures n.Halt? ==> !n.outcome.OutOfFuel?
    ensures n.Halt? && n.outcome.Mismatch? ==>
              n.outcome == Mismatch(c.stack[0], c.lookahead) && IsTerminal(c.stack[0]) && c.stack[0] != c.lookahead
    ensures n.Halt? && n.outcome.SyntaxError? ==>
              n.outcome == SyntaxError(c.stack[0], c.lookahead) && FindRule(g, c.stack[0], c.lookahead) == -1
    ensures n.Continue? ==> ValidStack(n.config.stack)
    ensures n.Continue? ==> n.config.rest == c.rest || (c.rest != [] && n.config.rest == c.rest[1..])
    ensures n.Continue? && SymbolsNamed(c.symtab) ==> SymbolsNamed(n.config.symtab)
  {
    var top := c.stack[0];
    if top == Bottom && c.rest == [] then
      Halt(Accept)
    else if IsTerminal(top) && top == c.lookahead then
      ValidPop(c.stack);
      ReadNextKeepsNamed(g, c.(stack := c.stack[1..]));
      Continue(ReadNext(g, c.(stack := c.stack[1..])))
    else if IsTerminal(top) then
      Halt(Mismatch(top, c.lookahead))
    else
      var r := FindRule(g, top, c.lookahead);
      if r == -1 then
        Halt(SyntaxError(top, c.lookahead))
      else
        RulePushes(g, r);
        ValidPush(Pushed(g.syntaxRules[r]), c.stack[1..]);
        Continue(c.(stack := Pushed(g.syntaxRules[r]) + c.stack[1..]))
  }

  /** A terminal on top equal to the lookahead is popped and the next token is read. */
  lemma StepMatches(g: Tables, c: Config)
    requires WellFormedTables(g) && ValidStack(c.stack) && IsTerminal(c.stack[0]) && c.stack[0] == c.lookahead
    ensures Step(g, c) == Continue(ReadNext(g, c.(stack := c.stack[1..])))
  {
  }

  /** An ε rule for the nonterminal on top just pops it. */
  lemma EpsilonRulePops(g: Tables, c: Config)
    requires WellFormedTables(g) && ValidStack(c.stack) && IsNonterminal(c.stack[0])
    requires FindRule(g, c.stack[0], c.lookahead) != -1
    requires g.syntaxRules[FindRule(g, c.stack[0], c.lookahead)] == [Epsilon]
    ensures Step(g, c) == Continue(c.(stack := c.stack[1..]))
  {
    RulePushes(g, FindRule(g, c.stack[0], c.lookahead));
  }

  /** Any other rule replaces the nonterminal on top by its right-hand side, first symbol on top. */
  lemma RuleReplacesTop(g: Tables, c: Config)
    requires WellFormedTables(g) && ValidStack(c.stack) && IsNonterminal(c.stack[0])
    requires FindRule(g, c.stack[0], c.lookahead) != -1
    requires g.syntaxRules[FindRule(g, c.stack[0], c.lookahead)] != [Epsilon]
    ensures Step(g, c) == Continue(c.(stack := g.syntaxRules[FindRule(g, c.stack[0], c.lookahead)] + c.stack[1..]))
  {
    RulePushes(g, FindRule(g, c.stack[0], c.lookahead));
  }

  /** A nonterminal on top with no table entry for the lookahead stops the parser with a syntax error; so does the
      bottom marker while tokens are left (parser.py:389-394). */
  lemma StepNoRule(g: Tables, c: Config)
    requires WellFormedTables(g) && ValidStack(c.stack) && !IsTerminal(c.stack[0])
    requires !(c.stack[0] == Bottom && c.rest == []) && FindRule(g, c.stack[0], c.lookahead) == -1
    ensures Step(g, c) == Halt(SyntaxError(c.stack[0], c.lookahead))
  {
  }

  /** The bottom marker never has a table entry, so with tokens left it is a syntax error (parser.py:352-356). */
  lemma BottomWithTokensLeft(g: Tables, c: Config)
    requires WellFormedTables(g) && ValidStack(c.stack) && c.stack[0] == Bottom && c.rest != []
    ensures Step(g, c) == Halt(SyntaxError(Bottom, c.lookahead))
  {
    assert FindRule(g, Bottom, c.lookahead) == -1;
  }

  /** The parser after `k` iterations of its loop from `c`: stopped with an outcome, or in a configuration whose
      stack is still valid. */
  function Run(g: Tables, c: Config, k: nat): (n: Next)
    requires WellFormedTables(g) && ValidStack(c.stack)
    ensures n.Continue? ==> ValidStack(n.config.stack)
    decreases k
  {
    if k == 0 then
      Continue(c)
    else
      match Run(g, c, k - 1)
      case Halt(o) => Halt(o)
      case Continue(d) => Step(g, d)
  }

  /** How `parsing` ends after at most `k` iterations: the outcome it stopped with, or `OutOfFuel`. */
  function Verdict(n: Next): Outcome
  {
    if n.Halt? then n.outcome else OutOfFuel
  }

  /** `k + 1` iterations are one step followed by `k` iterations from where it leads. */
  lemma {:induction false} RunFirst(g: Tables, c: Config, k: nat)
    requires WellFormedTables(g) && ValidStack(c.stack)
    ensures Step(g, c).Halt? ==> Run(g, c, k + 1) == Step(g, c)
    ensures Step(g, c).Continue? ==> Run(g, c, k + 1) == Run(g, Step(g, c).config, k)
    decreases k
  {
    if k > 0 {
      RunFirst(g, c, k - 1);
    }
  }

  /** Once the parser has stopped, further iterations change nothing. */
  lemma {:induction false} StaysHalted(g: Tables, c: Config, k: nat, j: nat)
    requires WellFormedTables(g) && ValidStack(c.stack) && k <= j && Run(g, c, k).Halt?
    ensures Run(g, c, j) == Run(g, c, k)
    decreases j
  {
    if j > k {
      StaysHalted(g, c, k, j - 1);
    }
  }

  /** A run that reaches a nonterminal with no table entry for its lookahead stops there with a syntax error, and
      stays stopped. */
  lemma NoRuleStops(g: Tables, c: Config, k: nat, j: nat)
    requires WellFormedTables(g) && ValidStack(c.stack) && k < j && Run(g, c, k).Continue?
    requires var d := Run(g, c, k).config;
      !IsTerminal(d.stack[0]) && !(d.stack[0] == Bottom && d.rest == []) && FindRule(g, d.stack[0], d.lookahead) == -1
    ensures var d := Run(g, c, k).config; Run(g, c, j) == Halt(SyntaxError(d.stack[0], d.lookahead))
  {
    var d := Run(g, c, k).config;
    StepNoRule(g, d);
    assert Run(g, c, k + 1) == Step(g, d);
    StaysHalted(g, c, k + 1, j);
  }

  /** A run whose step after `j` iterations, from a configuration with stack `st` and symbol table `tab`, stops
      with `o` has stopped with `o` after any later number `k` of iterations. */
  lemma StopsAfter(g: Tables, c: Config, j: nat, k: nat, st: seq<int>, tab: map<string, TokenType>, o: Outcome)
    requires WellFormedTables(g) && ValidStack(c.stack) && j < k && Run(g, c, j).Continue?
    requires Run(g, c, j).config.stack == st && Run(g, c, j).config.symtab == tab
    requires Step(g, Run(g, c, j).config) == Halt(o)
    ensures Run(g, c, k) == Halt(o) && Verdict(Run(g, c, k)) == o && o != OutOfFuel
    ensures exists i :: 0 <= i < k && Run(g, c, i).Continue?
              && Run(g, c, i).config.stack == st && Run(g, c, i).config.symtab == tab
              && Step(g, Run(g, c, i).config) == Halt(o)
  {
    assert Run(g, c, j + 1) == Step(g, Run(g, c, j).config);
    StaysHalted(g, c, j + 1, k);
  }

  /** Every outcome is reached at some iteration from a configuration where `Step` gives it; in particular the
      parser accepts only from the bottom marker with every token read, never runs out of fuel within a step, and a
      syntax error is always a missing table entry. */
  lemma {:induction false} HaltsWhereStepHalts(g: Tables, c: Config, k: nat)
    requires WellFormedTables(g) && ValidStack(c.stack) && Run(g, c, k).Halt?
    ensures exists j :: 0 <= j < k && Run(g, c, j).Continue? && Step(g, Run(g, c, j).config) == Run(g, c, k)
    decreases k
  {
    if Run(g, c, k - 1).Halt? {
      HaltsWhereStepHalts(g, c, k - 1);
    } else {
      assert Run(g, c, k - 1).Continue? && Step(g, Run(g, c, k - 1).config) == Run(g, c, k);
    }
  }

  /** The parser accepts only when the stack holds just the bottom marker and every token has been read. */
  lemma AcceptOnlyAtEnd(g: Tables, c: Config, k: nat)
    requires WellFormedTables(g) && ValidStack(c.stack) && Run(g, c, k) == Halt(Accept)
    ensures exists j :: 0 <= j < k && Run(g, c, j).Continue?
              && Run(g, c, j).config.stack == [Bottom] && Run(g, c, j).config.rest == []
  {
    HaltsWhereStepHalts(g, c, k);
    var j :| 0 <= j < k && Run(g, c, j).Continue? && Step(g, Run(g, c, j).config) == Run(g, c, k);
    assert Run(g, c, j).config.stack == [Bottom] && Run(g, c, j).config.rest == [];
  }

  /** The tokens left after any number of iterations are a suffix of those at the start. */
  lemma {:induction false} RunReadsForward(g: Tables, c: Config, k: nat)
    requires WellFormedTables(g) && ValidStack(c.stack) && Run(g, c, k).Continue?
    ensures IsSuffix(Run(g, c, k).config.rest, c.rest)
    decreases k
  {
    if k > 0 {
      LastStepReads(g, c, k);
      RunReadsForward(g, c, k - 1);
      SuffixStep(c.rest, Run(g, c, k - 1).config.rest, Run(g, c, k).config.rest);
    }
  }

  /** The last of `k` iterations leaves the tokens as they were or reads one. */
  lemma LastStepReads(g: Tables, c: Config, k: nat)
    requires WellFormedTables(g) && ValidStack(c.stack) && 0 < k && Run(g, c, k).Continue?
    ensures Run(g, c, k - 1).Continue?
    ensures var d := Run(g, c, k - 1).config.rest;
      Run(g, c, k).config.rest == d || (d != [] && Run(g, c, k).config.rest == d[1..])
  {
    assert Run(g, c, k) == Step(g, Run(g, c, k - 1).config);
  }

  /** `ys` is what is left of `xs` after dropping some first items. */
  predicate IsSuffix(ys: seq<Token>, xs: seq<Token>)
  {
    |ys| <= |xs| && ys == xs[|xs| - |ys|..]
  }

  /** A suffix that stays as it is or loses its first item is still a suffix. */
  lemma SuffixStep(xs: seq<Token>, ys: seq<Token>, zs: seq<Token>)
    requires IsSuffix(ys, xs)
    requires zs == ys || (ys != [] && zs == ys[1..])
    ensures IsSuffix(zs, xs)
  {
  }

  /** The symbol table only ever holds identifiers and constants. */
  lemma {:induction false} RunKeepsSymbolsNamed(g: Tables, c: Config, k: nat)
    requires WellFormedTables(g) && ValidStack(c.stack) && SymbolsNamed(c.symtab) && Run(g, c, k).Continue?
    ensures SymbolsNamed(Run(g, c, k).config.symtab)
    decreases k
  {
    if k > 0 {
      RunKeepsSymbolsNamed(g, c, k - 1);
    }
  }

  /** The start of `parsing` (parser.py:332-345): 0 and then `<scala>` pushed, and the lookahead taken from the
      first token's lexeme as it is, without the `[id]`/`[const]` mapping and without a symbol-table entry. With no
      token at all the lookahead is the end marker. */
  function Init(g: Tables, tokens: seq<Token>, tab: map<string, TokenType>): (c: Config)
    ensures c.stack == [Start, Bottom] && ValidStack(c.stack) && c.symtab == tab
    ensures tokens == [] ==> c.lookahead == EndMarker && c.rest == []
    ensures tokens != [] ==> c.lookahead == GetToken(g, tokens[0].lexeme) && c.rest == tokens[1..]
  {
    if tokens == [] then Config([Start, Bottom], EndMarker, [], tab)
    else Config([Start, Bottom], GetToken(g, tokens[0].lexeme), tokens[1..], tab)
  }

  // ---------------------------------------------------------------------------------------------------------
  // The parser object

  /** `Parser` (parser.py:30-401): the tables, and the stack and symbol table it updates in place. */
  class Parser {
    const tables: Tables
    const stack: Stack
    const symtab: Bookkeeper

    /** parser.py:276-278. */
    constructor ()
      ensures tables == ScalaTables && WellFormedTables(tables)
      ensures fresh(stack) && fresh(symtab) && stack.items == [] && symtab.symtab == map[]
    {
      tables := ScalaTables;
      stack := new Stack();
      symtab := new Bookkeeper();
      ScalaTablesWellFormed();
    }

    /** `executeRule` (parser.py:280-296): pop the top, then push the rule's items in reverse, skipping ε, so that
        the first item ends on top. */
    method ExecuteRule(ruleNum: int)
      requires ruleNum in tables.syntaxRules && |stack.items| >= 1
      modifies stack
      ensures stack.items == Pushed(tables.syntaxRules[ruleNum]) + old(stack.items)[1..]
    {
      var _ := stack.Pop();
      ghost var below := stack.items;
      var rhs := tables.syntaxRules[ruleNum];
      var i := |rhs|;
      assert rhs[i..] == [];
      while i > 0
        invariant 0 <= i <= |rhs|
        invariant stack.items == Pushed(rhs[i..]) + below
      {
        i := i - 1;
        PushStep(rhs, i, below);
        if rhs[i] != Epsilon {
          stack.Push(rhs[i]);
        }
      }
      assert rhs[0..] == rhs;
    }

    /** One pass of the loop of `parsing` (parser.py:348-401) from configuration `c`, made of the stack, the
        lookahead, the tokens not yet read and the symbol table: it either stops with an outcome, leaving the
        objects as they were, or moves them to the configuration `Step` gives. */
    method ParseStep(ghost c: Config, lookahead: int, rest: seq<Token>)
      returns (done: bool, outcome: Outcome, lookahead': int, rest': seq<Token>)
      requires WellFormedTables(tables) && ValidStack(c.stack)
      requires c == Config(stack.items, lookahead, rest, symtab.symtab)
      modifies stack, symtab
      ensures Step(tables, c) == if done then Halt(outcome) else Continue(Config(stack.items, lookahead', rest', symtab.symtab))
      ensures done ==> stack.items == old(stack.items) && symtab.symtab == old(symtab.symtab)
    {
      done, outcome, lookahead', rest' := false, OutOfFuel, lookahead, rest;
      var top := stack.Peek();
      if top == Bottom && rest == [] {
        done, outcome := true, Accept;
      } else if IsTerminal(top) && top == lookahead {
        var _ := stack.Pop();
        if rest == [] {
          lookahead' := EndMarker;
        } else {
          var t := rest[0];
          rest' := rest[1..];
          if t.tokenType == ID || t.tokenType == CONST {
            symtab.Insert(t);
          }
          lookahead' := Lookahead(tables, t);
        }
        assert Config(stack.items, lookahead', rest', symtab.symtab) == ReadNext(tables, c.(stack := c.stack[1..]));
      } else if IsTerminal(top) {
        done, outcome := true, Mismatch(top, lookahead);
      } else {
        var r := FindRule(tables, top, lookahead);
        if r == -1 {
          done, outcome := true, SyntaxError(top, lookahead);
        } else {
          ExecuteRule(r);
        }
      }
    }

    /** `parsing` (parser.py:322-401) over the scanner's tokens, for at most `fuel` iterations of its loop: the
        outcome is the one the parser reaches after that many iterations of `Step`. The stack and the symbol table
        are left as the run has them: after the last iteration when the fuel runs out, and otherwise in the
        configuration whose step stopped the run. */
    method Parse(tokens: seq<Token>, fuel: nat) returns (outcome: Outcome)
      requires WellFormedTables(tables) && stack.items == []
      modifies stack, symtab
      ensures outcome == Verdict(Run(tables, Init(tables, tokens, old(symtab.symtab)), fuel))
      ensures var c0 := Init(tables, tokens, old(symtab.symtab));
        outcome == OutOfFuel ==>
          Run(tables, c0, fuel).Continue?
          && Run(tables, c0, fuel).config.stack == stack.items && Run(tables, c0, fuel).config.symtab == symtab.symtab
      ensures var c0 := Init(tables, tokens, old(symtab.symtab));
        outcome != OutOfFuel ==>
          exists j :: 0 <= j < fuel && Run(tables, c0, j).Continue?
            && Run(tables, c0, j).config.stack == stack.items && Run(tables, c0, j).config.symtab == symtab.symtab
            && Step(tables, Run(tables, c0, j).config) == Halt(outcome)
    {
      ghost var c0 := Init(tables, tokens, symtab.symtab);
      stack.Push(Bottom);
      stack.Push(Start);
      var lookahead := if tokens == [] then EndMarker else GetToken(tables, tokens[0].lexeme);
      var rest := if tokens == [] then [] else tokens[1..];
      ghost var cur := Config(stack.items, lookahead, rest, symtab.symtab);
      assert cur == c0;
      var steps: nat := fuel;
      while steps > 0
        invariant steps <= fuel
        invariant cur == Config(stack.items, lookahead, rest, symtab.symtab)
        invariant Run(tables, c0, fuel - steps) == Continue(cur)
        decreases steps
      {
        var done;
        done, outcome, lookahead, rest := ParseStep(cur, lookahead, rest);
        if done {
          StopsAfter(tables, c0, fuel - steps, fuel, stack.items, symtab.symtab, outcome);
          return;
        }
        cur := Config(stack.items, lookahead, rest, symtab.symtab);
        assert Run(tables, c0, fuel - steps + 1) == Continue(cur);
        steps := steps - 1;
      }
      assert Run(tables, c0, fuel) == Continue(cur);
      outcome := OutOfFuel;
    }
  }
}
