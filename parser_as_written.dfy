/** The mismatch branch of `parsing` as parser.py writes it (parser.py:384-386): when the terminal on top of the
    stack differs from the lookahead, the loop prints a message and goes round again without popping, reading or
    breaking, so nothing changes and the loop never ends. `Parsing.Step` stops there with `Mismatch`, as the
    syntax-error branch does with its `break`. */
module ParserAsWritten {

  import opened Options
  import opened Tokens
  import opened Grammar
  import opened Parsing

  /** A terminal on top that differs from the lookahead. */
  predicate Mismatched(c: Config)
    requires |c.stack| >= 1
  {
    IsTerminal(c.stack[0]) && c.stack[0] != c.lookahead
  }

  /** One iteration of the loop as written: the mismatch branch leaves the configuration as it was; every other
      branch is the one `Step` models. */
  function StepAsWritten(g: Tables, c: Config): (n: Next)
    requires WellFormedTables(g) && ValidStack(c.stack)
    ensures Mismatched(c) ==> n == Continue(c) && Step(g, c) == Halt(Mismatch(c.stack[0], c.lookahead))
    ensures !Mismatched(c) ==> n == Step(g, c)
    ensures n.Continue? ==> ValidStack(n.config.stack)
  {
    if Mismatched(c) then Continue(c) else Step(g, c)
  }

  /** The loop as written after `k` iterations. */
  function RunAsWritten(g: Tables, c: Config, k: nat): (n: Next)
    requires WellFormedTables(g) && ValidStack(c.stack)
    ensures n.Continue? ==> ValidStack(n.config.stack)
    decreases k
  {
    if k == 0 then
      Continue(c)
    else
      match RunAsWritten(g, c, k - 1)
      case Halt(o) => Halt(o)
      case Continue(d) => StepAsWritten(g, d)
  }

  /** As written, a mismatch is never left: however many iterations run, the parser sits in the same
      configuration, so `parsing` never returns. */
  lemma {:induction false} MismatchLoopsForever(g: Tables, c: Config, k: nat)
    requires WellFormedTables(g) && ValidStack(c.stack) && Mismatched(c)
    ensures RunAsWritten(g, c, k) == Continue(c)
    ensures Verdict(RunAsWritten(g, c, k)) == OutOfFuel
    decreases k
  {
    if k > 0 {
      MismatchLoopsForever(g, c, k - 1);
    }
  }

  /** Until a mismatch is met, the loop as written and the model agree iteration by iteration. */
  lemma {:induction false} AgreeUntilMismatch(g: Tables, c: Config, k: nat)
    requires WellFormedTables(g) && ValidStack(c.stack)
    requires forall j :: 0 <= j < k && Run(g, c, j).Continue? ==> !Mismatched(Run(g, c, j).config)
    ensures RunAsWritten(g, c, k) == Run(g, c, k)
    decreases k
  {
    if k > 0 {
      AgreeUntilMismatch(g, c, k - 1);
    }
  }

  /** The corrected loop stops at a mismatch after one iteration and reports which terminal it expected and which
      lookahead it found. */
  lemma MismatchStops(g: Tables, c: Config, k: nat)
    requires WellFormedTables(g) && ValidStack(c.stack) && Mismatched(c) && k >= 1
    ensures Run(g, c, k) == Halt(Mismatch(c.stack[0], c.lookahead))
  {
    assert Run(g, c, 1) == Step(g, c);
    StaysHalted(g, c, 1, k);
  }

  /** A concrete case: `[id]` (code 1) expected on top of the bottom marker while the lookahead is `,` (code 37).
      With the tables of parser.py the loop as written spins for any number of iterations, and the model stops
      with the mismatch. */
  lemma CommaForIdentifier(k: nat)
    requires k >= 1
    ensures WellFormedTables(ScalaTables)
    ensures RunAsWritten(ScalaTables, Config([1, Bottom], 37, [], map[]), k) == Continue(Config([1, Bottom], 37, [], map[]))
    ensures Run(ScalaTables, Config([1, Bottom], 37, [], map[]), k) == Halt(Mismatch(1, 37))
  {
    ScalaTablesWellFormed();
    var c := Config([1, Bottom], 37, [], map[]);
    assert ValidStack(c.stack) && Mismatched(c);
    MismatchLoopsForever(ScalaTables, c, k);
    MismatchStops(ScalaTables, c, k);
  }
}
