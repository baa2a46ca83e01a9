# A verified model of a toy Scala compiler front end

This project models the front end of a small compiler for a subset of Scala, written in Python. It has four
parts.

- **Scanner** (scanner.py). A hand-coded DFA reads the source file one character at a time.
  - `getNextValidChar` skips blanks, line breaks and `#` comments, and counts lines.
  - `nextToken` dispatches on the first character into a chain of `block_*` states. Those states form a trie
    over the 26 keywords.
  - Identifiers, constants, special symbols, and the two-character keywords `<=` and `=>` each have their own
    state.
  - `invalidToken` swallows an ill-formed run up to the next separator.
- **Parser engine** (parser.py). This is a table-driven LL(1) parser.
  - It holds a stack whose top is at index 0 and three static tables: `token_lookup`, `syntax_rules` and
    `parse_table`.
  - The lookups are `get_token` and `findRule`, and `executeRule` expands a nonterminal.
  - The `parsing` loop matches, derives, accepts or stops on an error.
- **Symbol table** (bookkeeper.py). A dictionary from lexeme to token type.
- **Token** (token.py). A record of lexeme, type, line number and lexical error.

The Dafny modules follow these files.

| module | file | models |
|---|---|---|
| `Options` | token.dfy | an optional value, for Python's `None` |
| `Tokens` | token.dfy | token.py, and the `LexicalError` enumeration of scanner.py |
| `Lexicon` | keywords.dfy | the character classes and the keyword trie of scanner.py |
| `Lexer` | scanner_spec.dfy | each scanner state, as a function of the input text and the read position |
| `Scanning` | scanner.dfy | the `Scanner` class: its fields, loops and chained state methods |
| `LexerFacts` | scanner_facts.dfy | what a run of the scanner produces |
| `ScannerAsWritten` | scanner_as_written.dfy | the scanner's end-of-input defects, next to the corrected states |
| `SymbolTable` | bookkeeper.dfy | the `Bookkeeper` class |
| `Grammar` | grammar.dfy | the parser's tables, `get_token` and `findRule` |
| `Parsing` | parser.dfy | the `Stack` and `Parser` classes, and a step function for the `parsing` loop |
| `ParserAsWritten` | parser_as_written.dfy | the parser's endless mismatch loop, next to the corrected step |

**The scanner.**
- The source file becomes a string `source` plus a read position `pos`:
  - `read(1)` gives the next character, or "" at the end, and advances `pos`;
  - `readline()` moves `pos` past the next `'\n'`;
  - `seek(tell() - 1)` is `pos - 1`, which steps back one character when that character is one byte in the
    file's encoding (see Left out for wider ones).
- `lineNum`, `lexeme`, `tokens` and `lexicalError` are fields of `Scanning.Scanner`, which its methods update
  step by step, with the same loops as the source.
- Every method is proved to leave exactly the state that a function of `Lexer` describes. That function takes
  the input, the position and the line, and returns a `Scan`: the tokens appended, the new position, how far
  `lexeme` reached, and the recorded error.
- The lemmas of `LexerFacts` then say what that means for keywords, identifiers, constants, separators and
  line numbers.
- The regular-expression tests of the source are character-class predicates.
- The trie is data: one `State` per reachable `block_*` method. It keeps the source's quirks:
  - `block_in` drops "in" when a symbol follows it;
  - `block_identifierOrError` and `keyAcceptingState` do not count `#` as a separator;
  - a newline directly after a token is not a separator.

**The parser.**
- The tables are constant Dafny maps and sequences. Their mutual consistency is proved once, as
  `WellFormedTables(ScalaTables)`.
- `Stack` and `Bookkeeper` are classes updated in place.
- `Parser.Parse` is the `parsing` loop as a `while` loop over the stack, the lookahead and the remaining tokens.
  It is proved to compute `Verdict(Run(...))`, where `Step` is one iteration of the loop, and the lemmas about
  `Run` hold for every run.
- The parser reads the token sequence the scanner produces, with the tokens of every `nextToken` call laid out
  one after the other.

## Model

| member | source | states |
|---|---|---|
| Tokens.MakeToken | token.py:5-12 | a new token holds the given lexeme, type and line number, and no lexical error |
| Tokens.MakeInvalid | scanner.py:106-108 | an INVALID token carries the lexical error the scanner recorded |
| Lexicon.KeywordsRecognized | scanner.py:268-978 | every keyword except "in" and "int" is spelled out by the trie of `block_*` states, from its first letter to `keyAcceptingState` |
| Lexer.Ch | scanner.py:28 | `read(1)` returns "" exactly at the end of the input, otherwise the next character |
| Lexer.SkipSpec | scanner.py:24-42 | `getNextValidChar` stops at the end of the input or on a character that is not a blank, a line break or `#`, and never lowers the line number |
| Lexer.LineEnd | scanner.py:37 | `readline()` stops just after the next '\n', or at the end of the input |
| Lexer.InvalidRunEnd | scanner.py:129-143 | the loop of `invalidToken` stops at the first space or separator symbol, and every character before it is neither |
| Lexer.InvalidSpec | scanner.py:128-143 | `invalidToken` emits the whole run up to the separator as one INVALID token with the recorded error, followed by a one-character SS token exactly when the separator is a symbol rather than a space; it moves just past the separator |
| Lexer.IdRunEnd | scanner.py:186-193 | the loop of `block_identifiers` stops at the first character outside `[a-zA-Z0-9.]` |
| Lexer.IdentifiersSpec | scanner.py:179-201 | `block_identifiers` emits at most two well-tagged tokens on the current line, the first an ID or INVALID, and never a CONST |
| Lexer.ConstRunEnd | scanner.py:150-162 | the loop of `block_constants` reads only digits and at most one '.', and stops on a non-digit that is not an allowed '.' |
| Lexer.ConstantsSpec | scanner.py:145-177 | `block_constants` emits a CONST or INVALID token first, and every CONST lexeme it emits is a digit run with at most one '.' |
| Lexer.IdentifierOrErrorSpec | scanner.py:203-221 | `block_identifierOrError` emits an ID or an INVALID token first, and never a CONST |
| Lexer.KeyAcceptingSpec | scanner.py:223-241 | `keyAcceptingState` emits a KEY, ID or INVALID token first, and never a CONST |
| Lexer.InSpec | scanner.py:762-775 | `block_in` emits only well-tagged tokens on the current line and moves forward |
| Lexer.TrieSpec | scanner.py:268-978 | every trie state emits only well-tagged tokens on the current line, no CONST, and moves forward |
| Lexer.LeftSpec | scanner.py:256-266 | `<` then `=` gives KEY "<=" and moves past both; otherwise one INVALID "<" token with UnrecognizedSymbol, and the next read starts just after the `<` |
| Lexer.RightSpec | scanner.py:245-254 | `=` then `>` gives KEY "=>" and moves past both; otherwise one SS "=" token, and the next read starts just after the `=` |
| Lexer.UnitSpec | scanner.py:62-109 | one `nextToken` unit moves forward and emits at most two tokens, all on the current line; a second token is a one-character SS; only INVALID tokens carry an error; every CONST is well formed |
| Scanning.Scanner.constructor | scanner.py:17-22 | the scanner starts at the beginning of the input on line 1, with an empty lexeme, no tokens and no error |
| Scanning.Scanner.Read | scanner.py:28 | `read(1)` returns `Ch` and advances the position by `Next` |
| Scanning.Scanner.ReadOn | scanner.py:165-166 | a read followed by `lexeme += char` keeps `lexeme` equal to the text read since the unit started |
| Scanning.Scanner.GetNextValidChar | scanner.py:24-42 | the loop leaves the position and line number that `SkipSpec` gives and returns the character found there |
| Scanning.Scanner.InvalidToken | scanner.py:128-143 | the loop appends exactly the tokens of `InvalidSpec` and leaves its position |
| Scanning.Scanner.BlockConstants | scanner.py:145-177 | the loop leaves exactly the tokens, position, lexeme and error of `ConstantsSpec` |
| Scanning.Scanner.ConstantsExit | scanner.py:164-177 | the branches after the loop of `block_constants` leave exactly the state of `ConstantsSpec` |
| Scanning.Scanner.BlockIdentifiers | scanner.py:179-201 | the loop leaves exactly the state of `IdentifiersSpec` |
| Scanning.Scanner.BlockIdentifierOrError | scanner.py:203-221 | leaves exactly the state of `IdentifierOrErrorSpec` |
| Scanning.Scanner.KeyAcceptingState | scanner.py:223-241 | leaves exactly the state of `KeyAcceptingSpec` |
| Scanning.Scanner.BlockIn | scanner.py:762-775 | leaves exactly the state of `InSpec` |
| Scanning.Scanner.BlockTrie | scanner.py:268-978 | the chain of trie states leaves exactly the state of `TrieSpec` |
| Scanning.Scanner.BlockLeftAssignment | scanner.py:256-266 | leaves exactly the state of `LeftSpec`, including the seek-back |
| Scanning.Scanner.BlockRightAssignment | scanner.py:245-254 | leaves exactly the state of `RightSpec`, including the seek-back |
| Scanning.Scanner.Dispatch | scanner.py:62-109 | the dispatch on the first character leaves exactly the state of `UnitSpec` |
| Scanning.Scanner.NextToken | scanner.py:44-111 | returns None only when skipping reaches the end of the input, and then leaves `lexeme` empty, no tokens and no error; otherwise the tokens of `UnitSpec` on the line reached by skipping |
| LexerFacts.CommentHasOneBreak | scanner.py:36-39 | a comment that ends before the end of the input holds exactly one line break, the one `readline()` consumes |
| LexerFacts.SkipStopsAt | scanner.py:24-42 | `getNextValidChar` passes blanks and line breaks and stops at the first character that is none of them and not `#`, one line further per break passed |
| LexerFacts.SkipCountsBreaks | scanner.py:31-35 | without comments, `getNextValidChar` adds one line per '\n' or '\r' it passes |
| LexerFacts.SkipCountsNewlines | scanner.py:24-42 | in text without '\r', the line number grows by exactly the number of line breaks passed, whether they stand alone or end a comment |
| LexerFacts.ScanAllWellFormed | scanner.py:44-111 | over a whole run, line numbers never decrease, only INVALID tokens carry an error, and every CONST lexeme is a digit run with at most one '.' |
| LexerFacts.TrieWalkDeeper | scanner.py:268-978 | following the trie through characters that keep it going deeper is what the chain of `block_*` calls does |
| LexerFacts.TrieWalkAccepted | scanner.py:268-978 | a walk that ends on a whole keyword hands over to `keyAcceptingState` |
| LexerFacts.UnitOnTrie | scanner.py:62-92 | `nextToken` hands the first letter of a keyword to the trie |
| LexerFacts.UnitOnDigit | scanner.py:102-103 | `nextToken` hands a digit to `block_constants` |
| LexerFacts.KeywordRecognized | scanner.py:268-978 | each keyword other than "in" and "int" is recognised by the trie |
| LexerFacts.RecognizedWalk | scanner.py:268-978 | a recognised keyword in the input reaches `keyAcceptingState` just after its last letter |
| LexerFacts.InWalk | scanner.py:818-828 | "i" then "n" leaves the trie through `block_in` |
| LexerFacts.IntWalk | scanner.py:762-770 | "int" reaches `keyAcceptingState` |
| LexerFacts.KeywordWalk | scanner.py:268-978 | every keyword other than "in" reaches `keyAcceptingState` just after its last letter |
| LexerFacts.IdentifiersUpToSpace | scanner.py:179-191 | identifier characters up to a space give one ID token for the whole run |
| LexerFacts.IdentifiersUpToSymbol | scanner.py:194-198 | identifier characters ended by a separator symbol give an ID token and then an SS token for the symbol |
| LexerFacts.IdentifiersOnOther | scanner.py:199-201 | identifier characters ended by a character that is no space, separator symbol or `#` (a newline, say) give an INVALID token with InvalidIdentifier running on to the next space or separator symbol |
| LexerFacts.TrieOnSpace | scanner.py:203-208 | a space in any trie state ends an ID token |
| LexerFacts.TrieOnSymbol | scanner.py:213-218 | a separator symbol in any trie state ends an ID token, followed by a one-character SS token for the symbol, and the scanner moves past the symbol |
| LexerFacts.TrieOnIdChar | scanner.py:211-212 | an identifier character off the keyword paths hands the run to `block_identifiers` |
| LexerFacts.TrieOnOther | scanner.py:219-221 | any other character in a trie state, `#` and a newline included, is no separator for `block_identifierOrError`: the run becomes INVALID with InvalidIdentifier |
| LexerFacts.KeyAcceptingOnSpace | scanner.py:223-229 | `keyAcceptingState` on a space emits the keyword as KEY |
| LexerFacts.KeyAcceptingOnIdChar | scanner.py:237-238 | `keyAcceptingState` on an identifier character turns the keyword into an identifier |
| LexerFacts.KeyAcceptingOnOther | scanner.py:232-241 | `keyAcceptingState` takes neither `#` nor a newline nor any other character outside the space, symbol and identifier classes as a separator: the run becomes INVALID with InvalidSyntax |
| LexerFacts.InOnIdChar | scanner.py:767-775 | `block_in` on 't' goes on to "int"; on another identifier character the run becomes an identifier |
| LexerFacts.InOnOther | scanner.py:774-775 | `block_in` on a character that is no space, separator symbol, `#` or identifier character (a newline, say) makes the run INVALID with InvalidIdentifier |
| LexerFacts.InThenNewline | scanner.py:762-775 | "in" directly followed by a newline is one INVALID token with InvalidIdentifier, not a keyword |
| LexerFacts.KeywordThenSpace | scanner.py:223-229 | each keyword followed by a space gives exactly one KEY token whose lexeme is the keyword |
| LexerFacts.KeywordThenSymbol | scanner.py:232-236 | a keyword other than "in" ended by a separator symbol gives its KEY token and then an SS token for the symbol |
| LexerFacts.KeywordPrefixThenSpace | scanner.py:203-208 | a proper prefix of a keyword followed by a space gives exactly one ID token |
| LexerFacts.PrefixThenSpace | scanner.py:203-208 | the same, for a keyword the trie recognises |
| LexerFacts.AcceptedThenIdChars | scanner.py:237-238 | after a whole keyword, identifier characters up to a space make the whole run one ID token |
| LexerFacts.InThenIdChars | scanner.py:774-775 | "in" followed by identifier characters (not starting with 't') and a space is one ID token |
| LexerFacts.InExtendedThenSpace | scanner.py:762-775 | "in" extended by identifier characters other than "t" alone, then a space, is one ID token |
| LexerFacts.KeywordExtendedThenSpace | scanner.py:179-241 | a keyword extended by identifier characters, then a space, is one ID token for the whole run and not an error |
| LexerFacts.InThenSymbolDropped | scanner.py:771-773 | "in" followed by a separator symbol or `#` gives no token at all, and the symbol is consumed |
| LexerFacts.KeywordThenHash | scanner.py:128-241 | a keyword followed by `#` becomes an INVALID token with InvalidSyntax that runs on to the next separator |
| LexerFacts.ConstRunEndAt | scanner.py:152-162 | the loop of `block_constants` stops exactly at the first character that cannot extend the constant |
| LexerFacts.ConstantRun | scanner.py:145-162 | a well-formed constant in the input is read up to its end |
| LexerFacts.ConstantFollowedBy | scanner.py:164-177 | a constant then a space gives one CONST; then a symbol gives CONST and SS; then a second '.' gives INVALID with MultipleDecimals; then anything else gives INVALID with InvalidConstant |
| ScannerAsWritten.InvalidStopAsWritten | scanner.py:128-143 | the loop of `invalidToken` as written stops only on a space or separator symbol; when none is left it never stops |
| ScannerAsWritten.InvalidStopAgrees | scanner.py:128-143 | where the loop as written stops, the corrected `invalidToken` stops at the same place |
| ScannerAsWritten.InvalidRunReachesEnd | scanner.py:128-143 | where the loop as written never stops, the corrected run reaches the end of the input |
| ScannerAsWritten.InvalidAtEnd | scanner.py:128-143 | there, the corrected `invalidToken` emits the rest of the input as one INVALID token |
| ScannerAsWritten.ConstantBeforeFinalNewline | scanner.py:172-177 | "1" then '\n' at the end of the input sends `block_constants` into `invalidToken` with no separator left |
| ScannerAsWritten.LeftAsWritten | scanner.py:256-266 | at the end of the input, `block_leftAssignment` as written emits an empty INVALID lexeme and seeks back onto the `<` |
| ScannerAsWritten.RightAsWritten | scanner.py:245-254 | at the end of the input, `block_rightAssignment` as written emits an empty SS lexeme and seeks back onto the `=` |
| ScannerAsWritten.AssignmentsAgreeBeforeEnd | scanner.py:245-266 | before the end of the input, the states as written and the corrected ones emit the same tokens |
| ScannerAsWritten.TrailingAssignmentSymbolRepeats | scanner.py:245-266 | a trailing `<` or `=`: the state as written returns to where the unit started, so every later call repeats it; the corrected state moves past the symbol and emits it |
| SymbolTable.Inserted | bookkeeper.py:12-17 | after an insert the lexeme maps to the token's type, every other entry is unchanged, and the table grows by one exactly when the lexeme is new |
| SymbolTable.InsertSameLexemeTwice | bookkeeper.py:2-17 | inserting the same lexeme twice leaves one entry holding the latest type |
| SymbolTable.InsertIdempotent | bookkeeper.py:17 | inserting an entry already present changes nothing |
| SymbolTable.Bookkeeper.constructor | bookkeeper.py:6-10 | the table starts empty |
| SymbolTable.Bookkeeper.Insert | bookkeeper.py:12-17 | the dictionary is updated in place to `Inserted` of its old value |
| Grammar.IndexFrom | parser.py:315 | `list.index`: the first position holding the string, or -1 when there is none |
| Grammar.GetToken | parser.py:310-320 | `get_token` returns -1 exactly when the string is not in `token_lookup`, otherwise the first index holding it |
| Grammar.TokenLookupDistinct | parser.py:35-42 | `token_lookup` has 71 entries, all distinct |
| Grammar.GetTokenRoundTrip | parser.py:310-320 | `get_token(token_lookup[i]) == i` for every index |
| Grammar.FindRule | parser.py:298-308 | `findRule` returns `parse_table[top][lookahead]` when the entry exists and -1 otherwise; on well-formed tables a rule it returns is a key of `syntax_rules` |
| Grammar.Pushed | parser.py:293-296 | the items pushed for a right-hand side are exactly its items other than ε, each as often as it occurs there, and never ε |
| Grammar.PushedConcat | parser.py:293-296 | filtering out ε keeps the order: the items for `a + b` are those for `a` followed by those for `b` |
| Grammar.RuleIds | parser.py:46-105 | the rule ids are exactly 1..59 |
| Grammar.RulesAShape | parser.py:46-66 | rules 1..20 are each ε alone or a sequence of symbol codes |
| Grammar.RulesBShape | parser.py:67-86 | the same for rules 21..40 |
| Grammar.RulesCShape | parser.py:87-104 | the same for rules 41..59 |
| Grammar.RulesWellFormed | parser.py:46-105 | every right-hand side is ε alone or a sequence of terminal and nonterminal codes, and the ε rules are 3, 5, 7, 19, 34, 52 and 59 |
| Grammar.RuleSymbolsNamed | parser.py:35-105 | every right-hand-side code other than ε is a valid index into `token_lookup` |
| Grammar.TableRows | parser.py:112-274 | the outer keys of `parse_table` are exactly the nonterminals 42..69 |
| Grammar.TableColumns | parser.py:112-274 | the inner keys are terminals 1..41 or the end marker 70 |
| Grammar.TableRuleIds | parser.py:112-274 | every rule id in the table lies in 1..59 |
| Grammar.TableWellFormed | parser.py:46-274 | every rule id appearing in `parse_table` is a key of `syntax_rules`, with the row and column facts above |
| Grammar.ScalaTablesWellFormed | parser.py:35-274 | the tables of parser.py satisfy every consistency condition the parser relies on |
| Parsing.Stack.constructor | parser.py:8-9 | a new stack is empty |
| Parsing.Stack.IsEmpty | parser.py:11-12 | true exactly when the stack has no items |
| Parsing.Stack.Push | parser.py:14-15 | the item goes on top, in front of the old items |
| Parsing.Stack.Pop | parser.py:17-18 | returns the top and leaves the rest |
| Parsing.Stack.Peek | parser.py:20-21 | returns the top and changes nothing |
| Parsing.Stack.Size | parser.py:23-24 | the number of items |
| Parsing.PushThenPop | parser.py:14-18 | a push followed by a pop returns the pushed item and restores the items |
| Parsing.PushedFrom | parser.py:293-296 | each right-hand-side item is pushed unless it is ε |
| Parsing.RulePushes | parser.py:280-296 | an ε rule pushes nothing; any other rule pushes its whole non-empty right-hand side, made of terminals and nonterminals |
| Parsing.Lookahead | parser.py:369-381 | the lookahead after a match is the code of `[id]` for an identifier, of `[const]` for a constant, and otherwise of the lexeme; -1 exactly when the table has no such symbol |
| Parsing.IdAndConstCodes | parser.py:35 | codes 1 and 2 name `[id]` and `[const]`, so with parser.py's tables an identifier's lookahead is 1 and a constant's is 2 |
| Parsing.ReadNext | parser.py:365-381 | reading the next token keeps the stack, drops the token from the input, takes its lookahead code, and enters it in the symbol table only when it is an identifier or a constant; with no token left the lookahead is `$` |
| Parsing.InsertKeepsNamed | parser.py:369-376 | inserting identifiers and constants keeps the symbol table holding only those types |
| Parsing.ReadNextKeepsNamed | parser.py:366-381 | reading a token keeps the symbol table holding only identifiers and constants |
| Parsing.Step | parser.py:348-398 | one iteration accepts exactly at the bottom marker with no token left; stops with a mismatch only on a terminal that differs from the lookahead, and with a syntax error only when `findRule` finds nothing; otherwise keeps the stack valid and reads at most one token |
| Parsing.StepMatches | parser.py:360-381 | a terminal equal to the lookahead is popped and the next token is read |
| Parsing.EpsilonRulePops | parser.py:389-396 | an ε rule just pops the nonterminal |
| Parsing.StepNoRule | parser.py:389-394 | a nonterminal on top (or the bottom marker with tokens left) whose `findRule` gives -1 stops the parser with a syntax error for that top and lookahead |
| Parsing.BottomWithTokensLeft | parser.py:352-356 | the bottom marker with tokens left has no table entry, so it is a syntax error |
| Parsing.RuleReplacesTop | parser.py:389-396 | any other rule replaces the nonterminal by its right-hand side, the first symbol on top |
| Parsing.Run | parser.py:348-401 | after any number of iterations a running parser has a valid stack |
| Parsing.RunFirst | parser.py:348-401 | a run is its first step followed by the run from there |
| Parsing.StaysHalted | parser.py:348-401 | once the loop has stopped, further iterations change nothing |
| Parsing.StopsAfter | parser.py:348-401 | when the step after `j` iterations stops with an outcome, every later number of iterations ends with that outcome, reached from that configuration |
| Parsing.HaltsWhereStepHalts | parser.py:348-401 | every stop comes from one step out of a running configuration |
| Parsing.NoRuleStops | parser.py:389-394 | a run that reaches a nonterminal without a table entry for its lookahead stops there with a syntax error and stays stopped |
| Parsing.AcceptOnlyAtEnd | parser.py:352-356 | a run accepts only after reaching the bottom marker with every token read |
| Parsing.RunReadsForward | parser.py:341-381 | the remaining input is always a suffix of the original one |
| Parsing.RunKeepsSymbolsNamed | parser.py:366-376 | the symbol table only ever holds identifiers and constants |
| Parsing.Init | parser.py:332-345 | the run starts with `<scala>` (42) on the bottom marker 0; the first lookahead is the code of the first lexeme, or `$` with no tokens |
| Parsing.Parser.constructor | parser.py:276-278 | a new parser has the tables of parser.py, an empty stack and an empty symbol table |
| Parsing.Parser.ExecuteRule | parser.py:280-296 | the top is replaced by the rule's right-hand side with every ε removed, in order with the first symbol on top |
| Parsing.Parser.ParseStep | parser.py:349-398 | one pass of the loop body updates the stack, lookahead, remaining tokens and symbol table exactly as `Step` says, or stops with `Step`'s outcome and leaves the stack and symbol table as they were |
| Parsing.Parser.Parse | parser.py:322-401 | the loop returns the outcome of `Run` from the initial configuration, or `OutOfFuel` when the run has not stopped; the stack and symbol table it leaves are those of the run after the last iteration, or of the configuration whose step stopped it |
| ParserAsWritten.StepAsWritten | parser.py:384-386 | as written, a terminal that differs from the lookahead leaves the configuration as it was; every other branch is `Step` |
| ParserAsWritten.RunAsWritten | parser.py:348-401 | the loop as written keeps the stack valid |
| ParserAsWritten.MismatchLoopsForever | parser.py:384-386 | as written, a mismatch is never left: after any number of iterations the parser is in the same configuration and has not stopped |
| ParserAsWritten.AgreeUntilMismatch | parser.py:348-401 | until a mismatch is met, the loop as written and the corrected one agree |
| ParserAsWritten.MismatchStops | parser.py:384-386 | the corrected loop stops at a mismatch, reporting the expected terminal and the lookahead found |
| ParserAsWritten.CommaForIdentifier | parser.py:384-386 | with `[id]` expected and `,` found, the loop as written spins for ever while the corrected one stops with that mismatch |

## Left out

- Files and output. The source file is given as its decoded text, with no `open`, `read`, `readline`, `seek` or
  `tell` on a real file. Writing `parse_output.txt`, the `print` diagnostics, `Scanner.errorHandler`'s message
  strings and `Bookkeeper.printTable` are output only and are not modelled.
- compiler.py is not part of this model. It only drives the parser from a file name.
- The unreachable states `block_val`, `block_final`, `block_abstract`, `block_and` and `block_if` are not
  modelled. Their parents call `keyAcceptingState` directly. The `=` in the symbol class of `nextToken` is
  unreachable too, because an earlier branch takes `=`.
- `invalidToken` never finds a separator at the end of the input, so scanner.py loops for ever there. The model
  emits the run read so far instead (see Findings).
- A trailing `<` or `=` makes scanner.py seek back onto the symbol and repeat that step for ever. The model moves
  past it instead (see Findings).
- Lexer.LeftSpec, Lexer.RightSpec, Scanning.Scanner.BlockLeftAssignment, Scanning.Scanner.BlockRightAssignment:
  the model steps back one whole character. scanner.py opens the file in text mode, where `tell()` and `seek`
  count bytes, so after a character of several bytes (as in `x =é`) it seeks into the middle of that character
  and the next read fails to decode. The model does not capture that failure.
- Scanning.Scanner.NextToken: at the end of the input the source sets `tokens` to None, while the model leaves it
  as the empty sequence; the value returned is None in both.
- Lexer.SkipSpec counts a '\r' as a line break, as the source does. LexerFacts.SkipCountsNewlines states the
  line count only for text without '\r', which is what a text-mode read delivers.
- The parser reads a sequence of tokens rather than a live scanner. scanner.py's `nextToken` returns a list of up
  to two tokens, or None, and parser.py uses that value as if it were a single token (parser.py:341-342,
  366-378). As written, that fails on the first access to `.lexeme` or `.type`. The model feeds the tokens of
  every call one at a time, in order.
- After the last token, parser.py reads `.type` of None. The model sets the lookahead to `$` (70) there.
- Parsing.Init: with no token at all, parser.py reads `.lexeme` of None and fails (parser.py:341-342). The model
  starts with the lookahead `$` instead, so such a run ends in a syntax error on `<scala>` (42) with lookahead 70.
- Parsing.Stack.Pop and Parsing.Stack.Peek: require a non-empty stack, where `items.pop(0)` and `items[0]` raise
  IndexError on an empty list. `parsing` never reaches that case: its stack always keeps the bottom marker 0,
  which `ValidStack` states and every step preserves.
- The accept test of parser.py calls `nextToken` and so consumes a token when it fails. The model checks for an
  empty rest of the input instead, which leads to the same syntax error on the bottom marker.
- The first token is looked up by its lexeme alone, without the `[id]`/`[const]` mapping the later tokens get
  (parser.py:342-345). The model does the same, so a first token that is an identifier whose lexeme is not in
  `token_lookup` has lookahead -1.
- The `block_in` branch for a following symbol stores the token in attributes that nothing reads. The model
  emits no token there, which is the observable effect.
- Parsing.Parser.ExecuteRule: requires that the rule number is a key of `syntax_rules`. The source leaves
  `ruleItems` unbound otherwise, after it has already popped the stack. `findRule` only ever returns keys of
  `syntax_rules`, which Grammar.TableWellFormed proves.
- Parsing.Parser.Parse: takes a fuel bound in place of `while True`, and returns `OutOfFuel` when the run has not
  stopped within it. It also requires an empty stack, as a new `Parser` has.
- Parsing.Step: stops on a terminal mismatch. The source loops for ever there (see Findings).
- The step counter of `parsing` and the trace columns are not modelled.

## Findings

| source | as written | input that shows it | evidently intended | confidence | as-written member | corrected member |
|---|---|---|---|---|---|---|
| scanner.py:128-143 | `invalidToken` loops until it reads a space or a separator symbol; at the end of the input `read(1)` keeps returning "", so the loop never ends | the input "1\n": the '\n' after a constant is not a separator, so `block_constants` calls `invalidToken` with nothing left to read | the ill-formed run ends at the end of the input and is emitted as one INVALID token | high (derived from the code, not executed) | ScannerAsWritten.ConstantBeforeFinalNewline | ScannerAsWritten.InvalidAtEnd |
| scanner.py:245-266 | on a `<` or `=` that ends the input, the state reads "", emits a token with an empty lexeme and seeks back onto the symbol, so `nextToken` rescans the same character for ever | the input "x <" | the symbol is emitted on its own (INVALID "<", SS "=") and the scanner moves past it | high (derived from the code, not executed) | ScannerAsWritten.TrailingAssignmentSymbolRepeats | Lexer.LeftSpec |
| parser.py:384-386 | on a terminal that differs from the lookahead the loop prints a message but neither breaks nor consumes anything, so `parsing` never returns | the stack `[id]` over the bottom marker with lookahead `,` | stop with an error, as the syntax-error branch does with `break` | high (derived from the code, not executed) | ParserAsWritten.MismatchLoopsForever | ParserAsWritten.MismatchStops |
