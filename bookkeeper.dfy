/** The symbol table (bookkeeper.py): a dictionary from lexeme to token type that the parser fills with the
    identifiers and constants it reads. */
module SymbolTable {

  import opened Options
  import opened Tokens

  /** The table after one `insert`: the token's lexeme now maps to its type, every other entry is as it was, and
      the table grew by one entry exactly when the lexeme was new. */
  function Inserted(tab: map<string, TokenType>, t: Token): (r: map<string, TokenType>)
    ensures t.lexeme in r && r[t.lexeme] == t.tokenType
    ensures forall k :: k != t.lexeme ==> (k in r <==> k in tab)
    ensures forall k :: k != t.lexeme && k in tab ==> r[k] == tab[k]
    ensures |r| == if t.lexeme in tab then |tab| else |tab| + 1
  {
    var r := tab[t.lexeme := t.tokenType];
    assert r.Keys == tab.Keys + {t.lexeme};
    r
  }

  /** Inserting the same lexeme twice leaves one entry for it, holding the later type. */
  lemma InsertSameLexemeTwice(tab: map<string, TokenType>, t1: Token, t2: Token)
    requires t1.lexeme == t2.lexeme
    ensures Inserted(Inserted(tab, t1), t2) == Inserted(tab, t2)
  {
  }

  /** Inserting a lexeme that is already there with the same type changes nothing. */
  lemma InsertIdempotent(tab: map<string, TokenType>, t: Token)
    requires t.lexeme in tab && tab[t.lexeme] == t.tokenType
    ensures Inserted(tab, t) == tab
  {
  }

  /** `Bookkeeper` (bookkeeper.py:1-17). */
  class Bookkeeper {
    var symtab: map<string, TokenType>

    /** bookkeeper.py:6-10: the table starts empty. */
    constructor ()
      ensures symtab == map[]
    {
      symtab := map[];
    }

    /** bookkeeper.py:12-17: `symtab[token.lexeme] = token.type`. */
    method Insert(t: Token)
      modifies this
      ensures symtab == Inserted(old(symtab), t)
    {
      symtab := symtab[t.lexeme := t.tokenType];
    }
  }
}
