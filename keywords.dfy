/** Character classes and the keyword trie of the scanner (scanner.py). */
module Lexicon {

  import opened Options
  import opened Tokens

  /** `[a-zA-Z]` (scanner.py:99) */
  predicate IsLetter(ch: char)
  {
    'a' <= ch <= 'z' || 'A' <= ch <= 'Z'
  }

  /** `[0-9]` (scanner.py:104, scanner.py:154) */
  predicate IsDigit(ch: char)
  {
    '0' <= ch <= '9'
  }

  /** `[a-zA-Z0-9.]`: the characters that may continue an identifier (scanner.py:187) */
  predicate IsIdChar(ch: char)
  {
    IsLetter(ch) || IsDigit(ch) || ch == '.'
  }

  /** `[;{}():,=+*@]`: the special symbols, without `#` (scanner.py:101, 213, 232) */
  predicate IsSymbol(ch: char)
  {
    ch in ";{}():,=+*@"
  }

  /** `[#;{}():,=+*@]`: the special symbols together with `#` (scanner.py:137, 167, 194, 771) */
  predicate IsSymbolOrHash(ch: char)
  {
    ch == '#' || IsSymbol(ch)
  }

  /** The keywords the trie of `block_*` states recognises. */
  const Keywords: seq<string> :=
    ["package", "private", "protected", "print", "import", "if", "in", "int",
     "abstract", "and", "final", "false", "sealed", "class", "case", "object",
     "or", "val", "def", "else", "not", "while", "return", "real", "true", "bool"]

  /** Where a trie state goes on the next character. */
  datatype Target =
    | Deeper(next: State)  // still on the path of some keyword
    | ToIn                 // "in", which has a state of its own (`block_in`)
    | Accepted             // a whole keyword: `keyAcceptingState`
    | Degrade              // off every keyword path: `block_identifierOrError`

  /** One state per reachable `block_*` method of the trie, named after the prefix it has read and grouped by
      the first letter `nextToken` dispatched on (the "pa" branch of `block_p` forms a group of its own). */
  datatype State =
    | FromP(p: PNode)
    | FromPa(pa: PaNode)
    | FromI(i: INode)
    | FromA(a: ANode)
    | FromF(f: FNode)
    | FromS(s: SNode)
    | FromC(c: CNode)
    | FromO(o: ONode)
    | FromV(v: VNode)
    | FromD(d: DNode)
    | FromE(e: ENode)
    | FromN(n: NNode)
    | FromW(w: WNode)
    | FromR(r: RNode)
    | FromT(t: TNode)
    | FromB(b: BNode)

  datatype PNode = P | Pr | Pro | Prot | Prote | Protec | Protect | Protecte | Pri | Priv | Priva | Privat | Prin
  datatype PaNode = Pa | Pac | Pack | Packa | Packag
  datatype INode = I | Im | Imp | Impo | Impor
  datatype ANode = A | Ab | Abs | Abst | Abstr | Abstra | Abstrac | An
  datatype FNode = F | Fi | Fin | Fina | Fa | Fal | Fals
  datatype SNode = S | Se | Sea | Seal | Seale
  datatype CNode = C | Cl | Cla | Clas | Ca | Cas
  datatype ONode = O | Ob | Obj | Obje | Objec
  datatype VNode = V | Va
  datatype DNode = D | De
  datatype ENode = E | El | Els
  datatype NNode = N | No
  datatype WNode = W | Wh | Whi | Whil
  datatype RNode = R | Re | Ret | Retu | Retur | Rea
  datatype TNode = T | Tr | Tru
  datatype BNode = B | Bo | Boo

  /** The transition of each `block_*` state on the character it reads. Every edge of the trie is a lower-case
      letter, so any other character (including the end of input) leaves the keyword paths. */
  function Step(st: State, c: char): Target
  {
    if !('a' <= c <= 'z') then Degrade else
    match st
    case FromP(n) => StepP(n, c)
    case FromPa(n) => StepPa(n, c)
    case FromI(n) => StepI(n, c)
    case FromA(n) => StepA(n, c)
    case FromF(n) => StepF(n, c)
    case FromS(n) => StepS(n, c)
    case FromC(n) => StepC(n, c)
    case FromO(n) => StepO(n, c)
    case FromV(n) => StepV(n, c)
    case FromD(n) => StepD(n, c)
    case FromE(n) => StepE(n, c)
    case FromN(n) => StepN(n, c)
    case FromW(n) => StepW(n, c)
    case FromR(n) => StepR(n, c)
    case FromT(n) => StepT(n, c)
    case FromB(n) => StepB(n, c)
  }

  function StepP(n: PNode, c: char): Target
  {
    match n
    case P => if c == 'a' then Deeper(FromPa(Pa)) else if c == 'r' then Deeper(FromP(Pr)) else Degrade
    case Pr => if c == 'i' then Deeper(FromP(Pri)) else if c == 'o' then Deeper(FromP(Pro)) else Degrade
    case Pro => if c == 't' then Deeper(FromP(Prot)) else Degrade
    case Prot => if c == 'e' then Deeper(FromP(Prote)) else Degrade
    case Prote => if c == 'c' then Deeper(FromP(Protec)) else Degrade
    case Protec => if c == 't' then Deeper(FromP(Protect)) else Degrade
    case Protect => if c == 'e' then Deeper(FromP(Protecte)) else Degrade
    case Protecte => if c == 'd' then Accepted else Degrade
    case Pri => if c == 'v' then Deeper(FromP(Priv)) else if c == 'n' then Deeper(FromP(Prin)) else Degrade
    case Priv => if c == 'a' then Deeper(FromP(Priva)) else Degrade
    case Priva => if c == 't' then Deeper(FromP(Privat)) else Degrade
    case Privat => if c == 'e' then Accepted else Degrade
    case Prin => if c == 't' then Accepted else Degrade
  }

  function StepPa(n: PaNode, c: char): Target
  {
    match n
    case Pa => if c == 'c' then Deeper(FromPa(Pac)) else Degrade
    case Pac => if c == 'k' then Deeper(FromPa(Pack)) else Degrade
    case Pack => if c == 'a' then Deeper(FromPa(Packa)) else Degrade
    case Packa => if c == 'g' then Deeper(FromPa(Packag)) else Degrade
    case Packag => if c == 'e' then Accepted else Degrade
  }

  function StepI(n: INode, c: char): Target
  {
    match n
    case I => if c == 'm' then Deeper(FromI(Im)) else if c == 'f' then Accepted else if c == 'n' then ToIn else Degrade
    case Im => if c == 'p' then Deeper(FromI(Imp)) else Degrade
    case Imp => if c == 'o' then Deeper(FromI(Impo)) else Degrade
    case Impo => if c == 'r' then Deeper(FromI(Impor)) else Degrade
    case Impor => if c == 't' then Accepted else Degrade
  }

  function StepA(n: ANode, c: char): Target
  {
    match n
    case A => if c == 'b' then Deeper(FromA(Ab)) else if c == 'n' then Deeper(FromA(An)) else Degrade
    case Ab => if c == 's' then Deeper(FromA(Abs)) else Degrade
    case Abs => if c == 't' then Deeper(FromA(Abst)) else Degrade
    case Abst => if c == 'r' then Deeper(FromA(Abstr)) else Degrade
    case Abstr => if c == 'a' then Deeper(FromA(Abstra)) else Degrade
    case Abstra => if c == 'c' then Deeper(FromA(Abstrac)) else Degrade
    case Abstrac => if c == 't' then Accepted else Degrade
    case An => if c == 'd' then Accepted else Degrade
  }

  function StepF(n: FNode, c: char): Target
  {
    match n
    case F => if c == 'i' then Deeper(FromF(Fi)) else if c == 'a' then Deeper(FromF(Fa)) else Degrade
    case Fi => if c == 'n' then Deeper(FromF(Fin)) else Degrade
    case Fin => if c == 'a' then Deeper(FromF(Fina)) else Degrade
    case Fina => if c == 'l' then Accepted else Degrade
    case Fa => if c == 'l' then Deeper(FromF(Fal)) else Degrade
    case Fal => if c == 's' then Deeper(FromF(Fals)) else Degrade
    case Fals => if c == 'e' then Accepted else Degrade
  }

  function StepS(n: SNode, c: char): Target
  {
    match n
    case S => if c == 'e' then Deeper(FromS(Se)) else Degrade
    case Se => if c == 'a' then Deeper(FromS(Sea)) else Degrade
    case Sea => if c == 'l' then Deeper(FromS(Seal)) else Degrade
    case Seal => if c == 'e' then Deeper(FromS(Seale)) else Degrade
    case Seale => if c == 'd' then Accepted else Degrade
  }

  function StepC(n: CNode, c: char): Target
  {
    match n
    case C => if c == 'l' then Deeper(FromC(Cl)) else if c == 'a' then Deeper(FromC(Ca)) else Degrade
    case Cl => if c == 'a' then Deeper(FromC(Cla)) else Degrade
    case Cla => if c == 's' then Deeper(FromC(Clas)) else Degrade
    case Clas => if c == 's' then Accepted else Degrade
    case Ca => if c == 's' then Deeper(FromC(Cas)) else Degrade
    case Cas => if c == 'e' then Accepted else Degrade
  }

  function StepO(n: ONode, c: char): Target
  {
    match n
    case O => if c == 'b' then Deeper(FromO(Ob)) else if c == 'r' then Accepted else Degrade
    case Ob => if c == 'j' then Deeper(FromO(Obj)) else Degrade
    case Obj => if c == 'e' then Deeper(FromO(Obje)) else Degrade
    case Obje => if c == 'c' then Deeper(FromO(Objec)) else Degrade
    case Objec => if c == 't' then Accepted else Degrade
  }

  function StepV(n: VNode, c: char): Target
  {
    match n
    case V => if c == 'a' then Deeper(FromV(Va)) else Degrade
    case Va => if c == 'l' then Accepted else Degrade
  }

  function StepD(n: DNode, c: char): Target
  {
    match n
    case D => if c == 'e' then Deeper(FromD(De)) else Degrade
    case De => if c == 'f' then Accepted else Degrade
  }

  function StepE(n: ENode, c: char): Target
  {
    match n
    case E => if c == 'l' then Deeper(FromE(El)) else Degrade
    case El => if c == 's' then Deeper(FromE(Els)) else Degrade
    case Els => if c == 'e' then Accepted else Degrade
  }

  function StepN(n: NNode, c: char): Target
  {
    match n
    case N => if c == 'o' then Deeper(FromN(No)) else Degrade
    case No => if c == 't' then Accepted else Degrade
  }

  function StepW(n: WNode, c: char): Target
  {
    match n
    case W => if c == 'h' then Deeper(FromW(Wh)) else Degrade
    case Wh => if c == 'i' then Deeper(FromW(Whi)) else Degrade
    case Whi => if c == 'l' then Deeper(FromW(Whil)) else Degrade
    case Whil => if c == 'e' then Accepted else Degrade
  }

  function StepR(n: RNode, c: char): Target
  {
    match n
    case R => if c == 'e' then Deeper(FromR(Re)) else Degrade
    case Re => if c == 't' then Deeper(FromR(Ret)) else if c == 'a' then Deeper(FromR(Rea)) else Degrade
    case Ret => if c == 'u' then Deeper(FromR(Retu)) else Degrade
    case Retu => if c == 'r' then Deeper(FromR(Retur)) else Degrade
    case Retur => if c == 'n' then Accepted else Degrade
    case Rea => if c == 'l' then Accepted else Degrade
  }

  function StepT(n: TNode, c: char): Target
  {
    match n
    case T => if c == 'r' then Deeper(FromT(Tr)) else Degrade
    case Tr => if c == 'u' then Deeper(FromT(Tru)) else Degrade
    case Tru => if c == 'e' then Accepted else Degrade
  }

  function StepB(n: BNode, c: char): Target
  {
    match n
    case B => if c == 'o' then Deeper(FromB(Bo)) else Degrade
    case Bo => if c == 'o' then Deeper(FromB(Boo)) else Degrade
    case Boo => if c == 'l' then Accepted else Degrade
  }

  /** The trie state `nextToken` enters on a first character (scanner.py:65-94), if any. */
  function Entry(c: char): Option<State>
  {
    match c
    case 'p' => Some(FromP(P))
    case 'i' => Some(FromI(I))
    case 'a' => Some(FromA(A))
    case 'f' => Some(FromF(F))
    case 's' => Some(FromS(S))
    case 'c' => Some(FromC(C))
    case 'o' => Some(FromO(O))
    case 'v' => Some(FromV(V))
    case 'd' => Some(FromD(D))
    case 'e' => Some(FromE(E))
    case 'n' => Some(FromN(N))
    case 'w' => Some(FromW(W))
    case 'r' => Some(FromR(R))
    case 't' => Some(FromT(T))
    case 'b' => Some(FromB(B))
    case _ => None
  }

  /** The target reached by walking the characters `w[i..j]` from `st`, if every step but the last goes deeper;
      Degrade if the walk leaves the trie early. */
  function Walk(st: State, w: string, i: nat, j: nat): Target
    requires i < j <= |w|
    decreases j - i
  {
    if i + 1 == j then Step(st, w[i])
    else match Step(st, w[i])
      case Deeper(n) => Walk(n, w, i + 1, j)
      case _ => Degrade
  }

  /** A walk depends only on the characters it reads. */
  lemma {:induction false} WalkSame(st: State, w: string, i: nat, j: nat, v: string, k: nat)
    requires i < j <= |w| && k + (j - i) <= |v|
    requires w[i..j] == v[k..k + (j - i)]
    ensures Walk(st, w, i, j) == Walk(st, v, k, k + (j - i))
    decreases j - i
  {
    assert w[i] == w[i..j][0] == v[k..k + (j - i)][0] == v[k];
    if i + 1 < j {
      assert w[i + 1..j] == w[i..j][1..];
      assert v[k + 1..k + (j - i)] == v[k..k + (j - i)][1..];
      match Step(st, w[i])
      case Deeper(n) => WalkSame(n, w, i + 1, j, v, k + 1);
      case _ =>
    }
  }

  /** A walk that ends in a keyword went deeper on every proper prefix. */
  lemma {:induction false} WalkPrefixDeeper(st: State, w: string, i: nat, m: nat, j: nat)
    requires i < m < j <= |w| && Walk(st, w, i, j).Accepted?
    ensures Walk(st, w, i, m).Deeper?
    decreases j - i
  {
    if i + 1 < m {
      WalkPrefixDeeper(Step(st, w[i]).next, w, i + 1, m, j);
    }
  }

  /** The trie recognises `k`: from the state of its first letter, its remaining letters lead to `keyAcceptingState`. */
  predicate Recognizes(k: string)
  {
    |k| > 1 && Entry(k[0]).Some? && Walk(Entry(k[0]).value, k, 1, |k|).Accepted?
  }

  /** Every keyword except "in" and "int" (which go through `block_in`) is recognised by the trie. */
  lemma KeywordsRecognized()
    ensures forall k :: k in Keywords && k != "in" && k != "int" ==> Recognizes(k)
  {
    RecognizesPackage();
    RecognizesPrivate();
    RecognizesProtected();
    RecognizesPrint();
    RecognizesImport();
    RecognizesIf();
    RecognizesAbstract();
    RecognizesAnd();
    RecognizesFinal();
    RecognizesFalse();
    RecognizesSealed();
    RecognizesClass();
    RecognizesCase();
    RecognizesObject();
    RecognizesOr();
    RecognizesVal();
    RecognizesDef();
    RecognizesElse();
    RecognizesNot();
    RecognizesWhile();
    RecognizesReturn();
    RecognizesReal();
    RecognizesTrue();
    RecognizesBool();
  }

  // One table check per keyword, walking back from the accepting letter. They are split one per keyword so
  // that each proof evaluates only its own chain of `Step`s and stays cheap for the solver.
  lemma RecognizesPackage() ensures Recognizes("package") {
    assert Step(FromP(P), 'a') == Deeper(FromPa(Pa));
    assert Step(FromPa(Pa), 'c') == Deeper(FromPa(Pac));
    assert Step(FromPa(Pac), 'k') == Deeper(FromPa(Pack));
    assert Step(FromPa(Pack), 'a') == Deeper(FromPa(Packa));
    assert Step(FromPa(Packa), 'g') == Deeper(FromPa(Packag));
    assert Step(FromPa(Packag), 'e') == Accepted;
    assert Walk(FromPa(Packag), "package", 6, 7) == Accepted;
    assert Walk(FromPa(Packa), "package", 5, 7) == Accepted;
    assert Walk(FromPa(Pack), "package", 4, 7) == Accepted;
    assert Walk(FromPa(Pac), "package", 3, 7) == Accepted;
    assert Walk(FromPa(Pa), "package", 2, 7) == Accepted;
    assert Walk(FromP(P), "package", 1, 7) == Accepted;
  }
  lemma RecognizesPrivate() ensures Recognizes("private") {
    assert Step(FromP(P), 'r') == Deeper(FromP(Pr));
    assert Step(FromP(Pr), 'i') == Deeper(FromP(Pri));
    assert Step(FromP(Pri), 'v') == Deeper(FromP(Priv));
    assert Step(FromP(Priv), 'a') == Deeper(FromP(Priva));
    assert Step(FromP(Priva), 't') == Deeper(FromP(Privat));
    assert Step(FromP(Privat), 'e') == Accepted;
    assert Walk(FromP(Privat), "private", 6, 7) == Accepted;
    assert Walk(FromP(Priva), "private", 5, 7) == Accepted;
    assert Walk(FromP(Priv), "private", 4, 7) == Accepted;
    assert Walk(FromP(Pri), "private", 3, 7) == Accepted;
    assert Walk(FromP(Pr), "private", 2, 7) == Accepted;
    assert Walk(FromP(P), "private", 1, 7) == Accepted;
  }
  lemma RecognizesProtected() ensures Recognizes("protected") {
    assert Step(FromP(P), 'r') == Deeper(FromP(Pr));
    assert Step(FromP(Pr), 'o') == Deeper(FromP(Pro));
    assert Step(FromP(Pro), 't') == Deeper(FromP(Prot));
    assert Step(FromP(Prot), 'e') == Deeper(FromP(Prote));
    assert Step(FromP(Prote), 'c') == Deeper(FromP(Protec));
    assert Step(FromP(Protec), 't') == Deeper(FromP(Protect));
    assert Step(FromP(Protect), 'e') == Deeper(FromP(Protecte));
    assert Step(FromP(Protecte), 'd') == Accepted;
    assert Walk(FromP(Protecte), "protected", 8, 9) == Accepted;
    assert Walk(FromP(Protect), "protected", 7, 9) == Accepted;
    assert Walk(FromP(Protec), "protected", 6, 9) == Accepted;
    assert Walk(FromP(Prote), "protected", 5, 9) == Accepted;
    assert Walk(FromP(Prot), "protected", 4, 9) == Accepted;
    assert Walk(FromP(Pro), "protected", 3, 9) == Accepted;
    assert Walk(FromP(Pr), "protected", 2, 9) == Accepted;
    assert Walk(FromP(P), "protected", 1, 9) == Accepted;
  }
  lemma RecognizesPrint() ensures Recognizes("print") {
    assert Step(FromP(P), 'r') == Deeper(FromP(Pr));
    assert Step(FromP(Pr), 'i') == Deeper(FromP(Pri));
    assert Step(FromP(Pri), 'n') == Deeper(FromP(Prin));
    assert Step(FromP(Prin), 't') == Accepted;
    assert Walk(FromP(Prin), "print", 4, 5) == Accepted;
    assert Walk(FromP(Pri), "print", 3, 5) == Accepted;
    assert Walk(FromP(Pr), "print", 2, 5) == Accepted;
    assert Walk(FromP(P), "print", 1, 5) == Accepted;
  }
  lemma RecognizesImport() ensures Recognizes("import") {
    assert Step(FromI(I), 'm') == Deeper(FromI(Im));
    assert Step(FromI(Im), 'p') == Deeper(FromI(Imp));
    assert Step(FromI(Imp), 'o') == Deeper(FromI(Impo));
    assert Step(FromI(Impo), 'r') == Deeper(FromI(Impor));
    assert Step(FromI(Impor), 't') == Accepted;
    assert Walk(FromI(Impor), "import", 5, 6) == Accepted;
    assert Walk(FromI(Impo), "import", 4, 6) == Accepted;
    assert Walk(FromI(Imp), "import", 3, 6) == Accepted;
    assert Walk(FromI(Im), "import", 2, 6) == Accepted;
    assert Walk(FromI(I), "import", 1, 6) == Accepted;
  }
  lemma RecognizesIf() ensures Recognizes("if") {
    assert Step(FromI(I), 'f') == Accepted;
    assert Walk(FromI(I), "if", 1, 2) == Accepted;
  }
  lemma RecognizesAbstract() ensures Recognizes("abstract") {
    assert Step(FromA(A), 'b') == Deeper(FromA(Ab));
    assert Step(FromA(Ab), 's') == Deeper(FromA(Abs));
    assert Step(FromA(Abs), 't') == Deeper(FromA(Abst));
    assert Step(FromA(Abst), 'r') == Deeper(FromA(Abstr));
    assert Step(FromA(Abstr), 'a') == Deeper(FromA(Abstra));
    assert Step(FromA(Abstra), 'c') == Deeper(FromA(Abstrac));
    assert Step(FromA(Abstrac), 't') == Accepted;
    assert Walk(FromA(Abstrac), "abstract", 7, 8) == Accepted;
    assert Walk(FromA(Abstra), "abstract", 6, 8) == Accepted;
    assert Walk(FromA(Abstr), "abstract", 5, 8) == Accepted;
    assert Walk(FromA(Abst), "abstract", 4, 8) == Accepted;
    assert Walk(FromA(Abs), "abstract", 3, 8) == Accepted;
    assert Walk(FromA(Ab), "abstract", 2, 8) == Accepted;
    assert Walk(FromA(A), "abstract", 1, 8) == Accepted;
  }
  lemma RecognizesAnd() ensures Recognizes("and") {
    assert Step(FromA(A), 'n') == Deeper(FromA(An));
    assert Step(FromA(An), 'd') == Accepted;
    assert Walk(FromA(An), "and", 2, 3) == Accepted;
    assert Walk(FromA(A), "and", 1, 3) == Accepted;
  }
  lemma RecognizesFinal() ensures Recognizes("final") {
    assert Step(FromF(F), 'i') == Deeper(FromF(Fi));
    assert Step(FromF(Fi), 'n') == Deeper(FromF(Fin));
    assert Step(FromF(Fin), 'a') == Deeper(FromF(Fina));
    assert Step(FromF(Fina), 'l') == Accepted;
    assert Walk(FromF(Fina), "final", 4, 5) == Accepted;
    assert Walk(FromF(Fin), "final", 3, 5) == Accepted;
    assert Walk(FromF(Fi), "final", 2, 5) == Accepted;
    assert Walk(FromF(F), "final", 1, 5) == Accepted;
  }
  lemma RecognizesFalse() ensures Recognizes("false") {
    assert Step(FromF(F), 'a') == Deeper(FromF(Fa));
    assert Step(FromF(Fa), 'l') == Deeper(FromF(Fal));
    assert Step(FromF(Fal), 's') == Deeper(FromF(Fals));
    assert Step(FromF(Fals), 'e') == Accepted;
    assert Walk(FromF(Fals), "false", 4, 5) == Accepted;
    assert Walk(FromF(Fal), "false", 3, 5) == Accepted;
    assert Walk(FromF(Fa), "false", 2, 5) == Accepted;
    assert Walk(FromF(F), "false", 1, 5) == Accepted;
  }
  lemma RecognizesSealed() ensures Recognizes("sealed") {
    assert Step(FromS(S), 'e') == Deeper(FromS(Se));
    assert Step(FromS(Se), 'a') == Deeper(FromS(Sea));
    assert Step(FromS(Sea), 'l') == Deeper(FromS(Seal));
    assert Step(FromS(Seal), 'e') == Deeper(FromS(Seale));
    assert Step(FromS(Seale), 'd') == Accepted;
    assert Walk(FromS(Seale), "sealed", 5, 6) == Accepted;
    assert Walk(FromS(Seal), "sealed", 4, 6) == Accepted;
    assert Walk(FromS(Sea), "sealed", 3, 6) == Accepted;
    assert Walk(FromS(Se), "sealed", 2, 6) == Accepted;
    assert Walk(FromS(S), "sealed", 1, 6) == Accepted;
  }
  lemma RecognizesClass() ensures Recognizes("class") {
    assert Step(FromC(C), 'l') == Deeper(FromC(Cl));
    assert Step(FromC(Cl), 'a') == Deeper(FromC(Cla));
    assert Step(FromC(Cla), 's') == Deeper(FromC(Clas));
    assert Step(FromC(Clas), 's') == Accepted;
    assert Walk(FromC(Clas), "class", 4, 5) == Accepted;
    assert Walk(FromC(Cla), "class", 3, 5) == Accepted;
    assert Walk(FromC(Cl), "class", 2, 5) == Accepted;
    assert Walk(FromC(C), "class", 1, 5) == Accepted;
  }
  lemma RecognizesCase() ensures Recognizes("case") {
    assert Step(FromC(C), 'a') == Deeper(FromC(Ca));
    assert Step(FromC(Ca), 's') == Deeper(FromC(Cas));
    assert Step(FromC(Cas), 'e') == Accepted;
    assert Walk(FromC(Cas), "case", 3, 4) == Accepted;
    assert Walk(FromC(Ca), "case", 2, 4) == Accepted;
    assert Walk(FromC(C), "case", 1, 4) == Accepted;
  }
  lemma RecognizesObject() ensures Recognizes("object") {
    assert Step(FromO(O), 'b') == Deeper(FromO(Ob));
    assert Step(FromO(Ob), 'j') == Deeper(FromO(Obj));
    assert Step(FromO(Obj), 'e') == Deeper(FromO(Obje));
    assert Step(FromO(Obje), 'c') == Deeper(FromO(Objec));
    assert Step(FromO(Objec), 't') == Accepted;
    assert Walk(FromO(Objec), "object", 5, 6) == Accepted;
    assert Walk(FromO(Obje), "object", 4, 6) == Accepted;
    assert Walk(FromO(Obj), "object", 3, 6) == Accepted;
    assert Walk(FromO(Ob), "object", 2, 6) == Accepted;
    assert Walk(FromO(O), "object", 1, 6) == Accepted;
  }
  lemma RecognizesOr() ensures Recognizes("or") {
    assert Step(FromO(O), 'r') == Accepted;
    assert Walk(FromO(O), "or", 1, 2) == Accepted;
  }
  lemma RecognizesVal() ensures Recognizes("val") {
    assert Step(FromV(V), 'a') == Deeper(FromV(Va));
    assert Step(FromV(Va), 'l') == Accepted;
    assert Walk(FromV(Va), "val", 2, 3) == Accepted;
    assert Walk(FromV(V), "val", 1, 3) == Accepted;
  }
  lemma RecognizesDef() ensures Recognizes("def") {
    assert Step(FromD(D), 'e') == Deeper(FromD(De));
    assert Step(FromD(De), 'f') == Accepted;
    assert Walk(FromD(De), "def", 2, 3) == Accepted;
    assert Walk(FromD(D), "def", 1, 3) == Accepted;
  }
  lemma RecognizesElse() ensures Recognizes("else") {
    assert Step(FromE(E), 'l') == Deeper(FromE(El));
    assert Step(FromE(El), 's') == Deeper(FromE(Els));
    assert Step(FromE(Els), 'e') == Accepted;
    assert Walk(FromE(Els), "else", 3, 4) == Accepted;
    assert Walk(FromE(El), "else", 2, 4) == Accepted;
    assert Walk(FromE(E), "else", 1, 4) == Accepted;
  }
  lemma RecognizesNot() ensures Recognizes("not") {
    assert Step(FromN(N), 'o') == Deeper(FromN(No));
    assert Step(FromN(No), 't') == Accepted;
    assert Walk(FromN(No), "not", 2, 3) == Accepted;
    assert Walk(FromN(N), "not", 1, 3) == Accepted;
  }
  lemma RecognizesWhile() ensures Recognizes("while") {
    assert Step(FromW(W), 'h') == Deeper(FromW(Wh));
    assert Step(FromW(Wh), 'i') == Deeper(FromW(Whi));
    assert Step(FromW(Whi), 'l') == Deeper(FromW(Whil));
    assert Step(FromW(Whil), 'e') == Accepted;
    assert Walk(FromW(Whil), "while", 4, 5) == Accepted;
    assert Walk(FromW(Whi), "while", 3, 5) == Accepted;
    assert Walk(FromW(Wh), "while", 2, 5) == Accepted;
    assert Walk(FromW(W), "while", 1, 5) == Accepted;
  }
  lemma RecognizesReturn() ensures Recognizes("return") {
    assert Step(FromR(R), 'e') == Deeper(FromR(Re));
    assert Step(FromR(Re), 't') == Deeper(FromR(Ret));
    assert Step(FromR(Ret), 'u') == Deeper(FromR(Retu));
    assert Step(FromR(Retu), 'r') == Deeper(FromR(Retur));
    assert Step(FromR(Retur), 'n') == Accepted;
    assert Walk(FromR(Retur), "return", 5, 6) == Accepted;
    assert Walk(FromR(Retu), "return", 4, 6) == Accepted;
    assert Walk(FromR(Ret), "return", 3, 6) == Accepted;
    assert Walk(FromR(Re), "return", 2, 6) == Accepted;
    assert Walk(FromR(R), "return", 1, 6) == Accepted;
  }
  lemma RecognizesReal() ensures Recognizes("real") {
    assert Step(FromR(R), 'e') == Deeper(FromR(Re));
    assert Step(FromR(Re), 'a') == Deeper(FromR(Rea));
    assert Step(FromR(Rea), 'l') == Accepted;
    assert Walk(FromR(Rea), "real", 3, 4) == Accepted;
    assert Walk(FromR(Re), "real", 2, 4) == Accepted;
    assert Walk(FromR(R), "real", 1, 4) == Accepted;
  }
  lemma RecognizesTrue() ensures Recognizes("true") {
    assert Step(FromT(T), 'r') == Deeper(FromT(Tr));
    assert Step(FromT(Tr), 'u') == Deeper(FromT(Tru));
    assert Step(FromT(Tru), 'e') == Accepted;
    assert Walk(FromT(Tru), "true", 3, 4) == Accepted;
    assert Walk(FromT(Tr), "true", 2, 4) == Accepted;
    assert Walk(FromT(T), "true", 1, 4) == Accepted;
  }
  lemma RecognizesBool() ensures Recognizes("bool") {
    assert Step(FromB(B), 'o') == Deeper(FromB(Bo));
    assert Step(FromB(Bo), 'o') == Deeper(FromB(Boo));
    assert Step(FromB(Boo), 'l') == Accepted;
    assert Walk(FromB(Boo), "bool", 3, 4) == Accepted;
    assert Walk(FromB(Bo), "bool", 2, 4) == Accepted;
    assert Walk(FromB(B), "bool", 1, 4) == Accepted;
  }
}
