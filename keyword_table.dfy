/**
 * What the keyword matcher of lookup.h decides: membership of the lowered
 * word in a fixed vocabulary table, and the consequences for callers.
 */
module KeywordTable {
  import opened CStrings
  import opened Lookup

  const NotKeyword := 0
  const Keyword := 1
  const ReservedWord := 2
  const NoiseWord := 3

  // ---------------------------------------------------------------------
  // The vocabulary the matcher accepts, as a table.
  // ---------------------------------------------------------------------

  /** The words lookupKeyword answers 1 for. */
  function Keywords(): set<string> {
    {
      "let", "local", "store", "string", "show", "secure", "int", "if", "float",
      "char", "collection", "text", "time", "timestamp", "try", "bool", "do",
      "date", "array", "get", "else", "end", "next", "return", "handle", "to do"
    }
  }

  /** The words lookupKeyword answers 2 for. */
  function ReservedWords(): set<string> {
    {"system", "for", "error", "null", "object", "main"}
  }

  /** The words lookupKeyword answers 3 for. */
  function NoiseWords(): set<string> {
    {"to", "then", "please"}
  }

  /** Class of a lowered word according to the table. */
  function VocabClass(w: string): (k: int)
    ensures 0 <= k <= 3
    ensures k == Keyword <==> w in Keywords()
    ensures k == ReservedWord <==> w in ReservedWords()
    ensures k == NoiseWord <==> w in NoiseWords()
  {
    if w in Keywords() then Keyword
    else if w in ReservedWords() then ReservedWord
    else if w in NoiseWords() then NoiseWord
    else NotKeyword
  }

  lemma VocabularyWordsAreShort(w: string)
    requires VocabClass(w) != NotKeyword
    ensures 2 <= |w| <= 10 && NUL !in w
  {
  }

  // ---------------------------------------------------------------------
  // Correctness of the automaton against the vocabulary table.
  // ---------------------------------------------------------------------

  /**
   * The part of the word a label has already matched when it is entered.
   * Q_GL1 is entered after "gel"; the labels after it have no such prefix.
   */
  function Label(q: State): string {
    match q
    case Start => ""
    case L(x) => (match x case L0 => "l" case LE1 => "le" case LO1 => "lo" case LOC2 => "loc" case LOCA3 => "loca")
    case S(x) => (match x
        case S0 => "s" case ST1 => "st" case STO2 => "sto" case STOR3 => "stor" case STR2 => "str"
        case STRI3 => "stri" case STRIN4 => "strin" case SH1 => "sh" case SHO2 => "sho"
        case SE1 => "se" case SEC2 => "sec" case SECU3 => "secu" case SECUR4 => "secur"
        case SY2 => "sy" case SYS3 => "sys" case SYST4 => "syst" case SYSTE5 => "syste")
    case I(x) => (match x case I0 => "i" case IN1 => "in")
    case F(x) => (match x case F0 => "f" case FL1 => "fl" case FLO2 => "flo" case FLOA3 => "floa" case FO1 => "fo")
    case C(x) => (match x
        case C0 => "c" case CH1 => "ch" case CHA2 => "cha" case CO1 => "co" case COL2 => "col"
        case COLL3 => "coll" case COLLE4 => "colle" case COLLEC5 => "collec" case COLLECT6 => "collect"
        case COLLECTI7 => "collecti" case COLLECTIO8 => "collectio")
    case T(x) => (match x
        case T0 => "t" case TO1 => "to" case TODO_SPACE => "to " case TODO_D => "to d"
        case TODO_O => "to do" case TE1 => "te" case TEX2 => "tex" case TI1 => "ti" case TIM2 => "tim"
        case TIMESTAMP_S4 => "times" case TR1 => "tr" case TH1 => "th" case THE2 => "the")
    case B(x) => (match x case B0 => "b" case BO1 => "bo" case BOO2 => "boo")
    case D(x) => (match x case D0 => "d" case DA1 => "da" case DAT2 => "dat")
    case A(x) => (match x case A0 => "a" case AR1 => "ar" case ARR2 => "arr" case ARRA3 => "arra")
    case G(x) => (match x
        case G0 => "g" case GE1 => "ge" case GL1 => "gel" case GLO2 => "glo" case GLOB3 => "glob"
        case GLOBA4 => "globa")
    case E(x) => (match x
        case E0 => "e" case EL1 => "el" case ELS2 => "els" case EN1 => "en" case ER1 => "er"
        case ERR2 => "err" case ERRO3 => "erro")
    case N(x) => (match x case N0 => "n" case NE1 => "ne" case NEX2 => "nex" case NU1 => "nu" case NUL2 => "nul")
    case R(x) => (match x case R0 => "r" case RE1 => "re" case RET2 => "ret" case RETU3 => "retu" case RETUR4 => "retur")
    case H(x) => (match x case H0 => "h" case HA1 => "ha" case HAN2 => "han" case HAND3 => "hand" case HANDL4 => "handl")
    case O(x) => (match x case O0 => "o" case OB1 => "ob" case OBJ2 => "obj" case OBJE3 => "obje" case OBJEC4 => "objec")
    case M(x) => (match x case M0 => "m" case MA1 => "ma" case MAI2 => "mai")
    case P(x) => (match x case P0 => "p" case PL1 => "pl" case PLE2 => "ple" case PLEA3 => "plea" case PLEAS4 => "pleas")
  }

  /** The labels that some word reaches from the start label. */
  predicate Live(q: State) {
    q != G(GLO2) && q != G(GLOB3) && q != G(GLOBA4)
  }

  /** Label `q` is entered while matching `s`. */
  predicate Reached(s: string, q: State) {
    Live(q) && Label(q) <= s
  }

  /**
   * One label of a word it was reached on: a jump enters a label the word
   * also reaches, and a return gives exactly the class of the word.
   */
  predicate StepExact(s: string, q: State) {
    match Step(s, q)
    case Goto(q') => Reached(s, q')
    case Return(k) => k == VocabClass(s)
  }

  // The words of the table grouped by first letter: each lemma below lists
  // the only words a string starting with that letter can be.

  lemma WordsWithL(s: string)
    requires |s| > 0 && s[0] == 'l' && VocabClass(s) != NotKeyword
    ensures s == "let" || s == "local"
  {
  }

  lemma WordsWithS(s: string)
    requires |s| > 0 && s[0] == 's' && VocabClass(s) != NotKeyword
    ensures s == "store" || s == "string" || s == "show" || s == "secure" || s == "system"
  {
  }

  lemma WordsWithI(s: string)
    requires |s| > 0 && s[0] == 'i' && VocabClass(s) != NotKeyword
    ensures s == "int" || s == "if"
  {
  }

  lemma WordsWithF(s: string)
    requires |s| > 0 && s[0] == 'f' && VocabClass(s) != NotKeyword
    ensures s == "float" || s == "for"
  {
  }

  lemma WordsWithC(s: string)
    requires |s| > 0 && s[0] == 'c' && VocabClass(s) != NotKeyword
    ensures s == "char" || s == "collection"
  {
  }

  lemma WordsWithT(s: string)
    requires |s| > 0 && s[0] == 't' && VocabClass(s) != NotKeyword
    ensures s == "text" || s == "time" || s == "timestamp" || s == "try" || s == "to do" || s == "to" || s == "then"
  {
  }

  lemma WordsWithB(s: string)
    requires |s| > 0 && s[0] == 'b' && VocabClass(s) != NotKeyword
    ensures s == "bool"
  {
  }

  lemma WordsWithD(s: string)
    requires |s| > 0 && s[0] == 'd' && VocabClass(s) != NotKeyword
    ensures s == "do" || s == "date"
  {
  }

  lemma WordsWithA(s: string)
    requires |s| > 0 && s[0] == 'a' && VocabClass(s) != NotKeyword
    ensures s == "array"
  {
  }

  lemma WordsWithG(s: string)
    requires |s| > 0 && s[0] == 'g' && VocabClass(s) != NotKeyword
    ensures s == "get"
  {
  }

  lemma WordsWithE(s: string)
    requires |s| > 0 && s[0] == 'e' && VocabClass(s) != NotKeyword
    ensures s == "else" || s == "end" || s == "error"
  {
  }

  lemma WordsWithN(s: string)
    requires |s| > 0 && s[0] == 'n' && VocabClass(s) != NotKeyword
    ensures s == "next" || s == "null"
  {
  }

  lemma WordsWithR(s: string)
    requires |s| > 0 && s[0] == 'r' && VocabClass(s) != NotKeyword
    ensures s == "return"
  {
  }

  lemma WordsWithH(s: string)
    requires |s| > 0 && s[0] == 'h' && VocabClass(s) != NotKeyword
    ensures s == "handle"
  {
  }

  lemma WordsWithO(s: string)
    requires |s| > 0 && s[0] == 'o' && VocabClass(s) != NotKeyword
    ensures s == "object"
  {
  }

  lemma WordsWithM(s: string)
    requires |s| > 0 && s[0] == 'm' && VocabClass(s) != NotKeyword
    ensures s == "main"
  {
  }

  lemma WordsWithP(s: string)
    requires |s| > 0 && s[0] == 'p' && VocabClass(s) != NotKeyword
    ensures s == "please"
  {
  }

  lemma StepExactL0(s: string)
    requires NUL !in s && Reached(s, L(L0))
    ensures StepExact(s, L(L0))
  {
    assert s[0] == 'l';
    if Step(s, L(L0)).Goto? {
      assert s[..2] == [s[0], s[1]];
    } else if VocabClass(s) != NotKeyword {
      WordsWithL(s);
    }
  }

  lemma StepExactLE1(s: string)
    requires NUL !in s && Reached(s, L(LE1))
    ensures StepExact(s, L(LE1))
  {
    assert s[0] == 'l' && s[1] == 'e';
    if Step(s, L(LE1)) == Return(1) { assert s == "let"; }
    if VocabClass(s) != NotKeyword {
      WordsWithL(s);
    }
  }

  lemma StepExactLO1(s: string)
    requires NUL !in s && Reached(s, L(LO1))
    ensures StepExact(s, L(LO1))
  {
    assert s[0] == 'l' && s[1] == 'o';
    if VocabClass(s) != NotKeyword {
      WordsWithL(s);
    }
  }

  lemma StepExactLOC2(s: string)
    requires NUL !in s && Reached(s, L(LOC2))
    ensures StepExact(s, L(LOC2))
  {
    assert s[0] == 'l' && s[1] == 'o' && s[2] == 'c';
    if VocabClass(s) != NotKeyword {
      WordsWithL(s);
    }
  }

  lemma StepExactLOCA3(s: string)
    requires NUL !in s && Reached(s, L(LOCA3))
    ensures StepExact(s, L(LOCA3))
  {
    assert s[0] == 'l' && s[1] == 'o' && s[2] == 'c' && s[3] == 'a';
    if Step(s, L(LOCA3)) == Return(1) { assert s == "local"; }
    if VocabClass(s) != NotKeyword {
      WordsWithL(s);
    }
  }

  lemma StepExactS0(s: string)
    requires NUL !in s && Reached(s, S(S0))
    ensures StepExact(s, S(S0))
  {
    assert s[0] == 's';
    if Step(s, S(S0)).Goto? {
      assert s[..2] == [s[0], s[1]];
    } else if VocabClass(s) != NotKeyword {
      WordsWithS(s);
    }
  }

  lemma StepExactST1(s: string)
    requires NUL !in s && Reached(s, S(ST1))
    ensures StepExact(s, S(ST1))
  {
    assert s[0] == 's' && s[1] == 't';
    if VocabClass(s) != NotKeyword {
      WordsWithS(s);
    }
  }

  lemma StepExactSTO2(s: string)
    requires NUL !in s && Reached(s, S(STO2))
    ensures StepExact(s, S(STO2))
  {
    assert s[0] == 's' && s[1] == 't' && s[2] == 'o';
    if VocabClass(s) != NotKeyword {
      WordsWithS(s);
    }
  }

  lemma StepExactSTOR3(s: string)
    requires NUL !in s && Reached(s, S(STOR3))
    ensures StepExact(s, S(STOR3))
  {
    assert s[0] == 's' && s[1] == 't' && s[2] == 'o' && s[3] == 'r';
    if Step(s, S(STOR3)) == Return(1) { assert s == "store"; }
    if VocabClass(s) != NotKeyword {
      WordsWithS(s);
    }
  }

  lemma StepExactSTR2(s: string)
    requires NUL !in s && Reached(s, S(STR2))
    ensures StepExact(s, S(STR2))
  {
    assert s[0] == 's' && s[1] == 't' && s[2] == 'r';
    if VocabClass(s) != NotKeyword {
      WordsWithS(s);
    }
  }

  lemma StepExactSTRI3(s: string)
    requires NUL !in s && Reached(s, S(STRI3))
    ensures StepExact(s, S(STRI3))
  {
    assert s[0] == 's' && s[1] == 't' && s[2] == 'r' && s[3] == 'i';
    if VocabClass(s) != NotKeyword {
      WordsWithS(s);
    }
  }

  lemma StepExactSTRIN4(s: string)
    requires NUL !in s && Reached(s, S(STRIN4))
    ensures StepExact(s, S(STRIN4))
  {
    assert s[0] == 's' && s[1] == 't' && s[2] == 'r' && s[3] == 'i' && s[4] == 'n';
    if Step(s, S(STRIN4)) == Return(1) { assert s == "string"; }
    if VocabClass(s) != NotKeyword {
      WordsWithS(s);
    }
  }

  lemma StepExactSH1(s: string)
    requires NUL !in s && Reached(s, S(SH1))
    ensures StepExact(s, S(SH1))
  {
    assert s[0] == 's' && s[1] == 'h';
    if VocabClass(s) != NotKeyword {
      WordsWithS(s);
    }
  }

  lemma StepExactSHO2(s: string)
    requires NUL !in s && Reached(s, S(SHO2))
    ensures StepExact(s, S(SHO2))
  {
    assert s[0] == 's' && s[1] == 'h' && s[2] == 'o';
    if Step(s, S(SHO2)) == Return(1) { assert s == "show"; }
    if VocabClass(s) != NotKeyword {
      WordsWithS(s);
    }
  }

  lemma StepExactSE1(s: string)
    requires NUL !in s && Reached(s, S(SE1))
    ensures StepExact(s, S(SE1))
  {
    assert s[0] == 's' && s[1] == 'e';
    if VocabClass(s) != NotKeyword {
      WordsWithS(s);
    }
  }

  lemma StepExactSEC2(s: string)
    requires NUL !in s && Reached(s, S(SEC2))
    ensures StepExact(s, S(SEC2))
  {
    assert s[0] == 's' && s[1] == 'e' && s[2] == 'c';
    if VocabClass(s) != NotKeyword {
      WordsWithS(s);
    }
  }

  lemma StepExactSECU3(s: string)
    requires NUL !in s && Reached(s, S(SECU3))
    ensures StepExact(s, S(SECU3))
  {
    assert s[0] == 's' && s[1] == 'e' && s[2] == 'c' && s[3] == 'u';
    if VocabClass(s) != NotKeyword {
      WordsWithS(s);
    }
  }

  lemma StepExactSECUR4(s: string)
    requires NUL !in s && Reached(s, S(SECUR4))
    ensures StepExact(s, S(SECUR4))
  {
    assert s[0] == 's' && s[1] == 'e' && s[2] == 'c' && s[3] == 'u' && s[4] == 'r';
    if Step(s, S(SECUR4)) == Return(1) { assert s == "secure"; }
    if VocabClass(s) != NotKeyword {
      WordsWithS(s);
    }
  }

  lemma StepExactSY2(s: string)
    requires NUL !in s && Reached(s, S(SY2))
    ensures StepExact(s, S(SY2))
  {
    assert s[0] == 's' && s[1] == 'y';
    if VocabClass(s) != NotKeyword {
      WordsWithS(s);
    }
  }

  lemma StepExactSYS3(s: string)
    requires NUL !in s && Reached(s, S(SYS3))
    ensures StepExact(s, S(SYS3))
  {
    assert s[0] == 's' && s[1] == 'y' && s[2] == 's';
    if VocabClass(s) != NotKeyword {
      WordsWithS(s);
    }
  }

  lemma StepExactSYST4(s: string)
    requires NUL !in s && Reached(s, S(SYST4))
    ensures StepExact(s, S(SYST4))
  {
    assert s[0] == 's' && s[1] == 'y' && s[2] == 's' && s[3] == 't';
    if VocabClass(s) != NotKeyword {
      WordsWithS(s);
    }
  }

  lemma StepExactSYSTE5(s: string)
    requires NUL !in s && Reached(s, S(SYSTE5))
    ensures StepExact(s, S(SYSTE5))
  {
    assert s[0] == 's' && s[1] == 'y' && s[2] == 's' && s[3] == 't' && s[4] == 'e';
    if Step(s, S(SYSTE5)) == Return(2) { assert s == "system"; }
    if VocabClass(s) != NotKeyword {
      WordsWithS(s);
    }
  }

  lemma StepExactI0(s: string)
    requires NUL !in s && Reached(s, I(I0))
    ensures StepExact(s, I(I0))
  {
    assert s[0] == 'i';
    if Step(s, I(I0)) == Return(1) { assert s == "if"; }
    if VocabClass(s) != NotKeyword {
      WordsWithI(s);
    }
  }

  lemma StepExactIN1(s: string)
    requires NUL !in s && Reached(s, I(IN1))
    ensures StepExact(s, I(IN1))
  {
    assert s[0] == 'i' && s[1] == 'n';
    if Step(s, I(IN1)) == Return(1) { assert s == "int"; }
    if VocabClass(s) != NotKeyword {
      WordsWithI(s);
    }
  }

  lemma StepExactF0(s: string)
    requires NUL !in s && Reached(s, F(F0))
    ensures StepExact(s, F(F0))
  {
    assert s[0] == 'f';
    if Step(s, F(F0)).Goto? {
      assert s[..2] == [s[0], s[1]];
    } else if VocabClass(s) != NotKeyword {
      WordsWithF(s);
    }
  }

  lemma StepExactFL1(s: string)
    requires NUL !in s && Reached(s, F(FL1))
    ensures StepExact(s, F(FL1))
  {
    assert s[0] == 'f' && s[1] == 'l';
    if VocabClass(s) != NotKeyword {
      WordsWithF(s);
    }
  }

  lemma StepExactFLO2(s: string)
    requires NUL !in s && Reached(s, F(FLO2))
    ensures StepExact(s, F(FLO2))
  {
    assert s[0] == 'f' && s[1] == 'l' && s[2] == 'o';
    if VocabClass(s) != NotKeyword {
      WordsWithF(s);
    }
  }

  lemma StepExactFLOA3(s: string)
    requires NUL !in s && Reached(s, F(FLOA3))
    ensures StepExact(s, F(FLOA3))
  {
    assert s[0] == 'f' && s[1] == 'l' && s[2] == 'o' && s[3] == 'a';
    if Step(s, F(FLOA3)) == Return(1) { assert s == "float"; }
    if VocabClass(s) != NotKeyword {
      WordsWithF(s);
    }
  }

  lemma StepExactFO1(s: string)
    requires NUL !in s && Reached(s, F(FO1))
    ensures StepExact(s, F(FO1))
  {
    assert s[0] == 'f' && s[1] == 'o';
    if Step(s, F(FO1)) == Return(2) { assert s == "for"; }
    if VocabClass(s) != NotKeyword {
      WordsWithF(s);
    }
  }

  lemma StepExactC0(s: string)
    requires NUL !in s && Reached(s, C(C0))
    ensures StepExact(s, C(C0))
  {
    assert s[0] == 'c';
    if Step(s, C(C0)).Goto? {
      assert s[..2] == [s[0], s[1]];
    } else if VocabClass(s) != NotKeyword {
      WordsWithC(s);
    }
  }

  lemma StepExactCH1(s: string)
    requires NUL !in s && Reached(s, C(CH1))
    ensures StepExact(s, C(CH1))
  {
    assert s[0] == 'c' && s[1] == 'h';
    if VocabClass(s) != NotKeyword {
      WordsWithC(s);
    }
  }

  lemma StepExactCHA2(s: string)
    requires NUL !in s && Reached(s, C(CHA2))
    ensures StepExact(s, C(CHA2))
  {
    assert s[0] == 'c' && s[1] == 'h' && s[2] == 'a';
    if Step(s, C(CHA2)) == Return(1) { assert s == "char"; }
    if VocabClass(s) != NotKeyword {
      WordsWithC(s);
    }
  }

  lemma StepExactCO1(s: string)
    requires NUL !in s && Reached(s, C(CO1))
    ensures StepExact(s, C(CO1))
  {
    assert s[0] == 'c' && s[1] == 'o';
    if VocabClass(s) != NotKeyword {
      WordsWithC(s);
    }
  }

  lemma StepExactCOL2(s: string)
    requires NUL !in s && Reached(s, C(COL2))
    ensures StepExact(s, C(COL2))
  {
    assert s[0] == 'c' && s[1] == 'o' && s[2] == 'l';
    if VocabClass(s) != NotKeyword {
      WordsWithC(s);
    }
  }

  lemma StepExactCOLL3(s: string)
    requires NUL !in s && Reached(s, C(COLL3))
    ensures StepExact(s, C(COLL3))
  {
    assert s[0] == 'c' && s[1] == 'o' && s[2] == 'l' && s[3] == 'l';
    if VocabClass(s) != NotKeyword {
      WordsWithC(s);
    }
  }

  lemma StepExactCOLLE4(s: string)
    requires NUL !in s && Reached(s, C(COLLE4))
    ensures StepExact(s, C(COLLE4))
  {
    assert s[0] == 'c' && s[1] == 'o' && s[2] == 'l' && s[3] == 'l' && s[4] == 'e';
    if VocabClass(s) != NotKeyword {
      WordsWithC(s);
    }
  }

  lemma StepExactCOLLEC5(s: string)
    requires NUL !in s && Reached(s, C(COLLEC5))
    ensures StepExact(s, C(COLLEC5))
  {
    assert s[0] == 'c' && s[1] == 'o' && s[2] == 'l' && s[3] == 'l' && s[4] == 'e' && s[5] == 'c';
    if VocabClass(s) != NotKeyword {
      WordsWithC(s);
    }
  }

  lemma StepExactCOLLECT6(s: string)
    requires NUL !in s && Reached(s, C(COLLECT6))
    ensures StepExact(s, C(COLLECT6))
  {
    assert s[0] == 'c' && s[1] == 'o' && s[2] == 'l' && s[3] == 'l' && s[4] == 'e' && s[5] == 'c' && s[6] == 't';
    if VocabClass(s) != NotKeyword {
      WordsWithC(s);
    }
  }

  lemma StepExactCOLLECTI7(s: string)
    requires NUL !in s && Reached(s, C(COLLECTI7))
    ensures StepExact(s, C(COLLECTI7))
  {
    assert s[0] == 'c' && s[1] == 'o' && s[2] == 'l' && s[3] == 'l' && s[4] == 'e' && s[5] == 'c' && s[6] == 't' && s[7] == 'i';
    if VocabClass(s) != NotKeyword {
      WordsWithC(s);
    }
  }

  lemma StepExactCOLLECTIO8(s: string)
    requires NUL !in s && Reached(s, C(COLLECTIO8))
    ensures StepExact(s, C(COLLECTIO8))
  {
    assert s[0] == 'c' && s[1] == 'o' && s[2] == 'l' && s[3] == 'l' && s[4] == 'e' && s[5] == 'c' && s[6] == 't' && s[7] == 'i' && s[8] == 'o';
    if Step(s, C(COLLECTIO8)) == Return(1) { assert s == "collection"; }
    if VocabClass(s) != NotKeyword {
      WordsWithC(s);
    }
  }

  lemma StepExactT0(s: string)
    requires NUL !in s && Reached(s, T(T0))
    ensures StepExact(s, T(T0))
  {
    assert s[0] == 't';
    if Step(s, T(T0)).Goto? {
      assert s[..2] == [s[0], s[1]];
    } else if VocabClass(s) != NotKeyword {
      WordsWithT(s);
    }
  }

  lemma StepExactTO1(s: string)
    requires NUL !in s && Reached(s, T(TO1))
    ensures StepExact(s, T(TO1))
  {
    assert s[0] == 't' && s[1] == 'o';
    if Step(s, T(TO1)) == Return(3) { assert s == "to"; }
    if VocabClass(s) != NotKeyword {
      WordsWithT(s);
    }
  }

  lemma StepExactTODO_SPACE(s: string)
    requires NUL !in s && Reached(s, T(TODO_SPACE))
    ensures StepExact(s, T(TODO_SPACE))
  {
    assert s[0] == 't' && s[1] == 'o' && s[2] == ' ';
    if VocabClass(s) != NotKeyword {
      WordsWithT(s);
    }
  }

  lemma StepExactTODO_D(s: string)
    requires NUL !in s && Reached(s, T(TODO_D))
    ensures StepExact(s, T(TODO_D))
  {
    assert s[0] == 't' && s[1] == 'o' && s[2] == ' ' && s[3] == 'd';
    if VocabClass(s) != NotKeyword {
      WordsWithT(s);
    }
  }

  lemma StepExactTODO_O(s: string)
    requires NUL !in s && Reached(s, T(TODO_O))
    ensures StepExact(s, T(TODO_O))
  {
    assert s[0] == 't' && s[1] == 'o' && s[2] == ' ' && s[3] == 'd' && s[4] == 'o';
    if Step(s, T(TODO_O)) == Return(1) { assert s == "to do"; }
    if VocabClass(s) != NotKeyword {
      WordsWithT(s);
    }
  }

  lemma StepExactTE1(s: string)
    requires NUL !in s && Reached(s, T(TE1))
    ensures StepExact(s, T(TE1))
  {
    assert s[0] == 't' && s[1] == 'e';
    if VocabClass(s) != NotKeyword {
      WordsWithT(s);
    }
  }

  lemma StepExactTEX2(s: string)
    requires NUL !in s && Reached(s, T(TEX2))
    ensures StepExact(s, T(TEX2))
  {
    assert s[0] == 't' && s[1] == 'e' && s[2] == 'x';
    if Step(s, T(TEX2)) == Return(1) { assert s == "text"; }
    if VocabClass(s) != NotKeyword {
      WordsWithT(s);
    }
  }

  lemma StepExactTI1(s: string)
    requires NUL !in s && Reached(s, T(TI1))
    ensures StepExact(s, T(TI1))
  {
    assert s[0] == 't' && s[1] == 'i';
    if VocabClass(s) != NotKeyword {
      WordsWithT(s);
    }
  }

  lemma StepExactTIM2(s: string)
    requires NUL !in s && Reached(s, T(TIM2))
    ensures StepExact(s, T(TIM2))
  {
    assert s[0] == 't' && s[1] == 'i' && s[2] == 'm';
    if Step(s, T(TIM2)) == Return(1) { assert s == "time"; }
    if VocabClass(s) != NotKeyword {
      WordsWithT(s);
    }
  }

  lemma StepExactTIMESTAMP_S4(s: string)
    requires NUL !in s && Reached(s, T(TIMESTAMP_S4))
    ensures StepExact(s, T(TIMESTAMP_S4))
  {
    assert s[0] == 't' && s[1] == 'i' && s[2] == 'm' && s[3] == 'e' && s[4] == 's';
    if Step(s, T(TIMESTAMP_S4)) == Return(1) { assert s == "timestamp"; }
    if VocabClass(s) != NotKeyword {
      WordsWithT(s);
    }
  }

  lemma StepExactTR1(s: string)
    requires NUL !in s && Reached(s, T(TR1))
    ensures StepExact(s, T(TR1))
  {
    assert s[0] == 't' && s[1] == 'r';
    if Step(s, T(TR1)) == Return(1) { assert s == "try"; }
    if VocabClass(s) != NotKeyword {
      WordsWithT(s);
    }
  }

  lemma StepExactTH1(s: string)
    requires NUL !in s && Reached(s, T(TH1))
    ensures StepExact(s, T(TH1))
  {
    assert s[0] == 't' && s[1] == 'h';
    if VocabClass(s) != NotKeyword {
      WordsWithT(s);
    }
  }

  lemma StepExactTHE2(s: string)
    requires NUL !in s && Reached(s, T(THE2))
    ensures StepExact(s, T(THE2))
  {
    assert s[0] == 't' && s[1] == 'h' && s[2] == 'e';
    if Step(s, T(THE2)) == Return(3) { assert s == "then"; }
    if VocabClass(s) != NotKeyword {
      WordsWithT(s);
    }
  }

  lemma StepExactB0(s: string)
    requires NUL !in s && Reached(s, B(B0))
    ensures StepExact(s, B(B0))
  {
    assert s[0] == 'b';
    if Step(s, B(B0)).Goto? {
      assert s[..2] == [s[0], s[1]];
    } else if VocabClass(s) != NotKeyword {
      WordsWithB(s);
    }
  }

  lemma StepExactBO1(s: string)
    requires NUL !in s && Reached(s, B(BO1))
    ensures StepExact(s, B(BO1))
  {
    assert s[0] == 'b' && s[1] == 'o';
    if VocabClass(s) != NotKeyword {
      WordsWithB(s);
    }
  }

  lemma StepExactBOO2(s: string)
    requires NUL !in s && Reached(s, B(BOO2))
    ensures StepExact(s, B(BOO2))
  {
    assert s[0] == 'b' && s[1] == 'o' && s[2] == 'o';
    if Step(s, B(BOO2)) == Return(1) { assert s == "bool"; }
    if VocabClass(s) != NotKeyword {
      WordsWithB(s);
    }
  }

  lemma StepExactD0(s: string)
    requires NUL !in s && Reached(s, D(D0))
    ensures StepExact(s, D(D0))
  {
    assert s[0] == 'd';
    if Step(s, D(D0)) == Return(1) { assert s == "do"; }
    if VocabClass(s) != NotKeyword {
      WordsWithD(s);
    }
  }

  lemma StepExactDA1(s: string)
    requires NUL !in s && Reached(s, D(DA1))
    ensures StepExact(s, D(DA1))
  {
    assert s[0] == 'd' && s[1] == 'a';
    if VocabClass(s) != NotKeyword {
      WordsWithD(s);
    }
  }

  lemma StepExactDAT2(s: string)
    requires NUL !in s && Reached(s, D(DAT2))
    ensures StepExact(s, D(DAT2))
  {
    assert s[0] == 'd' && s[1] == 'a' && s[2] == 't';
    if Step(s, D(DAT2)) == Return(1) { assert s == "date"; }
    if VocabClass(s) != NotKeyword {
      WordsWithD(s);
    }
  }

  lemma StepExactA0(s: string)
    requires NUL !in s && Reached(s, A(A0))
    ensures StepExact(s, A(A0))
  {
    assert s[0] == 'a';
    if Step(s, A(A0)).Goto? {
      assert s[..2] == [s[0], s[1]];
    } else if VocabClass(s) != NotKeyword {
      WordsWithA(s);
    }
  }

  lemma StepExactAR1(s: string)
    requires NUL !in s && Reached(s, A(AR1))
    ensures StepExact(s, A(AR1))
  {
    assert s[0] == 'a' && s[1] == 'r';
    if VocabClass(s) != NotKeyword {
      WordsWithA(s);
    }
  }

  lemma StepExactARR2(s: string)
    requires NUL !in s && Reached(s, A(ARR2))
    ensures StepExact(s, A(ARR2))
  {
    assert s[0] == 'a' && s[1] == 'r' && s[2] == 'r';
    if VocabClass(s) != NotKeyword {
      WordsWithA(s);
    }
  }

  lemma StepExactARRA3(s: string)
    requires NUL !in s && Reached(s, A(ARRA3))
    ensures StepExact(s, A(ARRA3))
  {
    assert s[0] == 'a' && s[1] == 'r' && s[2] == 'r' && s[3] == 'a';
    if Step(s, A(ARRA3)) == Return(1) { assert s == "array"; }
    if VocabClass(s) != NotKeyword {
      WordsWithA(s);
    }
  }

  lemma StepExactG0(s: string)
    requires NUL !in s && Reached(s, G(G0))
    ensures StepExact(s, G(G0))
  {
    assert s[0] == 'g';
    if Step(s, G(G0)).Goto? {
      assert s[..2] == [s[0], s[1]];
    } else if VocabClass(s) != NotKeyword {
      WordsWithG(s);
    }
  }

  lemma StepExactGE1(s: string)
    requires NUL !in s && Reached(s, G(GE1))
    ensures StepExact(s, G(GE1))
  {
    assert s[0] == 'g' && s[1] == 'e';
    if Step(s, G(GE1)) == Return(1) { assert s == "get"; }
    if VocabClass(s) != NotKeyword {
      WordsWithG(s);
    }
  }

  lemma StepExactGL1(s: string)
    requires NUL !in s && Reached(s, G(GL1))
    ensures StepExact(s, G(GL1))
  {
    assert s[0] == 'g' && s[1] == 'e' && s[2] == 'l';
    if VocabClass(s) != NotKeyword {
      WordsWithG(s);
    }
  }

  lemma StepExactE0(s: string)
    requires NUL !in s && Reached(s, E(E0))
    ensures StepExact(s, E(E0))
  {
    assert s[0] == 'e';
    if Step(s, E(E0)).Goto? {
      assert s[..2] == [s[0], s[1]];
    } else if VocabClass(s) != NotKeyword {
      WordsWithE(s);
    }
  }

  lemma StepExactEL1(s: string)
    requires NUL !in s && Reached(s, E(EL1))
    ensures StepExact(s, E(EL1))
  {
    assert s[0] == 'e' && s[1] == 'l';
    if VocabClass(s) != NotKeyword {
      WordsWithE(s);
    }
  }

  lemma StepExactELS2(s: string)
    requires NUL !in s && Reached(s, E(ELS2))
    ensures StepExact(s, E(ELS2))
  {
    assert s[0] == 'e' && s[1] == 'l' && s[2] == 's';
    if Step(s, E(ELS2)) == Return(1) { assert s == "else"; }
    if VocabClass(s) != NotKeyword {
      WordsWithE(s);
    }
  }

  lemma StepExactEN1(s: string)
    requires NUL !in s && Reached(s, E(EN1))
    ensures StepExact(s, E(EN1))
  {
    assert s[0] == 'e' && s[1] == 'n';
    if Step(s, E(EN1)) == Return(1) { assert s == "end"; }
    if VocabClass(s) != NotKeyword {
      WordsWithE(s);
    }
  }

  lemma StepExactER1(s: string)
    requires NUL !in s && Reached(s, E(ER1))
    ensures StepExact(s, E(ER1))
  {
    assert s[0] == 'e' && s[1] == 'r';
    if VocabClass(s) != NotKeyword {
      WordsWithE(s);
    }
  }

  lemma StepExactERR2(s: string)
    requires NUL !in s && Reached(s, E(ERR2))
    ensures StepExact(s, E(ERR2))
  {
    assert s[0] == 'e' && s[1] == 'r' && s[2] == 'r';
    if VocabClass(s) != NotKeyword {
      WordsWithE(s);
    }
  }

  lemma StepExactERRO3(s: string)
    requires NUL !in s && Reached(s, E(ERRO3))
    ensures StepExact(s, E(ERRO3))
  {
    assert s[0] == 'e' && s[1] == 'r' && s[2] == 'r' && s[3] == 'o';
    if Step(s, E(ERRO3)) == Return(2) { assert s == "error"; }
    if VocabClass(s) != NotKeyword {
      WordsWithE(s);
    }
  }

  lemma StepExactN0(s: string)
    requires NUL !in s && Reached(s, N(N0))
    ensures StepExact(s, N(N0))
  {
    assert s[0] == 'n';
    if Step(s, N(N0)).Goto? {
      assert s[..2] == [s[0], s[1]];
    } else if VocabClass(s) != NotKeyword {
      WordsWithN(s);
    }
  }

  lemma StepExactNE1(s: string)
    requires NUL !in s && Reached(s, N(NE1))
    ensures StepExact(s, N(NE1))
  {
    assert s[0] == 'n' && s[1] == 'e';
    if VocabClass(s) != NotKeyword {
      WordsWithN(s);
    }
  }

  lemma StepExactNEX2(s: string)
    requires NUL !in s && Reached(s, N(NEX2))
    ensures StepExact(s, N(NEX2))
  {
    assert s[0] == 'n' && s[1] == 'e' && s[2] == 'x';
    if Step(s, N(NEX2)) == Return(1) { assert s == "next"; }
    if VocabClass(s) != NotKeyword {
      WordsWithN(s);
    }
  }

  lemma StepExactNU1(s: string)
    requires NUL !in s && Reached(s, N(NU1))
    ensures StepExact(s, N(NU1))
  {
    assert s[0] == 'n' && s[1] == 'u';
    if VocabClass(s) != NotKeyword {
      WordsWithN(s);
    }
  }

  lemma StepExactNUL2(s: string)
    requires NUL !in s && Reached(s, N(NUL2))
    ensures StepExact(s, N(NUL2))
  {
    assert s[0] == 'n' && s[1] == 'u' && s[2] == 'l';
    if Step(s, N(NUL2)) == Return(2) { assert s == "null"; }
    if VocabClass(s) != NotKeyword {
      WordsWithN(s);
    }
  }

  lemma StepExactR0(s: string)
    requires NUL !in s && Reached(s, R(R0))
    ensures StepExact(s, R(R0))
  {
    assert s[0] == 'r';
    if Step(s, R(R0)).Goto? {
      assert s[..2] == [s[0], s[1]];
    } else if VocabClass(s) != NotKeyword {
      WordsWithR(s);
    }
  }

  lemma StepExactRE1(s: string)
    requires NUL !in s && Reached(s, R(RE1))
    ensures StepExact(s, R(RE1))
  {
    assert s[0] == 'r' && s[1] == 'e';
    if VocabClass(s) != NotKeyword {
      WordsWithR(s);
    }
  }

  lemma StepExactRET2(s: string)
    requires NUL !in s && Reached(s, R(RET2))
    ensures StepExact(s, R(RET2))
  {
    assert s[0] == 'r' && s[1] == 'e' && s[2] == 't';
    if VocabClass(s) != NotKeyword {
      WordsWithR(s);
    }
  }

  lemma StepExactRETU3(s: string)
    requires NUL !in s && Reached(s, R(RETU3))
    ensures StepExact(s, R(RETU3))
  {
    assert s[0] == 'r' && s[1] == 'e' && s[2] == 't' && s[3] == 'u';
    if VocabClass(s) != NotKeyword {
      WordsWithR(s);
    }
  }

  lemma StepExactRETUR4(s: string)
    requires NUL !in s && Reached(s, R(RETUR4))
    ensures StepExact(s, R(RETUR4))
  {
    assert s[0] == 'r' && s[1] == 'e' && s[2] == 't' && s[3] == 'u' && s[4] == 'r';
    if Step(s, R(RETUR4)) == Return(1) { assert s == "return"; }
    if VocabClass(s) != NotKeyword {
      WordsWithR(s);
    }
  }

  lemma StepExactH0(s: string)
    requires NUL !in s && Reached(s, H(H0))
    ensures StepExact(s, H(H0))
  {
    assert s[0] == 'h';
    if Step(s, H(H0)).Goto? {
      assert s[..2] == [s[0], s[1]];
    } else if VocabClass(s) != NotKeyword {
      WordsWithH(s);
    }
  }

  lemma StepExactHA1(s: string)
    requires NUL !in s && Reached(s, H(HA1))
    ensures StepExact(s, H(HA1))
  {
    assert s[0] == 'h' && s[1] == 'a';
    if VocabClass(s) != NotKeyword {
      WordsWithH(s);
    }
  }

  lemma StepExactHAN2(s: string)
    requires NUL !in s && Reached(s, H(HAN2))
    ensures StepExact(s, H(HAN2))
  {
    assert s[0] == 'h' && s[1] == 'a' && s[2] == 'n';
    if VocabClass(s) != NotKeyword {
      WordsWithH(s);
    }
  }

  lemma StepExactHAND3(s: string)
    requires NUL !in s && Reached(s, H(HAND3))
    ensures StepExact(s, H(HAND3))
  {
    assert s[0] == 'h' && s[1] == 'a' && s[2] == 'n' && s[3] == 'd';
    if VocabClass(s) != NotKeyword {
      WordsWithH(s);
    }
  }

  lemma StepExactHANDL4(s: string)
    requires NUL !in s && Reached(s, H(HANDL4))
    ensures StepExact(s, H(HANDL4))
  {
    assert s[0] == 'h' && s[1] == 'a' && s[2] == 'n' && s[3] == 'd' && s[4] == 'l';
    if Step(s, H(HANDL4)) == Return(1) { assert s == "handle"; }
    if VocabClass(s) != NotKeyword {
      WordsWithH(s);
    }
  }

  lemma StepExactO0(s: string)
    requires NUL !in s && Reached(s, O(O0))
    ensures StepExact(s, O(O0))
  {
    assert s[0] == 'o';
    if Step(s, O(O0)).Goto? {
      assert s[..2] == [s[0], s[1]];
    } else if VocabClass(s) != NotKeyword {
      WordsWithO(s);
    }
  }

  lemma StepExactOB1(s: string)
    requires NUL !in s && Reached(s, O(OB1))
    ensures StepExact(s, O(OB1))
  {
    assert s[0] == 'o' && s[1] == 'b';
    if VocabClass(s) != NotKeyword {
      WordsWithO(s);
    }
  }

  lemma StepExactOBJ2(s: string)
    requires NUL !in s && Reached(s, O(OBJ2))
    ensures StepExact(s, O(OBJ2))
  {
    assert s[0] == 'o' && s[1] == 'b' && s[2] == 'j';
    if VocabClass(s) != NotKeyword {
      WordsWithO(s);
    }
  }

  lemma StepExactOBJE3(s: string)
    requires NUL !in s && Reached(s, O(OBJE3))
    ensures StepExact(s, O(OBJE3))
  {
    assert s[0] == 'o' && s[1] == 'b' && s[2] == 'j' && s[3] == 'e';
    if VocabClass(s) != NotKeyword {
      WordsWithO(s);
    }
  }

  lemma StepExactOBJEC4(s: string)
    requires NUL !in s && Reached(s, O(OBJEC4))
    ensures StepExact(s, O(OBJEC4))
  {
    assert s[0] == 'o' && s[1] == 'b' && s[2] == 'j' && s[3] == 'e' && s[4] == 'c';
    if Step(s, O(OBJEC4)) == Return(2) { assert s == "object"; }
    if VocabClass(s) != NotKeyword {
      WordsWithO(s);
    }
  }

  lemma StepExactM0(s: string)
    requires NUL !in s && Reached(s, M(M0))
    ensures StepExact(s, M(M0))
  {
    assert s[0] == 'm';
    if Step(s, M(M0)).Goto? {
      assert s[..2] == [s[0], s[1]];
    } else if VocabClass(s) != NotKeyword {
      WordsWithM(s);
    }
  }

  lemma StepExactMA1(s: string)
    requires NUL !in s && Reached(s, M(MA1))
    ensures StepExact(s, M(MA1))
  {
    assert s[0] == 'm' && s[1] == 'a';
    if VocabClass(s) != NotKeyword {
      WordsWithM(s);
    }
  }

  lemma StepExactMAI2(s: string)
    requires NUL !in s && Reached(s, M(MAI2))
    ensures StepExact(s, M(MAI2))
  {
    assert s[0] == 'm' && s[1] == 'a' && s[2] == 'i';
    if Step(s, M(MAI2)) == Return(2) { assert s == "main"; }
    if VocabClass(s) != NotKeyword {
      WordsWithM(s);
    }
  }

  lemma StepExactP0(s: string)
    requires NUL !in s && Reached(s, P(P0))
    ensures StepExact(s, P(P0))
  {
    assert s[0] == 'p';
    if Step(s, P(P0)).Goto? {
      assert s[..2] == [s[0], s[1]];
    } else if VocabClass(s) != NotKeyword {
      WordsWithP(s);
    }
  }

  lemma StepExactPL1(s: string)
    requires NUL !in s && Reached(s, P(PL1))
    ensures StepExact(s, P(PL1))
  {
    assert s[0] == 'p' && s[1] == 'l';
    if VocabClass(s) != NotKeyword {
      WordsWithP(s);
    }
  }

  lemma StepExactPLE2(s: string)
    requires NUL !in s && Reached(s, P(PLE2))
    ensures StepExact(s, P(PLE2))
  {
    assert s[0] == 'p' && s[1] == 'l' && s[2] == 'e';
    if VocabClass(s) != NotKeyword {
      WordsWithP(s);
    }
  }

  lemma StepExactPLEA3(s: string)
    requires NUL !in s && Reached(s, P(PLEA3))
    ensures StepExact(s, P(PLEA3))
  {
    assert s[0] == 'p' && s[1] == 'l' && s[2] == 'e' && s[3] == 'a';
    if VocabClass(s) != NotKeyword {
      WordsWithP(s);
    }
  }

  lemma StepExactPLEAS4(s: string)
    requires NUL !in s && Reached(s, P(PLEAS4))
    ensures StepExact(s, P(PLEAS4))
  {
    assert s[0] == 'p' && s[1] == 'l' && s[2] == 'e' && s[3] == 'a' && s[4] == 's';
    if Step(s, P(PLEAS4)) == Return(3) { assert s == "please"; }
    if VocabClass(s) != NotKeyword {
      WordsWithP(s);
    }
  }

  /** The switch on the first character (lookup.h:28-50). */
  lemma StepExactStart(s: string)
    requires NUL !in s
    ensures StepExact(s, Start)
  {
    if StepStart(s).Return? {
      NoWordStartsThere(s);
    } else {
      FirstLetterReached(s);
    }
  }

  /** The label the first switch jumps to is the one-letter prefix of the word. */
  lemma FirstLetterReached(s: string)
    requires StepStart(s).Goto?
    ensures Reached(s, StepStart(s).next)
  {
    assert s[..1] == [s[0]];
  }

  /** No word of the table starts with a character the first switch does not list. */
  lemma NoWordStartsThere(s: string)
    requires StepStart(s).Return?
    ensures VocabClass(s) == NotKeyword
  {
  }

  lemma StepIsExact(s: string, q: State)
    requires NUL !in s && Reached(s, q)
    ensures StepExact(s, q)
  {
    match q
    case Start => StepExactStart(s);
    case L(x) => StepExactInL(s, x);
    case S(x) => StepExactInS(s, x);
    case I(x) => StepExactInI(s, x);
    case F(x) => StepExactInF(s, x);
    case C(x) => StepExactInC(s, x);
    case T(x) => StepExactInT(s, x);
    case B(x) => StepExactInB(s, x);
    case D(x) => StepExactInD(s, x);
    case A(x) => StepExactInA(s, x);
    case G(x) => StepExactInG(s, x);
    case E(x) => StepExactInE(s, x);
    case N(x) => StepExactInN(s, x);
    case R(x) => StepExactInR(s, x);
    case H(x) => StepExactInH(s, x);
    case O(x) => StepExactInO(s, x);
    case M(x) => StepExactInM(s, x);
    case P(x) => StepExactInP(s, x);
  }

  lemma StepExactInL(s: string, x: LState)
    requires NUL !in s && Reached(s, L(x))
    ensures StepExact(s, L(x))
  {
    match x
    case L0 => StepExactL0(s);
    case LE1 => StepExactLE1(s);
    case LO1 => StepExactLO1(s);
    case LOC2 => StepExactLOC2(s);
    case LOCA3 => StepExactLOCA3(s);
  }

  lemma StepExactInS(s: string, x: SState)
    requires NUL !in s && Reached(s, S(x))
    ensures StepExact(s, S(x))
  {
    match x
    case S0 => StepExactS0(s);
    case ST1 => StepExactST1(s);
    case STO2 => StepExactSTO2(s);
    case STOR3 => StepExactSTOR3(s);
    case STR2 => StepExactSTR2(s);
    case STRI3 => StepExactSTRI3(s);
    case STRIN4 => StepExactSTRIN4(s);
    case SH1 => StepExactSH1(s);
    case SHO2 => StepExactSHO2(s);
    case SE1 => StepExactSE1(s);
    case SEC2 => StepExactSEC2(s);
    case SECU3 => StepExactSECU3(s);
    case SECUR4 => StepExactSECUR4(s);
    case SY2 => StepExactSY2(s);
    case SYS3 => StepExactSYS3(s);
    case SYST4 => StepExactSYST4(s);
    case SYSTE5 => StepExactSYSTE5(s);
  }

  lemma StepExactInI(s: string, x: IState)
    requires NUL !in s && Reached(s, I(x))
    ensures StepExact(s, I(x))
  {
    match x
    case I0 => StepExactI0(s);
    case IN1 => StepExactIN1(s);
  }

  lemma StepExactInF(s: string, x: FState)
    requires NUL !in s && Reached(s, F(x))
    ensures StepExact(s, F(x))
  {
    match x
    case F0 => StepExactF0(s);
    case FL1 => StepExactFL1(s);
    case FLO2 => StepExactFLO2(s);
    case FLOA3 => StepExactFLOA3(s);
    case FO1 => StepExactFO1(s);
  }

  lemma StepExactInC(s: string, x: CState)
    requires NUL !in s && Reached(s, C(x))
    ensures StepExact(s, C(x))
  {
    match x
    case C0 => StepExactC0(s);
    case CH1 => StepExactCH1(s);
    case CHA2 => StepExactCHA2(s);
    case CO1 => StepExactCO1(s);
    case COL2 => StepExactCOL2(s);
    case COLL3 => StepExactCOLL3(s);
    case COLLE4 => StepExactCOLLE4(s);
    case COLLEC5 => StepExactCOLLEC5(s);
    case COLLECT6 => StepExactCOLLECT6(s);
    case COLLECTI7 => StepExactCOLLECTI7(s);
    case COLLECTIO8 => StepExactCOLLECTIO8(s);
  }

  lemma StepExactInT(s: string, x: TState)
    requires NUL !in s && Reached(s, T(x))
    ensures StepExact(s, T(x))
  {
    match x
    case T0 => StepExactT0(s);
    case TO1 => StepExactTO1(s);
    case TODO_SPACE => StepExactTODO_SPACE(s);
    case TODO_D => StepExactTODO_D(s);
    case TODO_O => StepExactTODO_O(s);
    case TE1 => StepExactTE1(s);
    case TEX2 => StepExactTEX2(s);
    case TI1 => StepExactTI1(s);
    case TIM2 => StepExactTIM2(s);
    case TIMESTAMP_S4 => StepExactTIMESTAMP_S4(s);
    case TR1 => StepExactTR1(s);
    case TH1 => StepExactTH1(s);
    case THE2 => StepExactTHE2(s);
  }

  lemma StepExactInB(s: string, x: BState)
    requires NUL !in s && Reached(s, B(x))
    ensures StepExact(s, B(x))
  {
    match x
    case B0 => StepExactB0(s);
    case BO1 => StepExactBO1(s);
    case BOO2 => StepExactBOO2(s);
  }

  lemma StepExactInD(s: string, x: DState)
    requires NUL !in s && Reached(s, D(x))
    ensures StepExact(s, D(x))
  {
    match x
    case D0 => StepExactD0(s);
    case DA1 => StepExactDA1(s);
    case DAT2 => StepExactDAT2(s);
  }

  lemma StepExactInA(s: string, x: AState)
    requires NUL !in s && Reached(s, A(x))
    ensures StepExact(s, A(x))
  {
    match x
    case A0 => StepExactA0(s);
    case AR1 => StepExactAR1(s);
    case ARR2 => StepExactARR2(s);
    case ARRA3 => StepExactARRA3(s);
  }

  lemma StepExactInG(s: string, x: GState)
    requires NUL !in s && Reached(s, G(x))
    ensures StepExact(s, G(x))
  {
    if x == G0 {
      StepExactG0(s);
    } else if x == GE1 {
      StepExactGE1(s);
    } else {
      StepExactGL1(s);
    }
  }

  lemma StepExactInE(s: string, x: EState)
    requires NUL !in s && Reached(s, E(x))
    ensures StepExact(s, E(x))
  {
    match x
    case E0 => StepExactE0(s);
    case EL1 => StepExactEL1(s);
    case ELS2 => StepExactELS2(s);
    case EN1 => StepExactEN1(s);
    case ER1 => StepExactER1(s);
    case ERR2 => StepExactERR2(s);
    case ERRO3 => StepExactERRO3(s);
  }

  lemma StepExactInN(s: string, x: NState)
    requires NUL !in s && Reached(s, N(x))
    ensures StepExact(s, N(x))
  {
    match x
    case N0 => StepExactN0(s);
    case NE1 => StepExactNE1(s);
    case NEX2 => StepExactNEX2(s);
    case NU1 => StepExactNU1(s);
    case NUL2 => StepExactNUL2(s);
  }

  lemma StepExactInR(s: string, x: RState)
    requires NUL !in s && Reached(s, R(x))
    ensures StepExact(s, R(x))
  {
    match x
    case R0 => StepExactR0(s);
    case RE1 => StepExactRE1(s);
    case RET2 => StepExactRET2(s);
    case RETU3 => StepExactRETU3(s);
    case RETUR4 => StepExactRETUR4(s);
  }

  lemma StepExactInH(s: string, x: HState)
    requires NUL !in s && Reached(s, H(x))
    ensures StepExact(s, H(x))
  {
    match x
    case H0 => StepExactH0(s);
    case HA1 => StepExactHA1(s);
    case HAN2 => StepExactHAN2(s);
    case HAND3 => StepExactHAND3(s);
    case HANDL4 => StepExactHANDL4(s);
  }

  lemma StepExactInO(s: string, x: OState)
    requires NUL !in s && Reached(s, O(x))
    ensures StepExact(s, O(x))
  {
    match x
    case O0 => StepExactO0(s);
    case OB1 => StepExactOB1(s);
    case OBJ2 => StepExactOBJ2(s);
    case OBJE3 => StepExactOBJE3(s);
    case OBJEC4 => StepExactOBJEC4(s);
  }

  lemma StepExactInM(s: string, x: MState)
    requires NUL !in s && Reached(s, M(x))
    ensures StepExact(s, M(x))
  {
    match x
    case M0 => StepExactM0(s);
    case MA1 => StepExactMA1(s);
    case MAI2 => StepExactMAI2(s);
  }

  lemma StepExactInP(s: string, x: PState)
    requires NUL !in s && Reached(s, P(x))
    ensures StepExact(s, P(x))
  {
    match x
    case P0 => StepExactP0(s);
    case PL1 => StepExactPL1(s);
    case PLE2 => StepExactPLE2(s);
    case PLEA3 => StepExactPLEA3(s);
    case PLEAS4 => StepExactPLEAS4(s);
  }



  /** From any label the word reaches, the labels that follow return the class of the word. */
  lemma {:induction false} RunExact(s: string, q: State)
    requires NUL !in s && Reached(s, q)
    ensures Run(s, q) == VocabClass(s)
    decreases 18 - Rank(q)
  {
    StepIsExact(s, q);
    match Step(s, q)
    case Return(k) =>
    case Goto(q') => RunExact(s, q');
  }

  /** The automaton decides exactly the class of the word in the vocabulary table. */
  lemma RunIsVocabClass(s: string)
    requires NUL !in s
    ensures Run(s, Start) == VocabClass(s)
  {
    RunExact(s, Start);
  }

  /**
   * The labels Q_GLO2, Q_GLOB3 and Q_GLOBA4 are never entered: no word
   * that reaches a label jumps to a label that is not live.
   */
  lemma DeadLabelsUnreachable(s: string, q: State)
    requires NUL !in s && Reached(s, q) && Step(s, q).Goto?
    ensures Live(Step(s, q).next)
    ensures Step(s, q).next !in {G(GLO2), G(GLOB3), G(GLOBA4)}
  {
    StepIsExact(s, q);
  }

  // ---------------------------------------------------------------------
  // lookupKeyword: the automaton on the lowered copy of the word.
  // ---------------------------------------------------------------------

  /**
   * lookupKeyword returns the class in the vocabulary table of the lowered
   * C string: 1, 2 and 3 exactly for the keywords, reserved words and noise
   * words, and 0 for everything else.  The 255-character cut of the copy
   * does not matter, since no vocabulary word is that long.
   */
  lemma LookupIsVocabClass(w: string)
    ensures LookupKeyword(w) == VocabClass(Lower(CStr(w)))
    ensures LookupKeyword(w) == Keyword <==> Lower(CStr(w)) in Keywords()
    ensures LookupKeyword(w) == ReservedWord <==> Lower(CStr(w)) in ReservedWords()
    ensures LookupKeyword(w) == NoiseWord <==> Lower(CStr(w)) in NoiseWords()
    ensures LookupKeyword(w) == NotKeyword <==>
      Lower(CStr(w)) !in Keywords() + ReservedWords() + NoiseWords()
  {
    var copy := LowerCopy(w, LookupBufSize);
    RunIsVocabClass(copy);
    if |CStr(w)| > LookupBufSize - 1 {
      if VocabClass(copy) != NotKeyword { VocabularyWordsAreShort(copy); }
      if VocabClass(Lower(CStr(w))) != NotKeyword { VocabularyWordsAreShort(Lower(CStr(w))); }
    }
  }

  /** Matching runs on a lowered copy, so case does not matter (lookup.h:11-22). */
  lemma LookupIgnoresCase(w: string)
    ensures LookupKeyword(w) == LookupKeyword(Lower(w))
  {
    CLenLower(w);
    LowerIdempotent(w);
    calc {
      Lower(CStr(Lower(w)));
      Lower(Lower(w)[..CLen(w)]);
      { assert Lower(w)[..CLen(w)] == Lower(CStr(w)); }
      Lower(Lower(CStr(w)));
      { LowerIdempotent(CStr(w)); }
      Lower(CStr(w));
    }
    LookupIsVocabClass(w);
    LookupIsVocabClass(Lower(w));
  }

  /** The switch on the first character rejects the empty word and any other first letter (lookup.h:28-50). */
  lemma StartRejectsFirstLetter(v: string)
    requires |v| == 0 || v[0] !in "lsifctbdagenrhomp"
    ensures Step(v, Start) == Return(NotKeyword)
    ensures Run(v, Start) == NotKeyword
  {
    assert StepStart(v) == Return(NotKeyword);
  }

  /** The empty word, and a word whose lowered first letter no label starts with, return 0. */
  lemma LookupRejectsFirstLetter(w: string)
    requires CLen(w) == 0 || ToLower(w[0]) !in "lsifctbdagenrhomp"
    ensures LookupKeyword(w) == NotKeyword
  {
    var copy := LowerCopy(w, LookupBufSize);
    assert |copy| == 0 || copy[0] == ToLower(w[0]);
    StartRejectsFirstLetter(copy);
  }

  /** A NUL-free word is classified as the table classifies its lowered form. */
  lemma LookupWord(w: string)
    requires NUL !in w
    ensures LookupKeyword(w) == VocabClass(Lower(w))
  {
    CStrWhole(w);
    LookupIsVocabClass(w);
  }

  /** A NUL-free word without capitals is its own lowered form. */
  lemma LowerNoCapitals(w: string)
    requires forall i :: 0 <= i < |w| ==> !IsUpper(w[i]) && w[i] != NUL
    ensures NUL !in w && Lower(w) == w
  {
  }

  /** Whole words only: proper prefixes of vocabulary words are not matched. */
  lemma LookupRejectsPrefixes(w: string)
    requires w == "le" || w == "lo" || w == "tim"
    ensures LookupKeyword(w) == NotKeyword
  {
    LowerNoCapitals(w);
    LookupWord(w);
  }

  /** Whole words only: every accepting label tests for the terminator (lookup.h:60-66). */
  lemma LookupRejectsExtensions(w: string)
    requires w == "lets" || w == "times"
    ensures LookupKeyword(w) == NotKeyword
  {
    LowerNoCapitals(w);
    LookupWord(w);
  }

  /**
   * "to do" is merged only with exactly one blank between the words
   * (lookup.h:316-343): "to", any other separator and "do" return 0.
   */
  lemma LookupRejectsOtherBlanks(w: string)
    requires NUL !in w && |w| >= 4 && Lower(w)[..2] == "to" && Lower(w)[|w| - 2..] == "do"
    requires Lower(w) != "to do"
    ensures LookupKeyword(w) == NotKeyword
  {
    LookupWord(w);
    var l := Lower(w);
    assert l[0] == 't' && l[1] == 'o' && l[|l| - 2] == 'd' && l[|l| - 1] == 'o';
    NoOtherToDo(l);
  }

  /** The only table word that starts with "to" and ends with "do" is "to do". */
  lemma NoOtherToDo(l: string)
    requires |l| >= 4 && l[0] == 't' && l[1] == 'o' && l[|l| - 2] == 'd' && l[|l| - 1] == 'o'
    requires l != "to do"
    ensures VocabClass(l) == NotKeyword
  {
    assert l !in ReservedWords();
    assert l !in NoiseWords();
  }

  /**
   * "global" is not matched in any case, although the C code has labels
   * spelling it out (lookup.h:474-510).
   */
  lemma LookupRejectsGlobal(w: string)
    requires NUL !in w && Lower(w) == "global"
    ensures LookupKeyword(w) == NotKeyword
  {
    LookupWord(w);
    assert VocabClass("global") == NotKeyword;
  }

  /** "to do" with one blank is a keyword in any case. */
  lemma LookupToDoAnyCase(w: string)
    requires NUL !in w && Lower(w) == "to do"
    ensures LookupKeyword(w) == Keyword
  {
    LookupWord(w);
    assert VocabClass("to do") == Keyword;
  }
}
