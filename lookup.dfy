/**
 * The keyword / reserved-word / noise-word matcher of the SIMPLE lexer
 * (lookup.h).  The C code is a loop-free chain of `goto` states, one per
 * prefix of the vocabulary; here every label is a constructor of `State`,
 * `Step` is the body of one label and `Run` follows the `goto`s.
 *
 * Result codes: 0 = not a keyword, 1 = keyword, 2 = reserved, 3 = noise.
 */
module Lookup {
  import opened CStrings

  /** Size of the local buffer that receives the lowered copy of the word. */
  const LookupBufSize := 256

  // ---------------------------------------------------------------------
  // The automaton.
  // ---------------------------------------------------------------------

  /**
   * The labels of lookupKeyword, grouped by the first letter of the words
   * they lead to (the sections of the C file); Q_L0 is `L(L0)`, and so on.
   */
  datatype State =
    | Start
    | L(l: LState) | S(s: SState) | I(i: IState) | F(f: FState) | C(c: CState)
    | T(t: TState) | B(b: BState) | D(d: DState) | A(a: AState) | G(g: GState)
    | E(e: EState) | N(n: NState) | R(r: RState) | H(h: HState) | O(o: OState)
    | M(m: MState) | P(p: PState)

  datatype LState = L0 | LE1 | LO1 | LOC2 | LOCA3
  datatype SState = S0 | ST1 | STO2 | STOR3 | STR2 | STRI3 | STRIN4 | SH1 | SHO2
                  | SE1 | SEC2 | SECU3 | SECUR4 | SY2 | SYS3 | SYST4 | SYSTE5
  datatype IState = I0 | IN1
  datatype FState = F0 | FL1 | FLO2 | FLOA3 | FO1
  datatype CState = C0 | CH1 | CHA2 | CO1 | COL2 | COLL3 | COLLE4 | COLLEC5 | COLLECT6
                  | COLLECTI7 | COLLECTIO8
  datatype TState = T0 | TO1 | TODO_SPACE | TODO_D | TODO_O | TE1 | TEX2 | TI1 | TIM2
                  | TIMESTAMP_S4 | TR1 | TH1 | THE2
  datatype BState = B0 | BO1 | BOO2
  datatype DState = D0 | DA1 | DAT2
  datatype AState = A0 | AR1 | ARR2 | ARRA3
  datatype GState = G0 | GE1 | GL1 | GLO2 | GLOB3 | GLOBA4
  datatype EState = E0 | EL1 | ELS2 | EN1 | ER1 | ERR2 | ERRO3
  datatype NState = N0 | NE1 | NEX2 | NU1 | NUL2
  datatype RState = R0 | RE1 | RET2 | RETU3 | RETUR4
  datatype HState = H0 | HA1 | HAN2 | HAND3 | HANDL4
  datatype OState = O0 | OB1 | OBJ2 | OBJE3 | OBJEC4
  datatype MState = M0 | MA1 | MAI2
  datatype PState = P0 | PL1 | PLE2 | PLEA3 | PLEAS4

  /** What a label does: jump to another label, or return a class. */
  datatype Move = Goto(next: State) | Return(code: int)

  /**
   * Every `goto` leads to a label of higher rank: twice the index `i` the
   * label sets before it reads the word.  Q_GE1 jumps to Q_GL1, which sets
   * the same index 2 again, hence its extra step.
   */
  function Rank(q: State): (r: nat)
    ensures r <= 18
  {
    match q
    case Start => 0
    case L(l) => 2 * (match l case L0 => 1 case LE1 | LO1 => 2 case LOC2 => 3 case LOCA3 => 4)
    case S(x) => 2 * (match x
        case S0 => 1
        case ST1 | SH1 | SE1 | SY2 => 2
        case STO2 | STR2 | SHO2 | SEC2 | SYS3 => 3
        case STOR3 | STRI3 | SECU3 | SYST4 => 4
        case STRIN4 | SECUR4 | SYSTE5 => 5)
    case I(x) => 2 * (match x case I0 => 1 case IN1 => 2)
    case F(x) => 2 * (match x case F0 => 1 case FL1 | FO1 => 2 case FLO2 => 3 case FLOA3 => 4)
    case C(x) => 2 * (match x
        case C0 => 1 case CH1 | CO1 => 2 case CHA2 | COL2 => 3 case COLL3 => 4 case COLLE4 => 5
        case COLLEC5 => 6 case COLLECT6 => 7 case COLLECTI7 => 8 case COLLECTIO8 => 9)
    case T(x) => 2 * (match x
        case T0 => 1
        case TO1 | TE1 | TI1 | TR1 | TH1 => 2
        case TODO_SPACE | TEX2 | TIM2 | THE2 => 3
        case TODO_D | TIMESTAMP_S4 => 4
        case TODO_O => 5)
    case B(x) => 2 * (match x case B0 => 1 case BO1 => 2 case BOO2 => 3)
    case D(x) => 2 * (match x case D0 => 1 case DA1 => 2 case DAT2 => 3)
    case A(x) => 2 * (match x case A0 => 1 case AR1 => 2 case ARR2 => 3 case ARRA3 => 4)
    case G(x) => (match x
        case G0 => 2 case GE1 => 4 case GL1 => 5 case GLO2 => 6 case GLOB3 => 8 case GLOBA4 => 10)
    case E(x) => 2 * (match x
        case E0 => 1 case EL1 | EN1 | ER1 => 2 case ELS2 | ERR2 => 3 case ERRO3 => 4)
    case N(x) => 2 * (match x case N0 => 1 case NE1 | NU1 => 2 case NEX2 | NUL2 => 3)
    case R(x) => 2 * (match x case R0 => 1 case RE1 => 2 case RET2 => 3 case RETU3 => 4 case RETUR4 => 5)
    case H(x) => 2 * (match x case H0 => 1 case HA1 => 2 case HAN2 => 3 case HAND3 => 4 case HANDL4 => 5)
    case O(x) => 2 * (match x case O0 => 1 case OB1 => 2 case OBJ2 => 3 case OBJE3 => 4 case OBJEC4 => 5)
    case M(x) => 2 * (match x case M0 => 1 case MA1 => 2 case MAI2 => 3)
    case P(x) => 2 * (match x case P0 => 1 case PL1 => 2 case PLE2 => 3 case PLEA3 => 4 case PLEAS4 => 5)
  }

  /** The body of one label of lookupKeyword, reading the lowered word `s`. */
  function Step(s: string, q: State): (m: Move)
    ensures m.Goto? ==> Rank(m.next) > Rank(q)
    ensures m.Return? ==> 0 <= m.code <= 3
  {
    match q
    case Start => StepStart(s)
    case L(x) => StepL(s, x)
    case S(x) => StepS(s, x)
    case I(x) => StepI(s, x)
    case F(x) => StepF(s, x)
    case C(x) => StepC(s, x)
    case T(x) => StepT(s, x)
    case B(x) => StepB(s, x)
    case D(x) => StepD(s, x)
    case A(x) => StepA(s, x)
    case G(x) => StepG(s, x)
    case E(x) => StepE(s, x)
    case N(x) => StepN(s, x)
    case R(x) => StepR(s, x)
    case H(x) => StepH(s, x)
    case O(x) => StepO(s, x)
    case M(x) => StepM(s, x)
    case P(x) => StepP(s, x)
  }

  /** The start state: branch on the first character. */
  function StepStart(s: string): (m: Move)
    ensures m.Goto? ==> Rank(m.next) > 0
    ensures m.Return? ==> m.code == 0
  {
    var c := At(s, 0);
    if c == NUL then Return(0)
    else if c == 'l' then Goto(L(L0))
    else if c == 's' then Goto(S(S0))
    else if c == 'i' then Goto(I(I0))
    else if c == 'f' then Goto(F(F0))
    else if c == 'c' then Goto(C(C0))
    else if c == 't' then Goto(T(T0))
    else if c == 'b' then Goto(B(B0))
    else if c == 'd' then Goto(D(D0))
    else if c == 'a' then Goto(A(A0))
    else if c == 'g' then Goto(G(G0))
    else if c == 'e' then Goto(E(E0))
    else if c == 'n' then Goto(N(N0))
    else if c == 'r' then Goto(R(R0))
    else if c == 'h' then Goto(H(H0))
    else if c == 'o' then Goto(O(O0))
    else if c == 'm' then Goto(M(M0))
    else if c == 'p' then Goto(P(P0))
    else Return(0)
  }

  // let / local
  function StepL(s: string, x: LState): (m: Move)
    ensures m.Goto? ==> Rank(m.next) > Rank(L(x))
    ensures m.Return? ==> 0 <= m.code <= 3
  {
    match x
    case L0 => if At(s, 1) == 'e' then Goto(L(LE1)) else if At(s, 1) == 'o' then Goto(L(LO1)) else Return(0)
    case LE1 => Final(s, 2, 't', 1)
    case LO1 => Expect(s, 2, 'c', L(LOC2))
    case LOC2 => Expect(s, 3, 'a', L(LOCA3))
    case LOCA3 => Final(s, 4, 'l', 1)
  }

  // store / string / show / secure / system
  function StepS(s: string, x: SState): (m: Move)
    ensures m.Goto? ==> Rank(m.next) > Rank(S(x))
    ensures m.Return? ==> 0 <= m.code <= 3
  {
    match x
    case S0 =>
      var c := At(s, 1);
      if c == 't' then Goto(S(ST1))
      else if c == 'h' then Goto(S(SH1))
      else if c == 'e' then Goto(S(SE1))
      else if c == 'y' then Goto(S(SY2))
      else Return(0)
    case ST1 => if At(s, 2) == 'o' then Goto(S(STO2)) else if At(s, 2) == 'r' then Goto(S(STR2)) else Return(0)
    case STO2 => Expect(s, 3, 'r', S(STOR3))
    case STOR3 => Final(s, 4, 'e', 1)
    case STR2 => Expect(s, 3, 'i', S(STRI3))
    case STRI3 => Expect(s, 4, 'n', S(STRIN4))
    case STRIN4 => Final(s, 5, 'g', 1)
    case SH1 => Expect(s, 2, 'o', S(SHO2))
    case SHO2 => Final(s, 3, 'w', 1)
    case SE1 => Expect(s, 2, 'c', S(SEC2))
    case SEC2 => Expect(s, 3, 'u', S(SECU3))
    case SECU3 => Expect(s, 4, 'r', S(SECUR4))
    case SECUR4 => Final(s, 5, 'e', 1)
    case SY2 => Expect(s, 2, 's', S(SYS3))
    case SYS3 => Expect(s, 3, 't', S(SYST4))
    case SYST4 => Expect(s, 4, 'e', S(SYSTE5))
    case SYSTE5 => Final(s, 5, 'm', 2)
  }

  // int / if
  function StepI(s: string, x: IState): (m: Move)
    ensures m.Goto? ==> Rank(m.next) > Rank(I(x))
    ensures m.Return? ==> 0 <= m.code <= 3
  {
    match x
    case I0 =>
      if At(s, 1) == 'n' then Goto(I(IN1))
      else if At(s, 1) == 'f' && At(s, 2) == NUL then Return(1)
      else Return(0)
    case IN1 => Final(s, 2, 't', 1)
  }

  // float / for
  function StepF(s: string, x: FState): (m: Move)
    ensures m.Goto? ==> Rank(m.next) > Rank(F(x))
    ensures m.Return? ==> 0 <= m.code <= 3
  {
    match x
    case F0 => if At(s, 1) == 'l' then Goto(F(FL1)) else if At(s, 1) == 'o' then Goto(F(FO1)) else Return(0)
    case FL1 => Expect(s, 2, 'o', F(FLO2))
    case FLO2 => Expect(s, 3, 'a', F(FLOA3))
    case FLOA3 => Final(s, 4, 't', 1)
    case FO1 => Final(s, 2, 'r', 2)
  }

  // char / collection
  function StepC(s: string, x: CState): (m: Move)
    ensures m.Goto? ==> Rank(m.next) > Rank(C(x))
    ensures m.Return? ==> 0 <= m.code <= 3
  {
    match x
    case C0 => if At(s, 1) == 'h' then Goto(C(CH1)) else if At(s, 1) == 'o' then Goto(C(CO1)) else Return(0)
    case CH1 => Expect(s, 2, 'a', C(CHA2))
    case CHA2 => Final(s, 3, 'r', 1)
    case CO1 => Expect(s, 2, 'l', C(COL2))
    case COL2 => Expect(s, 3, 'l', C(COLL3))
    case COLL3 => Expect(s, 4, 'e', C(COLLE4))
    case COLLE4 => Expect(s, 5, 'c', C(COLLEC5))
    case COLLEC5 => Expect(s, 6, 't', C(COLLECT6))
    case COLLECT6 => Expect(s, 7, 'i', C(COLLECTI7))
    case COLLECTI7 => Expect(s, 8, 'o', C(COLLECTIO8))
    case COLLECTIO8 => Final(s, 9, 'n', 1)
  }

  // text / time / timestamp / try / to / "to do" / then
  function StepT(s: string, x: TState): (m: Move)
    ensures m.Goto? ==> Rank(m.next) > Rank(T(x))
    ensures m.Return? ==> 0 <= m.code <= 3
  {
    match x
    case T0 =>
      var c := At(s, 1);
      if c == 'e' then Goto(T(TE1))
      else if c == 'i' then Goto(T(TI1))
      else if c == 'r' then Goto(T(TR1))
      else if c == 'o' then Goto(T(TO1))
      else if c == 'h' then Goto(T(TH1))
      else Return(0)
    case TO1 =>
      if At(s, 2) == NUL then Return(3)
      else if At(s, 2) == ' ' then Goto(T(TODO_SPACE))
      else Return(0)
    case TODO_SPACE => Expect(s, 3, 'd', T(TODO_D))
    case TODO_D => Expect(s, 4, 'o', T(TODO_O))
    case TODO_O => if At(s, 5) == NUL then Return(1) else Return(0)
    case TE1 => Expect(s, 2, 'x', T(TEX2))
    case TEX2 => Final(s, 3, 't', 1)
    case TI1 => Expect(s, 2, 'm', T(TIM2))
    case TIM2 =>
      if At(s, 3) != 'e' then Return(0)
      else if At(s, 4) == NUL then Return(1)
      else if At(s, 4) == 's' then Goto(T(TIMESTAMP_S4))
      else Return(0)
    case TIMESTAMP_S4 =>
      if At(s, 4) == 's' && At(s, 5) == 't' && At(s, 6) == 'a' && At(s, 7) == 'm'
         && At(s, 8) == 'p' && At(s, 9) == NUL
      then Return(1)
      else Return(0)
    case TR1 => Final(s, 2, 'y', 1)
    case TH1 => Expect(s, 2, 'e', T(THE2))
    case THE2 => Final(s, 3, 'n', 3)
  }

  // bool
  function StepB(s: string, x: BState): (m: Move)
    ensures m.Goto? ==> Rank(m.next) > Rank(B(x))
    ensures m.Return? ==> 0 <= m.code <= 3
  {
    match x
    case B0 => Expect(s, 1, 'o', B(BO1))
    case BO1 => Expect(s, 2, 'o', B(BOO2))
    case BOO2 => Final(s, 3, 'l', 1)
  }

  // do / date
  function StepD(s: string, x: DState): (m: Move)
    ensures m.Goto? ==> Rank(m.next) > Rank(D(x))
    ensures m.Return? ==> 0 <= m.code <= 3
  {
    match x
    case D0 =>
      if At(s, 1) == 'o' then (if At(s, 2) == NUL then Return(1) else Return(0))
      else if At(s, 1) == 'a' then Goto(D(DA1))
      else Return(0)
    case DA1 => Expect(s, 2, 't', D(DAT2))
    case DAT2 => Final(s, 3, 'e', 1)
  }

  // array
  function StepA(s: string, x: AState): (m: Move)
    ensures m.Goto? ==> Rank(m.next) > Rank(A(x))
    ensures m.Return? ==> 0 <= m.code <= 3
  {
    match x
    case A0 => Expect(s, 1, 'r', A(AR1))
    case AR1 => Expect(s, 2, 'r', A(ARR2))
    case ARR2 => Expect(s, 3, 'a', A(ARRA3))
    case ARRA3 => Final(s, 4, 'y', 1)
  }

  // get / global: Q_GL1 tests index 2 for 'o' although Q_GE1 came there on 'l'
  function StepG(s: string, x: GState): (m: Move)
    ensures m.Goto? ==> Rank(m.next) > Rank(G(x))
    ensures m.Return? ==> 0 <= m.code <= 3
  {
    match x
    case G0 => Expect(s, 1, 'e', G(GE1))
    case GE1 =>
      if At(s, 2) == 't' then (if At(s, 3) == NUL then Return(1) else Return(0))
      else if At(s, 2) == 'l' then Goto(G(GL1))
      else Return(0)
    case GL1 => Expect(s, 2, 'o', G(GLO2))
    case GLO2 => Expect(s, 3, 'b', G(GLOB3))
    case GLOB3 => Expect(s, 4, 'a', G(GLOBA4))
    case GLOBA4 => Final(s, 5, 'l', 1)
  }

  // else / end / error
  function StepE(s: string, x: EState): (m: Move)
    ensures m.Goto? ==> Rank(m.next) > Rank(E(x))
    ensures m.Return? ==> 0 <= m.code <= 3
  {
    match x
    case E0 =>
      var c := At(s, 1);
      if c == 'l' then Goto(E(EL1))
      else if c == 'n' then Goto(E(EN1))
      else if c == 'r' then Goto(E(ER1))
      else Return(0)
    case EL1 => Expect(s, 2, 's', E(ELS2))
    case ELS2 => Final(s, 3, 'e', 1)
    case EN1 => Final(s, 2, 'd', 1)
    case ER1 => Expect(s, 2, 'r', E(ERR2))
    case ERR2 => Expect(s, 3, 'o', E(ERRO3))
    case ERRO3 => Final(s, 4, 'r', 2)
  }

  // next / null
  function StepN(s: string, x: NState): (m: Move)
    ensures m.Goto? ==> Rank(m.next) > Rank(N(x))
    ensures m.Return? ==> 0 <= m.code <= 3
  {
    match x
    case N0 => if At(s, 1) == 'e' then Goto(N(NE1)) else if At(s, 1) == 'u' then Goto(N(NU1)) else Return(0)
    case NE1 => Expect(s, 2, 'x', N(NEX2))
    case NEX2 => Final(s, 3, 't', 1)
    case NU1 => Expect(s, 2, 'l', N(NUL2))
    case NUL2 => Final(s, 3, 'l', 2)
  }

  // return
  function StepR(s: string, x: RState): (m: Move)
    ensures m.Goto? ==> Rank(m.next) > Rank(R(x))
    ensures m.Return? ==> 0 <= m.code <= 3
  {
    match x
    case R0 => Expect(s, 1, 'e', R(RE1))
    case RE1 => Expect(s, 2, 't', R(RET2))
    case RET2 => Expect(s, 3, 'u', R(RETU3))
    case RETU3 => Expect(s, 4, 'r', R(RETUR4))
    case RETUR4 => Final(s, 5, 'n', 1)
  }

  // handle
  function StepH(s: string, x: HState): (m: Move)
    ensures m.Goto? ==> Rank(m.next) > Rank(H(x))
    ensures m.Return? ==> 0 <= m.code <= 3
  {
    match x
    case H0 => Expect(s, 1, 'a', H(HA1))
    case HA1 => Expect(s, 2, 'n', H(HAN2))
    case HAN2 => Expect(s, 3, 'd', H(HAND3))
    case HAND3 => Expect(s, 4, 'l', H(HANDL4))
    case HANDL4 => Final(s, 5, 'e', 1)
  }

  // object
  function StepO(s: string, x: OState): (m: Move)
    ensures m.Goto? ==> Rank(m.next) > Rank(O(x))
    ensures m.Return? ==> 0 <= m.code <= 3
  {
    match x
    case O0 => Expect(s, 1, 'b', O(OB1))
    case OB1 => Expect(s, 2, 'j', O(OBJ2))
    case OBJ2 => Expect(s, 3, 'e', O(OBJE3))
    case OBJE3 => Expect(s, 4, 'c', O(OBJEC4))
    case OBJEC4 => Final(s, 5, 't', 2)
  }

  // main
  function StepM(s: string, x: MState): (m: Move)
    ensures m.Goto? ==> Rank(m.next) > Rank(M(x))
    ensures m.Return? ==> 0 <= m.code <= 3
  {
    match x
    case M0 => Expect(s, 1, 'a', M(MA1))
    case MA1 => Expect(s, 2, 'i', M(MAI2))
    case MAI2 => Final(s, 3, 'n', 2)
  }

  // please
  function StepP(s: string, x: PState): (m: Move)
    ensures m.Goto? ==> Rank(m.next) > Rank(P(x))
    ensures m.Return? ==> 0 <= m.code <= 3
  {
    match x
    case P0 => Expect(s, 1, 'l', P(PL1))
    case PL1 => Expect(s, 2, 'e', P(PLE2))
    case PLE2 => Expect(s, 3, 'a', P(PLEA3))
    case PLEA3 => Expect(s, 4, 's', P(PLEAS4))
    case PLEAS4 => Final(s, 5, 'e', 3)
  }

  /** A label of the form `c = s[i]; if (c == x) goto next; return 0;`. */
  function Expect(s: string, i: nat, x: char, next: State): (m: Move)
    ensures m.Goto? ==> m.next == next
    ensures m.Return? ==> m.code == 0
  {
    if At(s, i) == x then Goto(next) else Return(0)
  }

  /** A label of the form `c = s[i]; if (c == x) { if (s[i+1] == '\0') return k; } return 0;`. */
  function Final(s: string, i: nat, x: char, k: int): (m: Move)
    ensures m.Return?
  {
    if At(s, i) == x && At(s, i + 1) == NUL then Return(k) else Return(0)
  }

  /** Follows the `goto`s from label `q` until a `return`. */
  function Run(s: string, q: State): (k: int)
    ensures 0 <= k <= 3
    decreases 18 - Rank(q)
  {
    match Step(s, q)
    case Return(k) => k
    case Goto(q') => Run(s, q')
  }

  /** `tolower_copy(s, buf, bufsize)`: the lowered C string `s`, cut to `bufsize - 1` characters. */
  function LowerCopy(s: string, bufsize: nat): (r: string)
    requires bufsize >= 1
    ensures |r| <= bufsize - 1 && |r| <= |s| && NUL !in r
    ensures forall i :: 0 <= i < |r| ==> r[i] == ToLower(s[i])
    ensures |r| < bufsize - 1 ==> |r| == CLen(s)
  {
    Lower(Truncate(CStr(s), bufsize - 1))
  }

  /**
   * tolower_copy as the C code runs it: a loop that writes the lowered
   * characters of `s` into `buf` and terminates them with NUL.
   */
  method ToLowerCopy(s: string, buf: array<char>)
    requires buf.Length >= 1
    modifies buf
    ensures var r := LowerCopy(s, buf.Length);
      buf[..|r|] == r && buf[|r|] == NUL
      && buf[|r| + 1..] == old(buf[|r| + 1..])
  {
    var i := 0;
    while At(s, i) != NUL && i < buf.Length - 1
      invariant 0 <= i <= buf.Length - 1 && i <= CLen(s)
      invariant forall j :: 0 <= j < i ==> buf[j] == ToLower(s[j])
      invariant buf[i..] == old(buf[i..])
      decreases buf.Length - i
    {
      buf[i] := ToLower(s[i]);
      i := i + 1;
    }
    buf[i] := NUL;
  }

  /**
   * lookupKeyword: run the automaton on the lowered copy of the word held
   * in a 256-character buffer.
   */
  function LookupKeyword(w: string): (k: int)
    ensures 0 <= k <= 3
  {
    Run(LowerCopy(w, LookupBufSize), Start)
  }
}
