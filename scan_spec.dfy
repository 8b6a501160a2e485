/**
 * What one pass of the scan loop of simple_lex.c (lines 233-517) does, as
 * functions of the text still to be read.  The scanner methods are proved
 * to do exactly this; the properties of the lexer are proved about these
 * functions.
 */
module ScanSpec {
  import opened CStrings
  import opened Tokens
  import KeywordTable

  // Inner buffer capacities of the branches (characters before the terminator).
  const WhitespaceCap := 255
  const NumberCap := 255
  const LineCommentCap := 2047
  const BlockCommentCap := 8191
  /** An escape pair is kept only while fewer than 2046 characters are buffered. */
  const StringPairCap := 2046
  const StringCap := 2047
  const WordCap := MaxLex - 1
  /** Letters peeked after "to" and its blanks. */
  const PeekWordCap := 15

  /**
   * The scanning state between two tokens: the unread text (characters
   * handed back by ungetch first), cur_line, cur_col and the context of the
   * previous meaningful token.
   */
  datatype State = State(rest: string, line: int, col: int, ctx: Context)

  /** One token and the state after it. */
  datatype Scanned = Scanned(tok: Tok, after: State)

  /** The state main sets up before the loop (simple_lex.c:226-231). */
  function Initial(input: string): State {
    State(input, 1, 0, StartContext)
  }

  function Min(a: int, b: int): int { if a <= b then a else b }
  function Max(a: int, b: int): int { if a >= b then a else b }

  function Spaces(n: nat): (r: string)
    ensures |r| == n && forall i :: 0 <= i < n ==> r[i] == ' '
  {
    seq(n, i => ' ')
  }

  // ---------------------------------------------------------------------
  // The cursor: how reading text moves cur_line and cur_col.
  // ---------------------------------------------------------------------

  /** Number of newlines among the first `k` characters of `s`. */
  function Newlines(s: string, k: nat): (n: nat)
    requires k <= |s|
    ensures n <= k
  {
    if k == 0 then 0
    else Newlines(s, k - 1) + (if s[k - 1] == '\n' then 1 else 0)
  }

  /**
   * cur_col after reading the first `k` characters of `s` from column
   * `col`: a newline resets it to 0, any other character adds 1.
   */
  function Advance(col: int, s: string, k: nat): (r: int)
    requires k <= |s|
    ensures col >= 0 ==> r >= 0
  {
    if k == 0 then col
    else if s[k - 1] == '\n' then 0
    else Advance(col, s, k - 1) + 1
  }

  /** Reading one more character of `s`. */
  lemma ReadOneMore(s: string, k: nat, col: int)
    requires k < |s|
    ensures Newlines(s, k + 1) == Newlines(s, k) + (if s[k] == '\n' then 1 else 0)
    ensures Advance(col, s, k + 1) == if s[k] == '\n' then 0 else Advance(col, s, k) + 1
  {
  }

  /** Reading the first character of `s`. */
  lemma ReadFirst(s: string, col: int)
    requires s != []
    ensures Newlines(s, 1) == if s[0] == '\n' then 1 else 0
    ensures Advance(col, s, 1) == if s[0] == '\n' then 0 else col + 1
  {
    ReadOneMore(s, 0, col);
  }

  /** Characters without a newline move the column by their number and the line not at all. */
  lemma {:induction false} NoNewlines(col: int, s: string, k: nat)
    requires k <= |s| && forall i :: 0 <= i < k ==> s[i] != '\n'
    ensures Newlines(s, k) == 0 && Advance(col, s, k) == col + k
  {
    if k > 0 {
      NoNewlines(col, s, k - 1);
    }
  }

  /** A capped buffer after one more character of `s`: `if (bi < cap) buf[bi++] = s[k]`. */
  lemma BufferOneMore(s: string, k: nat, cap: nat)
    requires k < |s|
    ensures Truncate(s[..k + 1], cap)
      == if |Truncate(s[..k], cap)| < cap then Truncate(s[..k], cap) + [s[k]] else Truncate(s[..k], cap)
  {
    assert s[..k + 1] == s[..k] + [s[k]];
    if k >= cap {
      assert s[..k + 1][..cap] == s[..k][..cap];
    }
  }

  // ---------------------------------------------------------------------
  // The runs the inner loops read.
  // ---------------------------------------------------------------------

  predicate IsWordChar(c: char) { IsAlnum(c) || c == '_' }

  /** The classes of characters the inner loops read runs of. */
  datatype CharClass = Blanks | Letters | WordChars | LineChars

  predicate In(p: CharClass, c: char) {
    match p
    case Blanks => IsBlank(c)
    case Letters => IsAlpha(c)
    case WordChars => IsWordChar(c)
    case LineChars => c != '\n'
  }

  /** The length of the longest prefix of `s` whose characters all satisfy `p`. */
  function Span(p: CharClass, s: string): (n: nat)
    ensures n <= |s|
    ensures n < |s| ==> !In(p, s[n])
  {
    if s != [] && In(p, s[0]) then 1 + Span(p, s[1..]) else 0
  }

  /** Every character inside the span satisfies `p`. */
  lemma {:induction false} SpanAll(p: CharClass, s: string, i: nat)
    requires i < Span(p, s)
    ensures In(p, s[i])
  {
    if i > 0 {
      SpanAll(p, s[1..], i - 1);
      assert s[1..][i - 1] == s[i];
    }
  }

  /** A loop that reads a span from index `j` of `s` and has reached `k` may read `s[k]`. */
  lemma SpanMore(p: CharClass, s: string, j: nat, k: nat)
    requires j <= k < |s| && Span(p, s[j..]) >= k - j && In(p, s[k])
    ensures Span(p, s[j..]) >= k - j + 1
  {
    assert s[j..][k - j] == s[k];
  }

  /** ... and when `s[k]` ends the span or the text ends, it has read all of it. */
  lemma SpanStop(p: CharClass, s: string, j: nat, k: nat)
    requires j <= k <= |s| && Span(p, s[j..]) >= k - j && (k == |s| || !In(p, s[k]))
    ensures Span(p, s[j..]) == k - j
  {
    if k < |s| {
      assert s[j..][k - j] == s[k];
      if Span(p, s[j..]) > k - j {
        SpanAll(p, s[j..], k - j);
      }
    }
  }

  /** Characters the number loop takes: digits, and one '.' while `dot` is not yet set. */
  function NumRun(s: string, dot: bool): (n: nat)
    ensures n <= |s|
  {
    if s != [] && (IsDigit(s[0]) || (s[0] == '.' && !dot)) then 1 + NumRun(s[1..], dot || s[0] == '.')
    else 0
  }

  /** How far a block comment body runs and whether its closing star and slash were found. */
  datatype BlockEnd = BlockEnd(len: nat, closed: bool)

  /**
   * The block comment loop over `s`, the text after the opening slash and star:
   * `prev` is the character read before (0 at the start), and the comment
   * closes on a '/' read right after a '*' read by this loop.
   */
  function BlockScan(s: string, prev: char): (e: BlockEnd)
    ensures e.len <= |s|
    ensures !e.closed ==> e.len == |s|
  {
    if s == [] then BlockEnd(0, false)
    else if prev == '*' && s[0] == '/' then BlockEnd(1, true)
    else var e := BlockScan(s[1..], s[0]); BlockEnd(e.len + 1, e.closed)
  }

  /** What the string literal loop collected, whether the closing quote was read, and how much it read. */
  datatype StrLit = StrLit(buf: string, closed: bool, len: nat)

  /**
   * The string literal loop over `s`, the text after the opening quote,
   * with `buf` already collected: a backslash keeps itself and the next
   * character, a quote ends the literal, end of input leaves it open.
   */
  function StrScan(s: string, buf: string): (r: StrLit)
    ensures r.len <= |s|
    ensures !r.closed ==> r.len == |s|
    ensures buf <= r.buf
    decreases |s|
  {
    if s == [] then StrLit(buf, false, 0)
    else if s[0] == '\\' then
      if |s| == 1 then StrLit(buf, false, 1)
      else
        var r := StrScan(s[2..], if |buf| < StringPairCap then buf + ['\\', s[1]] else buf);
        StrLit(r.buf, r.closed, r.len + 2)
    else if s[0] == '"' then StrLit(buf, true, 1)
    else
      var r := StrScan(s[1..], if |buf| < StringCap then buf + [s[0]] else buf);
      StrLit(r.buf, r.closed, r.len + 1)
  }

  // ---------------------------------------------------------------------
  // One pass of the loop.
  // ---------------------------------------------------------------------

  /** A token that starts at the character just read. */
  function TokAt(st: State, lex: string, kind: SymType): Tok {
    Tok(lex, kind, st.line, st.col + 1)
  }

  /** The token `tok` was read from the first `n` characters. */
  function Emit(st: State, n: nat, tok: Tok): (r: Scanned)
    requires n <= |st.rest|
    ensures r.tok == tok && r.after.rest == st.rest[n..] && |r.after.rest| == |st.rest| - n
    ensures r.after.ctx == UpdateContext(st.ctx, tok)
  {
    Scanned(tok, State(st.rest[n..], st.line + Newlines(st.rest, n), Advance(st.col, st.rest, n), UpdateContext(st.ctx, tok)))
  }

  /** Lines 236-239: a newline token, reported on the line it ends, at column 1. */
  function NextNewline(st: State): (r: Scanned)
    requires st.rest != [] && st.rest[0] == '\n'
    ensures |r.after.rest| < |st.rest|
  {
    Emit(st, 1, Tok("\\n", Newline, st.line, 1))
  }

  /** Lines 242-260: a run of blanks, reported at its first column minus its kept length less one. */
  function NextWhitespace(st: State): (r: Scanned)
    requires st.rest != [] && IsBlank(st.rest[0])
    ensures |r.after.rest| < |st.rest|
  {
    var n := 1 + Span(Blanks, st.rest[1..]);
    var lex := Truncate(st.rest[..n], WhitespaceCap);
    Emit(st, n, Tok(lex, Whitespace, st.line, Max(1, st.col + 1 - (|lex| - 1))))
  }

  /** The whitespace token in terms of what the blank loop read: a run without newlines. */
  lemma WhitespaceStep(st: State, k: nat, buf: string, line: int, start: int)
    requires st.rest != [] && IsBlank(st.rest[0]) && k == 1 + Span(Blanks, st.rest[1..])
    requires buf == Truncate(st.rest[..k], WhitespaceCap) && line == st.line + Newlines(st.rest, k)
    requires start == Max(1, st.col + 1 - (|buf| - 1))
    ensures line == st.line && NextWhitespace(st) == Emit(st, k, Tok(buf, Whitespace, line, start))
  {
    forall i | 0 <= i < k
      ensures st.rest[i] != '\n'
    {
      if i > 0 {
        SpanAll(Blanks, st.rest[1..], i - 1);
      }
    }
    NoNewlines(st.col, st.rest, k);
  }

  /** Lines 268-310: a line comment, a block comment, "/=" or a single '/'. */
  function NextSlash(st: State): (r: Scanned)
    requires st.rest != [] && st.rest[0] == '/'
    ensures |r.after.rest| < |st.rest|
  {
    var s := st.rest;
    if |s| > 1 && s[1] == '/' then
      var m := Span(LineChars, s[2..]);
      Emit(st, if 2 + m < |s| then 3 + m else 2 + m, TokAt(st, Truncate(s[..2 + m], LineCommentCap), Comment))
    else if |s| > 1 && s[1] == '*' then
      var e := BlockScan(s[2..], NUL);
      Emit(st, 2 + e.len,
        TokAt(st, Truncate(s[..2 + e.len], BlockCommentCap), if e.closed then Comment else LexicalError))
    else if |s| > 1 && s[1] == '=' then
      Emit(st, 2, TokAt(st, "/=", AssignOp))
    else
      Emit(st, 1, TokAt(st, "/", ArithOp))
  }

  /** Lines 313-334: a string literal, or an error when the input ends first. */
  function NextString(st: State): (r: Scanned)
    requires st.rest != [] && st.rest[0] == '"'
    ensures |r.after.rest| < |st.rest|
  {
    var l := StrScan(st.rest[1..], []);
    Emit(st, 1 + l.len, TokAt(st, l.buf, if l.closed then StringLit else LexicalError))
  }

  /** The string literal token in terms of what the literal loop collected. */
  lemma StringStep(st: State, n: nat, buf: string, closed: bool)
    requires st.rest != [] && st.rest[0] == '"'
    requires var l := StrScan(st.rest[1..], []); n == 1 + l.len && buf == l.buf && closed == l.closed
    ensures n <= |st.rest| && NextString(st) == Emit(st, n, TokAt(st, buf, if closed then StringLit else LexicalError))
  {
  }

  /** Lines 336-352: a digit run with at most one '.'. */
  function NextNumber(st: State): (r: Scanned)
    requires st.rest != [] && IsDigit(st.rest[0])
    ensures |r.after.rest| < |st.rest|
  {
    var n := 1 + NumRun(st.rest[1..], false);
    Emit(st, n, TokAt(st, Truncate(st.rest[..n], NumberCap), Number))
  }

  /** The kind of a word that is not a datatype name, from its class in the vocabulary (lines 409-416). */
  function VocabKind(k: int): SymType {
    if k == KeywordTable.Keyword then Keyword
    else if k == KeywordTable.ReservedWord then Reserved
    else if k == KeywordTable.NoiseWord then Noise
    else Identifier
  }

  /**
   * Lines 404-416: the kind of a word, decided on its lowered form: a
   * datatype name first, then the class lookupKeyword gives the lowered
   * form, which is its class in the vocabulary table (KeywordTable.LookupWord).
   */
  function Classify(w: string): SymType {
    var low := Lower(w);
    if low in DatatypeNames then Datatype else VocabKind(KeywordTable.VocabClass(low))
  }

  /**
   * The word "to" followed by a blank (lines 369-401): the blanks and up to
   * 15 letters are read ahead; if the letters are exactly "do" the three
   * parts are one keyword "to do", otherwise they are handed back, the
   * blanks as spaces, and "to" is classified on its own.  When the
   * look-ahead stopped on a newline, ungetch has set cur_col to 0 and the
   * hand-back cannot move it below 0.
   */
  function NextToDo(st: State): (r: Scanned)
    requires |st.rest| > 2 && st.rest[..2] == "to" && IsBlank(st.rest[2])
    ensures |r.after.rest| < |st.rest|
  {
    var s := st.rest;
    var b := Span(Blanks, s[2..]);
    var r3 := s[2 + b..];
    var k := Min(Span(Letters, r3), PeekWordCap);
    if r3[..k] == "do" then
      Emit(st, 2 + b + 2, TokAt(st, "to do", Keyword))
    else
      var tok := TokAt(st, s[..2], Classify(s[..2]));
      var stopped := k < PeekWordCap && k < |r3| && r3[k] == '\n';
      Scanned(tok, State(Spaces(b) + r3, st.line, if stopped then 0 else st.col + 2, UpdateContext(st.ctx, tok)))
  }

  /** Reading "to", its blanks and at most the letters after them crosses no newline. */
  lemma ToDoStep(s: string, col: int, b: nat, k: nat)
    requires |s| > 2 && s[0] != '\n' && s[1] != '\n' && b == Span(Blanks, s[2..]) && k <= Span(Letters, s[2 + b..])
    ensures 2 + b + k <= |s| && Newlines(s, 2 + b + k) == 0 && Advance(col, s, 2 + b + k) == col + 2 + b + k
  {
    forall i | 0 <= i < 2 + b + k
      ensures s[i] != '\n'
    {
      if i < 2 {
      } else if i < 2 + b {
        SpanAll(Blanks, s[2..], i - 2);
        assert s[i] == s[2..][i - 2];
      } else {
        SpanAll(Letters, s[2 + b..], i - 2 - b);
        assert s[i] == s[2 + b..][i - 2 - b];
      }
    }
    NoNewlines(col, s, 2 + b + k);
  }

  /** A run of letters read ahead holds no newline. */
  lemma LettersAhead(s: string, j: nat, next: string)
    requires j + |next| <= |s| && next == s[j..j + |next|] && |next| <= Span(Letters, s[j..])
    ensures forall i :: 0 <= i < |next| ==> IsAlpha(next[i]) && next[i] != '\n'
  {
    forall i | 0 <= i < |next|
      ensures IsAlpha(next[i])
    {
      SpanAll(Letters, s[j..], i);
      assert next[i] == s[j..][i];
    }
  }

  /** What the lines 400-401 hand back after "to": no newline, and the letters are the last ones read. */
  lemma ToDoAhead(s: string, col: int, count: nat, next: string)
    requires |s| > 2 && s[0] != '\n' && s[1] != '\n'
    requires count == Span(Blanks, s[2..]) && |next| == Min(Span(Letters, s[2 + count..]), PeekWordCap)
    requires 2 + count + |next| <= |s| && next == s[2 + count..2 + count + |next|]
    ensures var k := 2 + count + |next|;
      && next == s[k - |next|..k] && Newlines(s, k) == 0 && Advance(col, s, k) == col + k
      && forall i :: 0 <= i < |next| ==> next[i] != '\n'
  {
    ToDoStep(s, col, count, |next|);
    LettersAhead(s, 2 + count, next);
  }

  /** Lines 355-419: an identifier, keyword, datatype, reserved or noise word. */
  function NextWord(st: State): (r: Scanned)
    requires st.rest != [] && (IsAlpha(st.rest[0]) || st.rest[0] == '_')
    ensures |r.after.rest| < |st.rest|
  {
    var s := st.rest;
    var n := 1 + Span(WordChars, s[1..]);
    var w := Truncate(s[..n], WordCap);
    if w == "to" && n < |s| && IsBlank(s[n]) then NextToDo(st)
    else Emit(st, n, TokAt(st, w, Classify(w)))
  }

  /** A word that does not start the "to do" rule is one token of its own kind. */
  lemma WordStep(st: State, n: nat, buf: string)
    requires st.rest != [] && (IsAlpha(st.rest[0]) || st.rest[0] == '_')
    requires n == 1 + Span(WordChars, st.rest[1..]) && buf == Truncate(st.rest[..n], WordCap)
    requires !(buf == "to" && n < |st.rest| && IsBlank(st.rest[n]))
    ensures NextWord(st) == Emit(st, n, TokAt(st, buf, Classify(buf)))
  {
    var s := st.rest;
    var w := Truncate(s[..1 + Span(WordChars, s[1..])], WordCap);
    assert w == buf;
  }

  /** "to", a word of its own, reaches the "to do" rule when a blank follows it. */
  lemma WordToDo(st: State, n: nat, buf: string)
    requires st.rest != [] && (IsAlpha(st.rest[0]) || st.rest[0] == '_')
    requires n == 1 + Span(WordChars, st.rest[1..]) && buf == Truncate(st.rest[..n], WordCap)
    requires buf == "to" && n < |st.rest| && IsBlank(st.rest[n])
    ensures n == 2 && |st.rest| > 2 && st.rest[..2] == "to" && IsBlank(st.rest[2])
    ensures NextWord(st) == NextToDo(st)
  {
    assert |buf| == n;
  }

  /** "to", blanks and exactly the letters "do" are the keyword "to do". */
  lemma ToDoMerged(st: State, b: nat, next: string)
    requires |st.rest| > 2 && st.rest[..2] == "to" && IsBlank(st.rest[2])
    requires b == Span(Blanks, st.rest[2..]) && |next| == Min(Span(Letters, st.rest[2 + b..]), PeekWordCap)
    requires 2 + b + |next| <= |st.rest| && next == st.rest[2 + b..2 + b + |next|] && next == "do"
    ensures NextToDo(st) == Emit(st, 2 + b + 2, TokAt(st, "to do", Keyword))
  {
    assert st.rest[2 + b..][..|next|] == next;
  }

  /**
   * "to", blanks and letters other than "do": "to" on its own, the blanks
   * handed back as spaces, and the column stopped at 0 by a newline.
   */
  lemma ToDoBack(st: State, b: nat, next: string)
    requires |st.rest| > 2 && st.rest[..2] == "to" && IsBlank(st.rest[2])
    requires b == Span(Blanks, st.rest[2..]) && |next| == Min(Span(Letters, st.rest[2 + b..]), PeekWordCap)
    requires 2 + b + |next| <= |st.rest| && next == st.rest[2 + b..2 + b + |next|] && next != "do"
    ensures var tok := TokAt(st, st.rest[..2], Classify(st.rest[..2]));
      var stopped := |next| < PeekWordCap && 2 + b + |next| < |st.rest| && st.rest[2 + b + |next|] == '\n';
      NextToDo(st) == Scanned(tok, State(Spaces(b) + st.rest[2 + b..], st.line, if stopped then 0 else st.col + 2, UpdateContext(st.ctx, tok)))
  {
    assert st.rest[2 + b..][..|next|] == next;
  }

  /** The two-character operators `c` then `d`, by the group lines 420-516 test them in. */
  predicate IsUnaryPair(c: char, d: char) { (c == '+' && d == '+') || (c == '-' && d == '-') }
  predicate IsRelPair(c: char, d: char) { d == '=' && (c == '<' || c == '>' || c == '=' || c == '!') }
  predicate IsAssignPair(c: char, d: char) {
    d == '=' && (c == '+' || c == '-' || c == '*' || c == '/' || c == '%' || c == '~')
  }
  predicate IsLogicalPair(c: char, d: char) { (c == '&' && d == '&') || (c == '|' && d == '|') }

  /**
   * Lines 421-516: operators, delimiters, and any other character as an
   * error.  A pair is taken with two more getch calls, which read the
   * character after it as well.
   */
  function NextOperator(st: State): (r: Scanned)
    requires st.rest != []
    ensures |r.after.rest| < |st.rest|
  {
    var s := st.rest;
    var c := s[0];
    var pair := |s| > 1;
    var n := Min(3, |s|);
    if pair && IsUnaryPair(c, s[1]) then Emit(st, n, TokAt(st, s[..2], UnaryOp))
    else if c == '^' then Emit(st, 1, TokAt(st, "^", ExpOp))
    else if pair && IsRelPair(c, s[1]) then Emit(st, n, TokAt(st, s[..2], RelOp))
    else if pair && IsAssignPair(c, s[1]) then Emit(st, n, TokAt(st, s[..2], AssignOp))
    else if c == '=' then Emit(st, 1, TokAt(st, "=", AssignOp))
    else if c == '<' || c == '>' then Emit(st, 1, TokAt(st, [c], RelOp))
    else if pair && IsLogicalPair(c, s[1]) then Emit(st, n, TokAt(st, s[..2], LogicalOp))
    else if c == '!' then Emit(st, 1, TokAt(st, "!", LogicalOp))
    else if c == '*' || c == '%' || c == '~' then Emit(st, 1, TokAt(st, [c], ArithOp))
    else if c == '+' || c == '-' then
      Emit(st, 1, TokAt(st, [c], if PrevAllowsUnary(st.ctx) then UnaryOp else ArithOp))
    else Emit(st, 1, TokAt(st, [c], DelimiterKind(c)))
  }

  /** The kind of the two-character operator `c` then `d`, if it is one. */
  function PairKind(c: char, d: char): Option<SymType> {
    if IsUnaryPair(c, d) then Some(UnaryOp)
    else if IsRelPair(c, d) then Some(RelOp)
    else if IsAssignPair(c, d) then Some(AssignOp)
    else if IsLogicalPair(c, d) then Some(LogicalOp)
    else None
  }

  /** The kind of a one-character token of lines 420-516, after `ctx`. */
  function SingleKind(c: char, ctx: Context): SymType {
    if c == '^' then ExpOp
    else if c == '=' then AssignOp
    else if c == '<' || c == '>' then RelOp
    else if c == '!' then LogicalOp
    else if c == '*' || c == '%' || c == '~' then ArithOp
    else if c == '+' || c == '-' then (if PrevAllowsUnary(ctx) then UnaryOp else ArithOp)
    else DelimiterKind(c)
  }

  /*
   * The chain of lines 420-516 tests the two-character operators and the
   * single characters in an interleaved order; no pair starts with a
   * character the chain takes alone before it, so the pairs may be tested
   * first, as the next two lemmas say.
   */

  /** A pair at the front of the text is taken whole. */
  lemma OperatorPair(st: State)
    requires |st.rest| > 1 && PairKind(st.rest[0], st.rest[1]).Some?
    ensures NextOperator(st)
      == Emit(st, Min(3, |st.rest|), TokAt(st, st.rest[..2], PairKind(st.rest[0], st.rest[1]).value))
  {
  }

  /** Otherwise the first character is taken alone. */
  lemma OperatorSingle(st: State)
    requires st.rest != [] && (|st.rest| > 1 ==> PairKind(st.rest[0], st.rest[1]).None?)
    ensures NextOperator(st) == Emit(st, 1, TokAt(st, [st.rest[0]], SingleKind(st.rest[0], st.ctx)))
  {
  }

  /** Lines 503-516: the six delimiters; anything else is a lexical error. */
  function DelimiterKind(c: char): SymType {
    if c == '(' then LParen
    else if c == ')' then RParen
    else if c == '[' then LBracket
    else if c == ']' then RBracket
    else if c == ':' then Colon
    else if c == ',' then Comma
    else LexicalError
  }

  /** One pass of the loop on the character at the front of the text. */
  function Next(st: State): (r: Scanned)
    requires st.rest != []
    ensures |r.after.rest| < |st.rest|
  {
    var c := st.rest[0];
    if c == '\n' then NextNewline(st)
    else if IsBlank(c) then NextWhitespace(st)
    else if c == '/' then NextSlash(st)
    else if c == '"' then NextString(st)
    else if IsDigit(c) then NextNumber(st)
    else if IsAlpha(c) || c == '_' then NextWord(st)
    else NextOperator(st)
  }

  /** The tokens of the whole remaining text. */
  function Lex(st: State): seq<Tok>
    decreases |st.rest|, 2
  {
    if st.rest == [] then [] else LexPass(st)
  }

  /** The tokens of a remaining text that is not empty: one pass, then the rest. */
  function LexPass(st: State): seq<Tok>
    requires st.rest != []
    decreases |st.rest|, 1
  {
    LexFrom(st, Next(st))
  }

  /** The tokens of the remaining text `st`, whose first pass gave `r`. */
  function LexFrom(st: State, r: Scanned): seq<Tok>
    requires |r.after.rest| < |st.rest|
    decreases |st.rest|, 0
  {
    [r.tok] + Lex(r.after)
  }

  /** One pass of the loop, then the passes over what it leaves. */
  lemma LexStep(st: State)
    requires st.rest != []
    ensures Lex(st) == [Next(st).tok] + Lex(Next(st).after)
  {
    var r := Next(st);
    assert Lex(st) == LexPass(st);
    assert LexPass(st) == LexFrom(st, r);
  }

  // ---------------------------------------------------------------------
  // The tables the loop fills.
  // ---------------------------------------------------------------------

  function Take<T>(xs: seq<T>, n: nat): (r: seq<T>)
    ensures |r| <= n && r <= xs
    ensures |xs| <= n ==> r == xs
  {
    if |xs| <= n then xs else xs[..n]
  }

  function SymbolsOf(toks: seq<Tok>): (r: seq<Symbol>)
    ensures |r| == |toks|
    ensures forall i :: 0 <= i < |toks| ==> r[i] == ToSymbol(toks[i])
  {
    seq(|toks|, i requires 0 <= i < |toks| => ToSymbol(toks[i]))
  }

  /** The error records of the error tokens, in order. */
  function ErrorsOf(toks: seq<Tok>): (r: seq<LexError>)
    ensures |r| <= |toks|
  {
    if toks == [] then []
    else
      var t := toks[|toks| - 1];
      ErrorsOf(toks[..|toks| - 1]) + if t.kind == LexicalError then [ToError(t)] else []
  }

  /** The symbol table after the whole input is read. */
  function SymbolTable(input: string): seq<Symbol> {
    Take(SymbolsOf(Lex(Initial(input))), MaxSymbols)
  }

  /** The error list after the whole input is read. */
  function ErrorList(input: string): seq<LexError> {
    Take(ErrorsOf(Lex(Initial(input))), MaxErrors)
  }

  /** The column does not matter in front of a newline: the newline token resets it. */
  lemma NextAtNewline(rest: string, line: int, col1: int, col2: int, ctx: Context)
    requires rest != [] && rest[0] == '\n'
    ensures Next(State(rest, line, col1, ctx)) == Next(State(rest, line, col2, ctx))
  {
    var s1, s2 := State(rest, line, col1, ctx), State(rest, line, col2, ctx);
    assert Next(s1) == NextNewline(s1);
    assert Next(s2) == NextNewline(s2);
  }

  /** The symbol table after one more token. */
  lemma TakeSymbolsSnoc(toks: seq<Tok>, t: Tok)
    ensures Take(SymbolsOf(toks + [t]), MaxSymbols) == AddCapped(Take(SymbolsOf(toks), MaxSymbols), ToSymbol(t), MaxSymbols)
  {
    assert SymbolsOf(toks + [t]) == SymbolsOf(toks) + [ToSymbol(t)];
    var xs := SymbolsOf(toks);
    if |xs| > MaxSymbols {
      assert (xs + [ToSymbol(t)])[..MaxSymbols] == xs[..MaxSymbols];
    }
  }

  /** The error list after one more token. */
  lemma TakeErrorsSnoc(toks: seq<Tok>, t: Tok)
    ensures Take(ErrorsOf(toks + [t]), MaxErrors)
      == if t.kind == LexicalError then AddCapped(Take(ErrorsOf(toks), MaxErrors), ToError(t), MaxErrors)
         else Take(ErrorsOf(toks), MaxErrors)
  {
    assert (toks + [t])[..|toks|] == toks;
    var xs := ErrorsOf(toks);
    if t.kind == LexicalError && |xs| > MaxErrors {
      assert (xs + [ToError(t)])[..MaxErrors] == xs[..MaxErrors];
    }
  }

  /** The two tables main fills: the symbol table and the error list. */
  datatype Tables = Tables(symbols: seq<Symbol>, errors: seq<LexError>)

  /** The tables after add_symbol has recorded one more token. */
  function Record(tb: Tables, t: Tok): Tables {
    Tables(AddCapped(tb.symbols, ToSymbol(t), MaxSymbols),
           if t.kind == LexicalError then AddCapped(tb.errors, ToError(t), MaxErrors) else tb.errors)
  }

  /** The tables the tokens `toks` leave, from empty tables. */
  function TablesOf(toks: seq<Tok>): Tables {
    Tables(Take(SymbolsOf(toks), MaxSymbols), Take(ErrorsOf(toks), MaxErrors))
  }

  /** The tables `tb` after recording the tokens `toks`, one after the other. */
  function RecordAll(tb: Tables, toks: seq<Tok>): Tables
    decreases |toks|
  {
    if toks == [] then tb else RecordAll(Record(tb, toks[0]), toks[1..])
  }

  /** Recording one more token is what the tables of the longer list say. */
  lemma TablesOfSnoc(toks: seq<Tok>, t: Tok)
    ensures TablesOf(toks + [t]) == Record(TablesOf(toks), t)
  {
    TakeSymbolsSnoc(toks, t);
    TakeErrorsSnoc(toks, t);
  }

  /**
   * Recording `more` after the tables of `toks` gives the tables of `toks`
   * followed by `more`.
   */
  lemma {:induction false} RecordAllTables(toks: seq<Tok>, more: seq<Tok>)
    ensures RecordAll(TablesOf(toks), more) == TablesOf(toks + more)
    decreases |more|
  {
    if more == [] {
      assert toks + more == toks;
    } else {
      var longer := toks + [more[0]];
      calc {
        RecordAll(TablesOf(toks), more);
        RecordAll(Record(TablesOf(toks), more[0]), more[1..]);
        { TablesOfSnoc(toks, more[0]); }
        RecordAll(TablesOf(longer), more[1..]);
        { RecordAllTables(longer, more[1..]); }
        TablesOf(longer + more[1..]);
        { assert longer + more[1..] == toks + more; }
        TablesOf(toks + more);
      }
    }
  }

  /** Recording the tokens of a whole input from empty tables gives its symbol table and error list. */
  lemma RecordInput(input: string)
    ensures RecordAll(Tables([], []), Lex(Initial(input))) == Tables(SymbolTable(input), ErrorList(input))
  {
    assert TablesOf([]) == Tables([], []);
    RecordAllTables([], Lex(Initial(input)));
    assert [] + Lex(Initial(input)) == Lex(Initial(input));
  }
}
