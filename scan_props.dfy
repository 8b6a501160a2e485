/**
 * What one pass of the scanning loop of simple_lex.c (lines 233-517) does
 * with each kind of input, stated over all inputs, and how the tables it
 * fills relate to the tokens.
 */
module ScanProps {
  import opened CStrings
  import opened Tokens
  import opened ScanSpec
  import KeywordTable
  import Lookup

  // ---------------------------------------------------------------------
  // Runs of characters.
  // ---------------------------------------------------------------------

  /** A run of class `p` followed by nothing or by a character outside `p` spans exactly the run. */
  lemma {:induction false} SpanOfRun(p: CharClass, w: string, tail: string)
    requires forall i :: 0 <= i < |w| ==> In(p, w[i])
    requires tail == [] || !In(p, tail[0])
    ensures Span(p, w + tail) == |w|
  {
    if w == [] {
      assert w + tail == tail;
    } else {
      assert (w + tail)[1..] == w[1..] + tail;
      SpanOfRun(p, w[1..], tail);
    }
  }

  // ---------------------------------------------------------------------
  // Layout: newlines, blanks and comments.
  // ---------------------------------------------------------------------

  /**
   * A newline is the token "\n" at column 1 of the line it ends; the text
   * goes on at column 0 of the next line and the context is unchanged.
   */
  lemma NewlineToken(st: State)
    requires st.rest != [] && st.rest[0] == '\n'
    ensures Next(st).tok == Tok("\\n", Newline, st.line, 1)
    ensures Next(st).after == State(st.rest[1..], st.line + 1, 0, st.ctx)
  {
    ReadFirst(st.rest, st.col);
  }

  /**
   * A run of blanks `w` is one whitespace token holding at most 255 of
   * them, placed at the column where the run started less the kept length
   * plus one, never below column 1; the text goes on after the whole run.
   */
  lemma WhitespaceToken(st: State, w: string, tail: string)
    requires st.rest == w + tail && w != [] && forall i :: 0 <= i < |w| ==> IsBlank(w[i])
    requires tail == [] || !IsBlank(tail[0])
    ensures var lex := Truncate(w, WhitespaceCap);
      Next(st).tok == Tok(lex, Whitespace, st.line, Max(1, st.col + 2 - |lex|))
    ensures Next(st).after == State(tail, st.line, st.col + |w|, st.ctx)
  {
    assert st.rest[1..] == w[1..] + tail;
    SpanOfRun(Blanks, w[1..], tail);
    assert st.rest[..|w|] == w;
    NoNewlines(st.col, st.rest, |w|);
  }

  /** What the line comment loop reads of `"//" + body + tail`. */
  lemma LineCommentRun(s: string, body: string, tail: string, col: int)
    requires s == "//" + body + tail && forall i :: 0 <= i < |body| ==> body[i] != '\n'
    requires tail == [] || tail[0] == '\n'
    ensures Span(LineChars, s[2..]) == |body| && s[..2 + |body|] == "//" + body
    ensures tail != [] ==> var k := 3 + |body|;
      k <= |s| && Newlines(s, k) == 1 && Advance(col, s, k) == 0 && s[k..] == tail[1..]
  {
    assert s[2..] == body + tail;
    SpanOfRun(LineChars, body, tail);
    assert s[..2 + |body|] == "//" + body;
    if tail != [] {
      var k := 2 + |body|;
      assert forall i :: 2 <= i < k ==> s[i] == body[i - 2];
      NoNewlines(col, s, k);
      assert s[k] == '\n';
      ReadOneMore(s, k, col);
    }
  }

  /**
   * A line comment runs to the end of its line; it swallows the newline,
   * which yields no newline token, and the text goes on at column 0 of
   * the next line.
   */
  lemma LineCommentToken(st: State, body: string, tail: string)
    requires st.rest == "//" + body + tail && forall i :: 0 <= i < |body| ==> body[i] != '\n'
    requires tail == [] || tail[0] == '\n'
    ensures Next(st).tok == TokAt(st, Truncate("//" + body, LineCommentCap), Comment)
    ensures Next(st).after.ctx == st.ctx
    ensures tail == [] ==> Next(st).after.rest == []
    ensures tail != [] ==> Next(st).after == State(tail[1..], st.line + 1, 0, st.ctx)
  {
    assert Next(st) == NextSlash(st);
    LineCommentRun(st.rest, body, tail, st.col);
  }

  // ---------------------------------------------------------------------
  // Block comments.
  // ---------------------------------------------------------------------

  /** Whether the closing star and slash of a block comment occur in `s`, read after `prev`. */
  predicate HasClose(s: string, prev: char) {
    (prev == '*' && s != [] && s[0] == '/')
    || exists i :: 0 <= i < |s| - 1 && s[i] == '*' && s[i + 1] == '/'
  }

  /**
   * The block comment loop closes exactly when the text holds a star
   * followed by a slash, and then it stops right after the first such
   * slash.
   */
  lemma {:induction false} BlockScanCloses(s: string, prev: char)
    ensures BlockScan(s, prev).closed <==> HasClose(s, prev)
    ensures var e := BlockScan(s, prev);
      e.closed ==> e.len >= 1 && s[e.len - 1] == '/' && (if e.len >= 2 then s[e.len - 2] == '*' else prev == '*')
    ensures var e := BlockScan(s, prev); e.closed ==> !HasClose(s[..e.len - 1], prev)
  {
    if s == [] {
    } else if prev == '*' && s[0] == '/' {
      assert s[..0] == [];
    } else {
      BlockScanCloses(s[1..], s[0]);
      var e := BlockScan(s[1..], s[0]);
      if e.closed {
        var u := s[1..][..e.len - 1];
        var t := s[..e.len];
        assert t == [s[0]] + u;
      }
      if HasClose(s, prev) {
        var i :| 0 <= i < |s| - 1 && s[i] == '*' && s[i + 1] == '/';
        if i == 0 {
          assert s[1..][0] == '/';
        } else {
          assert s[1..][i - 1] == '*' && s[1..][i] == '/';
        }
      }
      if HasClose(s[1..], s[0]) {
        if s[0] == '*' && s[1] == '/' {
        } else {
          var i :| 0 <= i < |s[1..]| - 1 && s[1..][i] == '*' && s[1..][i + 1] == '/';
          assert s[i + 1] == '*' && s[i + 2] == '/';
        }
      }
    }
  }

  /** What the block comment loop reads of `s`, which starts with the opening slash and star. */
  lemma BlockCommentRun(s: string)
    requires |s| >= 2 && s[0] == '/' && s[1] == '*'
    ensures var e := BlockScan(s[2..], NUL); var n := 2 + e.len;
      && (e.closed <==> HasClose(s[2..], NUL))
      && Truncate(s[..n], BlockCommentCap)[..2] == "/*"
      && (e.closed ==> n >= 4 && s[n - 2..n] == "*/")
  {
    BlockScanCloses(s[2..], NUL);
    var e := BlockScan(s[2..], NUL);
    assert Truncate(s[..2 + e.len], BlockCommentCap)[..2] == s[..2];
    if e.closed {
      assert s[2..][e.len - 1] == s[2 + e.len - 1];
      assert s[2..][e.len - 2] == s[2 + e.len - 2];
    }
  }

  /**
   * A block comment is a comment token when it is closed and a lexical
   * error running to the end of the input when it is not.  Either way the
   * token is the text read, from the opening slash and star on, cut to its
   * buffer and placed where the slash was; the text read by a closed one
   * ends with the closing star and slash.
   */
  lemma BlockCommentToken(st: State)
    requires |st.rest| >= 2 && st.rest[0] == '/' && st.rest[1] == '*'
    ensures var e := BlockScan(st.rest[2..], NUL);
      Next(st).tok == TokAt(st, Truncate(st.rest[..2 + e.len], BlockCommentCap),
                            if HasClose(st.rest[2..], NUL) then Comment else LexicalError)
    ensures var closed := HasClose(st.rest[2..], NUL);
      && Next(st).tok.kind == (if closed then Comment else LexicalError)
      && Next(st).tok.lex[..2] == "/*"
      && (!closed ==> Next(st).after.rest == [])
    ensures var e := BlockScan(st.rest[2..], NUL); var n := 2 + e.len;
      e.closed ==> n >= 4 && st.rest[n - 2..n] == "*/" && Next(st).after.rest == st.rest[n..]
  {
    assert Next(st) == NextSlash(st);
    BlockCommentRun(st.rest);
  }

  // ---------------------------------------------------------------------
  // String literals and numbers.
  // ---------------------------------------------------------------------

  /**
   * A literal body as the loop reads it: characters other than a quote or
   * a backslash, and pairs of a backslash and any character.
   */
  predicate Escaped(b: string)
    decreases |b|
  {
    if b == [] then true
    else if b[0] == '\\' then |b| >= 2 && Escaped(b[2..])
    else b[0] != '"' && Escaped(b[1..])
  }

  /** The literal loop keeps a backslash pair while there is room for it. */
  lemma StrScanPair(s: string, buf: string)
    requires |s| >= 2 && s[0] == '\\' && |buf| < StringPairCap
    ensures var r := StrScan(s[2..], buf + ['\\', s[1]]); StrScan(s, buf) == StrLit(r.buf, r.closed, r.len + 2)
  {
  }

  /** The literal loop keeps a character other than a quote or a backslash while there is room for it. */
  lemma StrScanOne(s: string, buf: string)
    requires s != [] && s[0] != '\\' && s[0] != '"' && |buf| < StringCap
    ensures var r := StrScan(s[1..], buf + [s[0]]); StrScan(s, buf) == StrLit(r.buf, r.closed, r.len + 1)
  {
  }

  /** The literal loop at a quote, at the end of input, or at a backslash with nothing after it. */
  lemma StrScanEnd(tail: string, buf: string)
    requires tail == [] || tail[0] == '"' || tail == "\\"
    ensures StrScan(tail, buf) == StrLit(buf, tail != [] && tail[0] == '"', if tail == [] then 0 else 1)
  {
  }

  /**
   * The literal loop over such a body, then a quote, the end of input, or
   * a backslash with nothing after it: the body is kept as it is, and only
   * the quote closes the literal.
   */
  lemma {:induction false} StrScanEscapedRun(body: string, tail: string, buf: string)
    requires Escaped(body) && |buf| + |body| <= StringCap
    requires tail == [] || tail[0] == '"' || tail == "\\"
    ensures StrScan(body + tail, buf)
      == StrLit(buf + body, tail != [] && tail[0] == '"', |body| + if tail == [] then 0 else 1)
    decreases |body|
  {
    if body == [] {
      assert body + tail == tail && buf + body == buf;
      StrScanEnd(tail, buf);
    } else {
      var k := EscapedFirst(body);
      var s := body + tail;
      MoveFront(body, tail, buf, k);
      if k == 2 {
        StrScanPair(s, buf);
      } else {
        StrScanOne(s, buf);
      }
      StrScanEscapedRun(body[k..], tail, buf + body[..k]);
    }
  }

  /** The first unit of an escaped body: a backslash pair or one plain character. */
  lemma EscapedFirst(body: string) returns (k: nat)
    requires Escaped(body) && body != []
    ensures k == (if body[0] == '\\' then 2 else 1) && k <= |body| && Escaped(body[k..])
    ensures k == 1 ==> body[0] != '"'
  {
    k := if body[0] == '\\' then 2 else 1;
  }

  /** The first `k` characters of `body + tail` moved from the text to the buffer. */
  lemma MoveFront(body: string, tail: string, buf: string, k: nat)
    requires k <= |body|
    ensures (body + tail)[k..] == body[k..] + tail
    ensures forall i :: 0 <= i < k ==> (body + tail)[i] == body[i]
    ensures buf + body[..k] + body[k..] == buf + body
    ensures k == 1 ==> buf + body[..k] == buf + [body[0]]
    ensures k == 2 ==> buf + body[..k] == buf + ['\\', body[1]] || body[0] != '\\'
  {
    assert body[..k] + body[k..] == body;
  }

  /** The text after the opening quote of `"\"" + body + tail`. */
  lemma AfterQuote(s: string, body: string, tail: string)
    requires s == "\"" + body + tail
    ensures s[1..] == body + tail
    ensures tail != [] ==> s[2 + |body|..] == tail[1..]
  {
  }

  /** What the literal loop reads of `"\"" + body + tail`. */
  lemma StringRun(s: string, body: string, tail: string)
    requires s == "\"" + body + tail && |body| <= StringCap && Escaped(body)
    requires tail == [] || tail[0] == '"' || tail == "\\"
    ensures StrScan(s[1..], [])
      == StrLit(body, tail != [] && tail[0] == '"', |body| + if tail == [] then 0 else 1)
    ensures tail != [] ==> s[2 + |body|..] == tail[1..]
  {
    AfterQuote(s, body, tail);
    StrScanEscapedRun(body, tail, []);
    assert [] + body == body;
  }

  /** A quote at the front starts a string literal. */
  lemma NextIsString(st: State)
    requires st.rest != [] && st.rest[0] == '"'
    ensures Next(st) == NextString(st)
  {
    var c := st.rest[0];
    assert c != '\n' && !IsBlank(c) && c != '/';
  }

  /**
   * A literal is its body without the quotes, each backslash kept with the
   * character after it: a string when the closing quote is there, and a
   * lexical error running to the end of input when the input ends first,
   * also right after a backslash.
   */
  lemma StringToken(st: State, body: string, tail: string)
    requires st.rest == "\"" + body + tail && |body| <= StringCap && Escaped(body)
    requires tail == [] || tail[0] == '"' || tail == "\\"
    ensures var closed := tail != [] && tail[0] == '"';
      Next(st).tok == TokAt(st, body, if closed then StringLit else LexicalError)
    ensures Next(st).after.rest == if tail != [] && tail[0] == '"' then tail[1..] else []
  {
    NextIsString(st);
    StringRun(st.rest, body, tail);
  }

  /** The number of '.' characters in `s`. */
  function Dots(s: string): nat {
    if s == [] then 0 else (if s[0] == '.' then 1 else 0) + Dots(s[1..])
  }

  /**
   * The number loop takes digits and '.', at most one '.' (none once `dot`
   * is set), and stops only at a character it may not take.
   */
  lemma {:induction false} NumRunShape(s: string, dot: bool)
    ensures var n := NumRun(s, dot);
      && (forall i :: 0 <= i < n ==> IsDigit(s[i]) || s[i] == '.')
      && Dots(s[..n]) <= (if dot then 0 else 1)
      && (n < |s| ==> !IsDigit(s[n]) && (s[n] == '.' ==> dot || Dots(s[..n]) == 1))
  {
    var n := NumRun(s, dot);
    if s != [] && (IsDigit(s[0]) || (s[0] == '.' && !dot)) {
      NumRunShape(s[1..], dot || s[0] == '.');
      assert s[..n][1..] == s[1..][..n - 1];
      forall i | 0 < i < n
        ensures IsDigit(s[i]) || s[i] == '.'
      {
        assert s[i] == s[1..][i - 1];
      }
      if n < |s| {
        assert s[n] == s[1..][n - 1];
      }
    } else {
      assert s[..n] == [];
    }
  }

  /** What the number loop reads of `s`, which starts with a digit. */
  lemma NumberRun(s: string)
    requires s != [] && IsDigit(s[0])
    ensures var n := 1 + NumRun(s[1..], false);
      && (forall i :: 0 <= i < n ==> IsDigit(s[i]) || s[i] == '.')
      && Dots(s[..n]) <= 1
      && (n < |s| ==> !IsDigit(s[n]) && (s[n] == '.' ==> Dots(s[..n]) == 1))
  {
    NumRunShape(s[1..], false);
    var n := 1 + NumRun(s[1..], false);
    assert s[..n][1..] == s[1..][..n - 1];
    forall i | 0 < i < n
      ensures IsDigit(s[i]) || s[i] == '.'
    {
      assert s[i] == s[1..][i - 1];
    }
    if n < |s| {
      assert s[n] == s[1..][n - 1];
    }
  }

  /**
   * A number is the longest run of digits and at most one '.' that starts
   * with a digit; at most 255 of its characters are kept.
   */
  lemma NumberToken(st: State)
    requires st.rest != [] && IsDigit(st.rest[0])
    ensures var s := st.rest; var n := |s| - |Next(st).after.rest|;
      && Next(st).tok == TokAt(st, Truncate(s[..n], NumberCap), Number)
      && (forall i :: 0 <= i < n ==> IsDigit(s[i]) || s[i] == '.')
      && Dots(s[..n]) <= 1
      && (n < |s| ==> !IsDigit(s[n]) && (s[n] == '.' ==> Dots(s[..n]) == 1))
  {
    assert Next(st) == NextNumber(st);
    NumberRun(st.rest);
  }

  // ---------------------------------------------------------------------
  // Words and the "to do" rule.
  // ---------------------------------------------------------------------

  /**
   * A word is the longest run of letters, digits and underscores; its
   * lexeme keeps its case (at most 1023 characters of it) and its kind is
   * decided on the lowered form.
   */
  lemma WordToken(st: State, w: string, tail: string)
    requires st.rest == w + tail && w != [] && (IsAlpha(w[0]) || w[0] == '_')
    requires forall i :: 0 <= i < |w| ==> IsWordChar(w[i])
    requires tail == [] || !IsWordChar(tail[0])
    requires !(w == "to" && tail != [] && IsBlank(tail[0]))
    ensures var lex := Truncate(w, WordCap); Next(st).tok == TokAt(st, lex, Classify(lex))
    ensures Next(st).after.rest == tail
  {
    NextIsWord(st);
    WordRun(st.rest, w, tail);
    WordStep(st, |w|, Truncate(w, WordCap));
  }

  /** A letter or an underscore at the front starts a word. */
  lemma NextIsWord(st: State)
    requires st.rest != [] && (IsAlpha(st.rest[0]) || st.rest[0] == '_')
    ensures Next(st) == NextWord(st)
  {
    var c := st.rest[0];
    assert c != '\n' && !IsBlank(c) && c != '/' && c != '"' && !IsDigit(c);
  }

  /** What the word loop reads of `w + tail`. */
  lemma WordRun(s: string, w: string, tail: string)
    requires s == w + tail && w != []
    requires forall i :: 0 <= i < |w| ==> IsWordChar(w[i])
    requires tail == [] || !IsWordChar(tail[0])
    ensures 1 + Span(WordChars, s[1..]) == |w| && s[..|w|] == w && s[|w|..] == tail
  {
    assert s[1..] == w[1..] + tail;
    SpanOfRun(WordChars, w[1..], tail);
  }

  /**
   * Lines 404-416: the kind of a word ignores case; a datatype name is a
   * datatype even though the vocabulary lists it as a keyword; any other
   * word takes the class lookupKeyword gives it, and is an identifier
   * exactly when it is in neither list.
   */
  lemma ClassifyRules(w: string)
    requires NUL !in w
    ensures Classify(w) == Classify(Lower(w))
    ensures Classify(w) == Datatype <==> Lower(w) in DatatypeNames
    ensures Lower(w) !in DatatypeNames ==> Classify(w) == VocabKind(Lookup.LookupKeyword(w))
    ensures Classify(w) == Identifier <==>
      Lower(w) !in DatatypeNames && Lower(w) !in KeywordTable.Keywords() + KeywordTable.ReservedWords() + KeywordTable.NoiseWords()
  {
    LowerIdempotent(w);
    KeywordTable.LookupWord(w);
  }

  /** The five datatype names are keywords of the vocabulary too. */
  lemma DatatypesAreKeywords()
    ensures forall d :: d in DatatypeNames ==> KeywordTable.VocabClass(d) == KeywordTable.Keyword
  {
  }

  /** "to" on its own is a noise word. */
  lemma ClassifyTo()
    ensures Classify("to") == Noise
  {
    assert Lower("to") == "to";
    assert "to" in KeywordTable.NoiseWords();
  }

  /** A run of class `p` from index `j` that ends at index `k`. */
  lemma SpanFrom(p: CharClass, s: string, j: nat, k: nat)
    requires j <= k <= |s| && forall i :: j <= i < k ==> In(p, s[i])
    requires k == |s| || !In(p, s[k])
    ensures Span(p, s[j..]) == k - j
  {
    assert s[j..] == s[j..k] + s[k..];
    SpanOfRun(p, s[j..k], s[k..]);
  }

  /**
   * The text of the "to do" rule: "to", a maximal run of `b` blanks, and
   * then a maximal run of `k` letters.
   */
  predicate ToThenLetters(s: string, b: nat, k: nat) {
    && 2 + b + k <= |s| && s[0] == 't' && s[1] == 'o' && b >= 1
    && (forall i :: 2 <= i < 2 + b ==> IsBlank(s[i])) && (2 + b == |s| || !IsBlank(s[2 + b]))
    && (forall i :: 2 + b <= i < 2 + b + k ==> IsAlpha(s[i])) && (2 + b + k == |s| || !IsAlpha(s[2 + b + k]))
  }

  /** What the "to do" rule reads of such a text. */
  lemma ToDoRun(s: string, b: nat, k: nat)
    requires ToThenLetters(s, b, k)
    ensures Span(Blanks, s[2..]) == b && Span(Letters, s[2 + b..]) == k
  {
    SpanFrom(Blanks, s, 2, 2 + b);
    SpanFrom(Letters, s, 2 + b, 2 + b + k);
  }

  /** "to" before a blank is read by the "to do" rule. */
  lemma ToDoStarts(st: State)
    requires |st.rest| > 2 && st.rest[0] == 't' && st.rest[1] == 'o' && IsBlank(st.rest[2])
    ensures st.rest[..2] == "to" && Next(st) == NextToDo(st)
  {
    var s := st.rest;
    assert In(WordChars, s[1]) && !In(WordChars, s[2]);
    SpanFrom(WordChars, s, 1, 2);
    assert Truncate(s[..2], WordCap) == "to";
    NextIsWord(st);
    WordToDo(st, 2, "to");
  }

  /** The merge, in terms of the rule. */
  lemma ToDoMergeRead(st: State, b: nat)
    requires ToThenLetters(st.rest, b, 2) && st.rest[2 + b..4 + b] == "do"
    ensures st.rest[..2] == "to" && IsBlank(st.rest[2])
    ensures NextToDo(st) == Emit(st, 4 + b, TokAt(st, "to do", Keyword))
    ensures Newlines(st.rest, 4 + b) == 0 && Advance(st.col, st.rest, 4 + b) == st.col + 4 + b
  {
    ToDoRun(st.rest, b, 2);
    ToDoMerged(st, b, "do");
    ToDoStep(st.rest, st.col, b, 2);
  }

  /**
   * Lines 369-397: "to", blanks and then exactly the letters "do" are the
   * one keyword "to do"; the text goes on right after "do".
   */
  lemma ToDoMerge(st: State, b: nat)
    requires ToThenLetters(st.rest, b, 2) && st.rest[2 + b..4 + b] == "do"
    ensures Next(st).tok == TokAt(st, "to do", Keyword)
    ensures Next(st).after == State(st.rest[4 + b..], st.line, st.col + 4 + b, Remember("to do", Keyword))
  {
    ToDoStarts(st);
    ToDoMergeRead(st, b);
  }

  /** The hand-back, in terms of the rule. */
  lemma ToDoBackRead(st: State, b: nat, k: nat)
    requires ToThenLetters(st.rest, b, k) && st.rest[2 + b..2 + b + k] != "do"
    ensures st.rest[..2] == "to" && IsBlank(st.rest[2])
    ensures var tok := TokAt(st, "to", Classify("to"));
      var stopped := k < PeekWordCap && 2 + b + k < |st.rest| && st.rest[2 + b + k] == '\n';
      NextToDo(st) == Scanned(tok, State(Spaces(b) + st.rest[2 + b..], st.line, if stopped then 0 else st.col + 2, UpdateContext(st.ctx, tok)))
  {
    ToDoRun(st.rest, b, k);
    ToDoBack(st, b, st.rest[2 + b..2 + b + Min(k, PeekWordCap)]);
  }

  /**
   * Lines 399-401 and 404-416: "to", blanks and a word other than "do" give
   * the noise word "to" alone; the blanks come back as spaces in front of
   * the word, the line is unchanged, and the column is 0 when the
   * look-ahead stopped on a newline before its 15 letters.
   */
  lemma ToDoKeepsTo(st: State, b: nat, k: nat)
    requires ToThenLetters(st.rest, b, k) && st.rest[2 + b..2 + b + k] != "do"
    ensures Next(st).tok == TokAt(st, "to", Noise)
    ensures Next(st).after.rest == Spaces(b) + st.rest[2 + b..]
    ensures Next(st).after.line == st.line
    ensures Next(st).after.col ==
      if k < PeekWordCap && 2 + b + k < |st.rest| && st.rest[2 + b + k] == '\n' then 0 else st.col + 2
    ensures Next(st).after.ctx == Remember("to", Noise)
  {
    ToDoStarts(st);
    ToDoBackRead(st, b, k);
    ClassifyTo();
  }

  /** The rule wants "to" in lower case: "To", "tO" and "TO" before a blank are the noise word alone. */
  lemma ToDoIsCaseSensitive(st: State)
    requires |st.rest| > 2 && (st.rest[0] == 't' || st.rest[0] == 'T') && (st.rest[1] == 'o' || st.rest[1] == 'O')
    requires st.rest[..2] != "to" && IsBlank(st.rest[2])
    ensures Next(st) == Emit(st, 2, TokAt(st, st.rest[..2], Noise))
  {
    var s := st.rest;
    assert In(WordChars, s[1]) && !In(WordChars, s[2]);
    SpanFrom(WordChars, s, 1, 2);
    assert Truncate(s[..2], WordCap) == s[..2];
    NextIsWord(st);
    WordStep(st, 2, s[..2]);
    assert Lower(s[..2]) == "to";
    ClassifyTo();
  }

  // ---------------------------------------------------------------------
  // Operators, delimiters and unmatched characters.
  // ---------------------------------------------------------------------

  /** Any other character at the front goes to the operator chain. */
  lemma NextIsOperator(st: State)
    requires st.rest != []
    requires var c := st.rest[0]; c != '\n' && !IsBlank(c) && c != '/' && c != '"' && !IsAlnum(c) && c != '_'
    ensures Next(st) == NextOperator(st)
  {
  }

  /**
   * A two-character operator other than "/=" is one token, and the pass
   * takes one character more: lines 422-478 read the pair with two getch
   * calls after peekch has left its second character unread, so the
   * character after the pair is lost.
   */
  lemma PairSwallowsNext(st: State)
    requires |st.rest| > 1 && st.rest[0] != '/' && PairKind(st.rest[0], st.rest[1]).Some?
    ensures Next(st).tok == TokAt(st, st.rest[..2], PairKind(st.rest[0], st.rest[1]).value)
    ensures Next(st).after.rest == st.rest[Min(3, |st.rest|)..]
  {
    NextIsOperator(st);
    OperatorPair(st);
  }

  /** "+=1": the token "+=" and nothing else; the digit is gone. */
  lemma AssignLosesDigit(line: int, col: int, ctx: Context)
    ensures var r := Next(State("+=1", line, col, ctx));
      r.tok == Tok("+=", AssignOp, line, col + 1) && r.after.rest == []
  {
    var st := State("+=1", line, col, ctx);
    PairSwallowsNext(st);
    assert st.rest[..2] == "+=";
  }

  /** Lines 299-303: "/=" is read by the slash branch, which takes exactly its two characters. */
  lemma SlashAssignToken(st: State)
    requires |st.rest| > 1 && st.rest[0] == '/' && st.rest[1] == '='
    ensures Next(st) == Emit(st, 2, TokAt(st, "/=", AssignOp))
  {
    assert Next(st) == NextSlash(st);
  }

  /**
   * Lines 494-501: a '+' or '-' not starting a pair is a unary operator
   * exactly when the context allows one, and an arithmetic operator
   * otherwise.
   */
  lemma SignToken(st: State)
    requires st.rest != [] && (st.rest[0] == '+' || st.rest[0] == '-')
    requires |st.rest| == 1 || (st.rest[1] != st.rest[0] && st.rest[1] != '=')
    ensures Next(st) == Emit(st, 1, TokAt(st, [st.rest[0]], if PrevAllowsUnary(st.ctx) then UnaryOp else ArithOp))
    ensures Next(st).tok.kind == UnaryOp <==> PrevAllowsUnary(st.ctx)
  {
    NextIsOperator(st);
    OperatorSingle(st);
  }

  /** After the empty string literal, whose lexeme is empty, a sign is unary whatever came before. */
  lemma SignAfterEmptyString(st: State)
    requires |st.rest| >= 3 && st.rest[0] == '"' && st.rest[1] == '"' && (st.rest[2] == '+' || st.rest[2] == '-')
    requires |st.rest| == 3 || (st.rest[3] != st.rest[2] && st.rest[3] != '=')
    ensures Next(st).tok == TokAt(st, "", StringLit) && Next(st).after.rest == st.rest[2..]
    ensures Next(Next(st).after).tok.kind == UnaryOp
  {
    assert st.rest == "\"" + "" + st.rest[1..];
    StringToken(st, "", st.rest[1..]);
    var after := Next(st).after;
    assert after.ctx.prevLexeme == [];
    SignToken(after);
  }

  /** An identifier of `n` characters leaves a context in which a sign is not unary. */
  lemma IdentifierContext(st: State, n: nat)
    requires 0 < n < |st.rest| && (IsAlpha(st.rest[0]) || st.rest[0] == '_')
    requires forall i :: 0 <= i < n ==> IsWordChar(st.rest[i])
    requires !IsWordChar(st.rest[n]) && Classify(Truncate(st.rest[..n], WordCap)) == Identifier
    ensures Next(st).after.rest == st.rest[n..] && !PrevAllowsUnary(Next(st).after.ctx)
  {
    var w, tail := st.rest[..n], st.rest[n..];
    assert st.rest == w + tail;
    assert forall i :: 0 <= i < |w| ==> IsWordChar(w[i]);
    assert tail[0] == st.rest[n] && w[0] == st.rest[0];
    ClassifyTo();
    assert w != "to";
    WordToken(st, w, tail);
    var lex := Truncate(w, WordCap);
    ContextFollowsToken(st);
    assert lex[0] == st.rest[0] != NUL;
  }

  /** After an identifier of `n` characters, a sign is a binary arithmetic operator. */
  lemma SignAfterIdentifier(st: State, n: nat)
    requires 0 < n < |st.rest| && (IsAlpha(st.rest[0]) || st.rest[0] == '_')
    requires forall i :: 0 <= i < n ==> IsWordChar(st.rest[i])
    requires Classify(Truncate(st.rest[..n], WordCap)) == Identifier
    requires st.rest[n] == '+' || st.rest[n] == '-'
    requires n + 1 == |st.rest| || (st.rest[n + 1] != st.rest[n] && st.rest[n + 1] != '=')
    ensures Next(st).after.rest == st.rest[n..] && Next(Next(st).after).tok.kind == ArithOp
  {
    IdentifierContext(st, n);
    SignToken(Next(st).after);
  }

  /** The six delimiters, and no character starting an operator pair, have a delimiter kind. */
  lemma DelimiterChar(c: char, d: char, ctx: Context)
    requires DelimiterKind(c) != LexicalError
    ensures c == '(' || c == ')' || c == '[' || c == ']' || c == ':' || c == ','
    ensures PairKind(c, d).None? && SingleKind(c, ctx) == DelimiterKind(c)
  {
  }

  /** Lines 503-509: each of the six delimiters is a token of its own kind. */
  lemma DelimiterToken(st: State)
    requires st.rest != [] && DelimiterKind(st.rest[0]) != LexicalError
    ensures Next(st) == Emit(st, 1, TokAt(st, [st.rest[0]], DelimiterKind(st.rest[0])))
  {
    DelimiterChar(st.rest[0], if |st.rest| > 1 then st.rest[1] else NUL, st.ctx);
    NextIsOperator(st);
    OperatorSingle(st);
  }

  /**
   * Lines 511-516: a character no rule takes, a lone '&' or '|' among
   * them, is a one-character lexical error.
   */
  lemma UnknownCharIsError(st: State)
    requires st.rest != []
    requires var c := st.rest[0];
      && c != '\n' && !IsBlank(c) && c != '/' && c != '"' && !IsAlnum(c) && c != '_'
      && c !in "+-^=<>!*%~()[]:,"
      && ((c == '&' || c == '|') ==> |st.rest| == 1 || st.rest[1] != c)
    ensures Next(st) == Emit(st, 1, TokAt(st, [st.rest[0]], LexicalError))
  {
    NextIsOperator(st);
    OperatorSingle(st);
  }

  // ---------------------------------------------------------------------
  // The previous-token context.
  // ---------------------------------------------------------------------

  /**
   * Every pass leaves the context add_symbol gives after its token
   * (lines 86-93): layout tokens keep it, any other token replaces it.
   */
  lemma ContextFollowsToken(st: State)
    requires st.rest != []
    ensures Next(st).after.ctx == UpdateContext(st.ctx, Next(st).tok)
    ensures IsLayout(Next(st).tok.kind) ==> Next(st).after.ctx == st.ctx
  {
    var c := st.rest[0];
    if c == '\n' {
    } else if IsBlank(c) {
    } else if c == '/' {
      assert Next(st) == NextSlash(st);
    } else if c == '"' {
    } else if IsDigit(c) {
    } else if IsAlpha(c) || c == '_' {
      NextIsWord(st);
    } else {
      NextIsOperator(st);
    }
  }

  // ---------------------------------------------------------------------
  // Positions over the whole input.
  // ---------------------------------------------------------------------

  /** The pass `r` from `st` places its token on the line it starts on, at column 1 or later, and moves forward. */
  predicate PassPlaced(st: State, r: Scanned) {
    r.tok.line == st.line && r.tok.col >= 1 && r.after.line >= st.line && r.after.col >= 0
  }

  lemma SlashPlaced(st: State)
    requires st.rest != [] && st.rest[0] == '/' && st.col >= 0
    ensures PassPlaced(st, NextSlash(st))
  {
  }

  lemma ToDoPlaced(st: State)
    requires |st.rest| > 2 && st.rest[..2] == "to" && IsBlank(st.rest[2]) && st.col >= 0
    ensures PassPlaced(st, NextToDo(st))
  {
  }

  lemma WordPlaced(st: State)
    requires st.rest != [] && (IsAlpha(st.rest[0]) || st.rest[0] == '_') && st.col >= 0
    ensures PassPlaced(st, NextWord(st))
  {
    var s := st.rest;
    var n := 1 + Span(WordChars, s[1..]);
    var w := Truncate(s[..n], WordCap);
    if w == "to" && n < |s| && IsBlank(s[n]) {
      WordToDo(st, n, w);
      ToDoPlaced(st);
    }
  }

  lemma OperatorPlaced(st: State)
    requires st.rest != [] && st.col >= 0
    ensures PassPlaced(st, NextOperator(st))
  {
  }

  /**
   * Each token is placed on the line the pass starts on, at column 1 or
   * later; the pass never moves back a line nor to a negative column.
   */
  lemma TokenPosition(st: State)
    requires st.rest != [] && st.col >= 0
    ensures PassPlaced(st, Next(st))
  {
    var c := st.rest[0];
    if c == '\n' {
    } else if IsBlank(c) {
    } else if c == '/' {
      assert Next(st) == NextSlash(st);
      SlashPlaced(st);
    } else if c == '"' {
    } else if IsDigit(c) {
    } else if IsAlpha(c) || c == '_' {
      NextIsWord(st);
      WordPlaced(st);
    } else {
      NextIsOperator(st);
      OperatorPlaced(st);
    }
  }

  /** The tokens `toks` are at column 1 or later, on line `line` or later, in the order of their lines. */
  predicate Placed(toks: seq<Tok>, line: int) {
    && (forall i :: 0 <= i < |toks| ==> toks[i].col >= 1 && toks[i].line >= line)
    && (forall i, j :: 0 <= i < j < |toks| ==> toks[i].line <= toks[j].line)
  }

  /** The tokens of the remaining text are placed from the current line on. */
  lemma {:induction false} LexPlaced(st: State)
    requires st.col >= 0
    ensures Placed(Lex(st), st.line)
    decreases |st.rest|
  {
    if st.rest != [] {
      LexStep(st);
      TokenPosition(st);
      var r := Next(st);
      LexPlaced(r.after);
      var toks := Lex(st);
      assert toks == [r.tok] + Lex(r.after);
      assert forall i :: 0 < i < |toks| ==> toks[i] == Lex(r.after)[i - 1];
    }
  }

  /** Every token of an input is at line 1 or later and column 1 or later, and their lines never go back. */
  lemma InputPlaced(input: string)
    ensures Placed(Lex(Initial(input)), 1)
  {
    LexPlaced(Initial(input));
  }

  // ---------------------------------------------------------------------
  // The tables.
  // ---------------------------------------------------------------------

  /** The error rows of the lexical-error symbols of `syms`, in order. */
  function ErrorRows(syms: seq<Symbol>): (r: seq<LexError>)
    ensures |r| <= |syms|
  {
    if syms == [] then [] else ErrorRow(syms[0]) + ErrorRows(syms[1..])
  }

  /** The error row of one symbol: one row for a lexical error, none otherwise. */
  function ErrorRow(s: Symbol): seq<LexError> {
    if s.kind == LexicalError then [LexError(s.lex, s.line, s.col)] else []
  }

  lemma {:induction false} ErrorRowsSnoc(syms: seq<Symbol>, s: Symbol)
    ensures ErrorRows(syms + [s]) == ErrorRows(syms) + ErrorRow(s)
  {
    if syms == [] {
      assert [] + [s] == [s];
      assert ErrorRows([s]) == ErrorRow(s) + ErrorRows([]);
    } else {
      var longer := syms + [s];
      assert longer[0] == syms[0] && longer[1..] == syms[1..] + [s];
      ErrorRowsSnoc(syms[1..], s);
      calc {
        ErrorRows(longer);
        ErrorRow(syms[0]) + ErrorRows(syms[1..] + [s]);
        ErrorRow(syms[0]) + (ErrorRows(syms[1..]) + ErrorRow(s));
        (ErrorRow(syms[0]) + ErrorRows(syms[1..])) + ErrorRow(s);
      }
    }
  }

  /**
   * add_symbol records an error for every lexical-error symbol (lines
   * 80-92): before the caps, the error list is the error symbols of the
   * symbol table, in the same order and with the same lexeme and place.
   */
  lemma {:induction false} ErrorsMirrorSymbols(toks: seq<Tok>)
    ensures ErrorsOf(toks) == ErrorRows(SymbolsOf(toks))
  {
    if toks != [] {
      var front, t := toks[..|toks| - 1], toks[|toks| - 1];
      ErrorsMirrorSymbols(front);
      SymbolsOfFront(toks);
      ErrorRowsSnoc(SymbolsOf(front), ToSymbol(t));
      assert ErrorRow(ToSymbol(t)) == if t.kind == LexicalError then [ToError(t)] else [];
    }
  }

  /** The symbol rows of a token list: those of all but the last token, then the last one's. */
  lemma SymbolsOfFront(toks: seq<Tok>)
    requires toks != []
    ensures SymbolsOf(toks) == SymbolsOf(toks[..|toks| - 1]) + [ToSymbol(toks[|toks| - 1])]
  {
  }

  /** The error list of an input is its first 1024 error symbols. */
  lemma ErrorListOfSymbols(input: string)
    ensures ErrorList(input) == Take(ErrorRows(SymbolsOf(Lex(Initial(input)))), MaxErrors)
  {
    ErrorsMirrorSymbols(Lex(Initial(input)));
  }

  /**
   * The tables keep the first 20000 symbols and the first 1024 errors;
   * every lexeme they hold is a C string of at most 1023 characters.
   */
  lemma TablesBounded(input: string)
    ensures var syms := SymbolsOf(Lex(Initial(input)));
      && SymbolTable(input) == (if |syms| <= MaxSymbols then syms else syms[..MaxSymbols])
      && |ErrorList(input)| <= MaxErrors
    ensures forall i :: 0 <= i < |SymbolTable(input)| ==> |SymbolTable(input)[i].lex| < MaxLex && NUL !in SymbolTable(input)[i].lex
  {
    var syms := SymbolsOf(Lex(Initial(input)));
    forall i | 0 <= i < |SymbolTable(input)|
      ensures SymbolTable(input)[i] == syms[i]
    {
    }
  }
}
