/**
 * The input side of simple_lex.c: the stream `infile` with the characters
 * handed back to it, and the position counters cur_line and cur_col that
 * getch, ungetch and peekch keep (simple_lex.c:151-184), and the inner
 * loops of main that read a run of characters with them.  The file is
 * replaced by its text.
 */
module Cursors {
  import opened CStrings
  import opened ScanSpec

  class Cursor {
    /** The text of the source file. */
    const input: string
    /** How much of `input` fgetc has read. */
    var pos: nat
    /** Characters handed back by ungetc; the next one read is `pushback[0]`. */
    var pushback: string
    var line: int
    var col: int

    ghost predicate Valid()
      reads this
    {
      pos <= |input| && line >= 1 && col >= 0
    }

    /** The text the next reads return, in order. */
    function Rest(): string
      reads this
      requires pos <= |input|
    {
      pushback + input[pos..]
    }

    /**
     * The cursor has read the first `k` characters of `s`, starting on line
     * `line0` at column `col0` (as getch counts them, from line 1 and column 0).
     */
    ghost predicate At(s: string, k: nat, line0: int, col0: int)
      reads this
    {
      && Valid() && line0 >= 1 && col0 >= 0 && k <= |s| && Rest() == s[k..]
      && line == line0 + Newlines(s, k)
      && col == Advance(col0, s, k)
    }

    /**
     * As `At`, after the character that follows has been looked at and
     * handed back: a newline handed back leaves the column at 0.
     */
    ghost predicate Near(s: string, k: nat, line0: int, col0: int)
      reads this
    {
      && Valid() && line0 >= 1 && col0 >= 0 && k <= |s| && Rest() == s[k..]
      && line == line0 + Newlines(s, k)
      && col == if k < |s| && s[k] == '\n' then 0 else Advance(col0, s, k)
    }

    /** fopen, and cur_line = 1, cur_col = 0 (simple_lex.c:226-227). */
    constructor (text: string)
      ensures Valid() && input == text && pos == 0 && pushback == [] && line == 1 && col == 0
      ensures Rest() == text
    {
      input := text;
      pos := 0;
      pushback := [];
      line := 1;
      col := 0;
    }

    /** getch: read one character; a newline moves to column 0 of the next line. */
    method Getch() returns (c: Option<char>)
      requires Valid()
      modifies this
      ensures Valid()
      ensures old(Rest()) == [] ==> c == None && Rest() == [] && line == old(line) && col == old(col)
      ensures old(Rest()) != [] ==> c == Some(old(Rest())[0]) && Rest() == old(Rest())[1..]
      ensures c == Some('\n') ==> line == old(line) + 1 && col == 0
      ensures c.Some? && c.value != '\n' ==> line == old(line) && col == old(col) + 1
      ensures old(pushback) != [] ==> pushback == old(pushback)[1..] && pos == old(pos)
      ensures old(pushback) == [] ==> pushback == [] && pos == if old(pos) < |input| then old(pos) + 1 else old(pos)
    {
      if pushback != [] {
        c := Some(pushback[0]);
        pushback := pushback[1..];
      } else if pos < |input| {
        c := Some(input[pos]);
        pos := pos + 1;
      } else {
        return None;
      }
      if c.value == '\n' {
        line := line + 1;
        col := 0;
      } else {
        col := col + 1;
      }
    }

    /**
     * ungetch: hand a character back.  A newline steps back a line (never
     * above line 1) and sets the column to 0; any other character steps
     * back a column (never below 0).
     */
    method Ungetch(c: Option<char>)
      requires Valid()
      modifies this
      ensures Valid()
      ensures c.None? ==> pushback == old(pushback) && line == old(line) && col == old(col)
      ensures c.Some? ==> pushback == [c.value] + old(pushback) && Rest() == [c.value] + old(Rest())
      ensures pos == old(pos)
      ensures c == Some('\n') ==> line == (if old(line) > 1 then old(line) - 1 else old(line)) && col == 0
      ensures c.Some? && c.value != '\n' ==> line == old(line) && col == if old(col) > 0 then old(col) - 1 else 0
    {
      if c.None? {
        return;
      }
      pushback := [c.value] + pushback;
      if c.value == '\n' {
        if line > 1 {
          line := line - 1;
        }
        col := 0;
      } else {
        if col > 0 {
          col := col - 1;
        }
      }
    }

    /**
     * peekch: the next character, left unread.  Peeking a newline leaves
     * the column at 0, as ungetch of a newline does.
     */
    method Peekch() returns (c: Option<char>)
      requires Valid()
      modifies this
      ensures Valid()
      ensures Rest() == old(Rest())
      ensures c == if old(Rest()) == [] then None else Some(old(Rest())[0])
      ensures line == old(line)
      ensures col == if c == Some('\n') then 0 else old(col)
    {
      c := Getch();
      if c.None? {
        return;
      }
      Ungetch(c);
    }

    /** getch, seen as reading `s[k]` when the cursor has read `s[..k]`. */
    method GetAt(ghost s: string, ghost k: nat, ghost line0: int, ghost col0: int) returns (c: Option<char>)
      requires At(s, k, line0, col0)
      modifies this
      ensures k < |s| ==> c == Some(s[k]) && At(s, k + 1, line0, col0)
      ensures k == |s| ==> c == None && At(s, k, line0, col0)
    {
      c := Getch();
      if k < |s| {
        assert s[k..][1..] == s[k + 1..];
      }
    }

    /** ungetch of `s[k]` just read. */
    method UngetAt(c: Option<char>, ghost s: string, ghost k: nat, ghost line0: int, ghost col0: int)
      requires k < |s| && c == Some(s[k]) && At(s, k + 1, line0, col0)
      modifies this
      ensures Near(s, k, line0, col0)
    {
      Ungetch(c);
      assert [s[k]] + s[k + 1..] == s[k..];
    }

    /** peekch, seen as looking at `s[k]`. */
    method PeekAt(ghost s: string, ghost k: nat, ghost line0: int, ghost col0: int) returns (c: Option<char>)
      requires At(s, k, line0, col0) || Near(s, k, line0, col0)
      modifies this
      ensures Near(s, k, line0, col0)
      ensures c == if k < |s| then Some(s[k]) else None
      ensures c != Some('\n') ==> At(s, k, line0, col0)
    {
      c := Peekch();
    }

    /** Lines 244-252: the rest of a blank run whose first character `c` was read, kept up to 255 characters. */
    method ReadBlanks(c: char, ghost s: string, ghost line0: int, ghost col0: int) returns (buf: string, ghost k: nat)
      requires s != [] && s[0] == c && IsBlank(c) && At(s, 1, line0, col0)
      modifies this
      ensures k == 1 + Span(Blanks, s[1..]) && buf == Truncate(s[..k], WhitespaceCap)
      ensures Near(s, k, line0, col0)
    {
      buf := [c];
      k := 1;
      assert s[..1] == [c];
      var ch;
      while true
        invariant 1 <= k && At(s, k, line0, col0) && Span(Blanks, s[1..]) >= k - 1
        invariant buf == Truncate(s[..k], WhitespaceCap)
        decreases |s| - k
      {
        ch := GetAt(s, k, line0, col0);
        if ch.None? || !IsBlank(ch.value) {
          break;
        }
        SpanMore(Blanks, s, 1, k);
        BufferOneMore(s, k, WhitespaceCap);
        if |buf| < WhitespaceCap {
          buf := buf + [ch.value];
        }
        k := k + 1;
      }
      SpanStop(Blanks, s, 1, k);
      if ch.Some? {
        UngetAt(ch, s, k, line0, col0);
      }
    }

    /** Lines 271-277: the rest of a line comment after its two slashes, and the newline that ends it. */
    method ReadLineComment(ghost s: string, ghost line0: int, ghost col0: int) returns (buf: string, ghost m: nat)
      requires |s| >= 2 && s[..2] == "//" && At(s, 2, line0, col0)
      modifies this
      ensures m == Span(LineChars, s[2..]) && buf == Truncate(s[..2 + m], LineCommentCap)
      ensures At(s, if 2 + m < |s| then 3 + m else 2 + m, line0, col0)
    {
      buf := "//";
      var k: nat := 2;
      var ch;
      while true
        invariant 2 <= k && At(s, k, line0, col0) && Span(LineChars, s[2..]) >= k - 2
        invariant buf == Truncate(s[..k], LineCommentCap)
        decreases |s| - k
      {
        ch := GetAt(s, k, line0, col0);
        if ch.None? || ch.value == '\n' {
          break;
        }
        SpanMore(LineChars, s, 2, k);
        BufferOneMore(s, k, LineCommentCap);
        if |buf| < LineCommentCap {
          buf := buf + [ch.value];
        }
        k := k + 1;
      }
      SpanStop(LineChars, s, 2, k);
      m := k - 2;
    }

    /** Lines 284-293: the rest of a block comment after its opening slash and star. */
    method ReadBlockComment(ghost s: string, ghost line0: int, ghost col0: int)
      returns (buf: string, closed: bool, ghost n: nat)
      requires |s| >= 2 && s[..2] == "/*" && At(s, 2, line0, col0)
      modifies this
      ensures var e := BlockScan(s[2..], NUL); n == 2 + e.len && closed == e.closed
      ensures buf == Truncate(s[..n], BlockCommentCap) && At(s, n, line0, col0)
    {
      buf := "/*";
      var k: nat := 2;
      var prev := NUL;
      closed := false;
      while true
        invariant 2 <= k && At(s, k, line0, col0) && !closed
        invariant buf == Truncate(s[..k], BlockCommentCap)
        invariant var e := BlockScan(s[k..], prev); BlockScan(s[2..], NUL) == BlockEnd(k - 2 + e.len, e.closed)
        decreases |s| - k
      {
        var ch := GetAt(s, k, line0, col0);
        if ch.None? {
          break;
        }
        BufferOneMore(s, k, BlockCommentCap);
        if |buf| < BlockCommentCap {
          buf := buf + [ch.value];
        }
        assert s[k..][1..] == s[k + 1..];
        k := k + 1;
        if prev == '*' && ch.value == '/' {
          closed := true;
          break;
        }
        prev := ch.value;
      }
      n := k;
    }

    /** Lines 314-328: a string literal after its opening quote. */
    method ReadString(ghost s: string, ghost line0: int, ghost col0: int)
      returns (buf: string, closed: bool, ghost n: nat)
      requires s != [] && At(s, 1, line0, col0)
      modifies this
      ensures var l := StrScan(s[1..], []); n == 1 + l.len && buf == l.buf && closed == l.closed
      ensures At(s, n, line0, col0)
    {
      buf := [];
      closed := false;
      var k: nat := 1;
      ghost var total := StrScan(s[1..], []);
      while true
        invariant 1 <= k && At(s, k, line0, col0) && !closed
        invariant var l := StrScan(s[k..], buf); total == StrLit(l.buf, l.closed, k - 1 + l.len)
        decreases |s| - k
      {
        var ch := GetAt(s, k, line0, col0);
        if ch.None? {
          break;
        }
        if ch.value == '\\' {
          var e := GetAt(s, k + 1, line0, col0);
          if e.None? {
            StrScanLoneBackslash(s, k, buf);
            k := k + 1;
            break;
          }
          ghost var buf0 := buf;
          if |buf| < StringPairCap {
            buf := buf + ['\\', e.value];
          }
          StrScanEscape(s, k, buf0, buf);
          k := k + 2;
          continue;
        }
        ghost var buf0 := buf;
        if ch.value == '"' {
          StrScanQuote(s, k, buf);
          k := k + 1;
          closed := true;
          break;
        }
        if |buf| < StringCap {
          buf := buf + [ch.value];
        }
        StrScanPlain(s, k, buf0, buf);
        k := k + 1;
      }
      n := k;
    }

    /** Lines 337-350: the rest of a number whose first digit `c` was read. */
    method ReadNumber(c: char, ghost s: string, ghost line0: int, ghost col0: int) returns (buf: string, ghost n: nat)
      requires s != [] && s[0] == c && IsDigit(c) && At(s, 1, line0, col0)
      modifies this
      ensures n == 1 + NumRun(s[1..], false) && buf == Truncate(s[..n], NumberCap)
      ensures Near(s, n, line0, col0)
    {
      buf := [c];
      var k: nat := 1;
      assert s[..1] == [c];
      var dot := false;
      while true
        invariant 1 <= k && At(s, k, line0, col0) && buf == Truncate(s[..k], NumberCap)
        invariant NumRun(s[1..], false) == k - 1 + NumRun(s[k..], dot)
        decreases |s| - k
      {
        var ch := PeekAt(s, k, line0, col0);
        if ch.None? || !(IsDigit(ch.value) || (ch.value == '.' && !dot)) {
          break;
        }
        ch := GetAt(s, k, line0, col0);
        assert s[k..][1..] == s[k + 1..];
        if ch.value == '.' {
          dot := true;
        }
        BufferOneMore(s, k, NumberCap);
        if |buf| < NumberCap {
          buf := buf + [ch.value];
        }
        k := k + 1;
      }
      n := k;
    }

    /** Lines 358-366: the rest of a word whose first character `c` was read, kept up to 1023 characters. */
    method ReadWord(c: char, ghost s: string, ghost line0: int, ghost col0: int) returns (buf: string, ghost n: nat)
      requires s != [] && s[0] == c && IsWordChar(c) && At(s, 1, line0, col0)
      modifies this
      ensures n == 1 + Span(WordChars, s[1..]) && buf == Truncate(s[..n], WordCap)
      ensures forall i :: 0 <= i < |buf| ==> IsWordChar(buf[i])
      ensures Near(s, n, line0, col0)
    {
      buf := [c];
      var k: nat := 1;
      assert s[..1] == [c];
      while true
        invariant 1 <= k && At(s, k, line0, col0) && Span(WordChars, s[1..]) >= k - 1
        invariant buf == Truncate(s[..k], WordCap)
        invariant forall i :: 0 <= i < |buf| ==> IsWordChar(buf[i])
        decreases |s| - k
      {
        var ch := PeekAt(s, k, line0, col0);
        if ch.None? || !IsWordChar(ch.value) {
          SpanStop(WordChars, s, 1, k);
          break;
        }
        ch := GetAt(s, k, line0, col0);
        SpanMore(WordChars, s, 1, k);
        BufferOneMore(s, k, WordCap);
        if |buf| < WordCap {
          buf := buf + [ch.value];
        }
        k := k + 1;
      }
      n := k;
    }

    /** Lines 376-379: the blanks from `s[j]` on, counted and read. */
    method SkipBlanks(ghost s: string, ghost j: nat, ghost line0: int, ghost col0: int) returns (count: nat)
      requires At(s, j, line0, col0) || Near(s, j, line0, col0)
      modifies this
      ensures count == Span(Blanks, s[j..]) && Near(s, j + count, line0, col0)
    {
      count := 0;
      while true
        invariant (At(s, j + count, line0, col0) || Near(s, j + count, line0, col0)) && Span(Blanks, s[j..]) >= count
        decreases |s| - count
      {
        var more := SkipBlank(s, j, j + count, line0, col0);
        if !more {
          break;
        }
        count := count + 1;
      }
    }

    /** One pass of that loop: read `s[k]` if it is a blank, else only look at it. */
    method SkipBlank(ghost s: string, ghost j: nat, ghost k: nat, ghost line0: int, ghost col0: int) returns (more: bool)
      requires j <= k && (At(s, k, line0, col0) || Near(s, k, line0, col0)) && Span(Blanks, s[j..]) >= k - j
      modifies this
      ensures more ==> k < |s| && At(s, k + 1, line0, col0) && Span(Blanks, s[j..]) >= k + 1 - j
      ensures !more ==> Near(s, k, line0, col0) && Span(Blanks, s[j..]) == k - j
    {
      var ww := PeekAt(s, k, line0, col0);
      if ww.None? || !IsBlank(ww.value) {
        SpanStop(Blanks, s, j, k);
        return false;
      }
      var _ := GetAt(s, k, line0, col0);
      SpanMore(Blanks, s, j, k);
      return true;
    }

    /**
     * Lines 381-391: the letters from `s[j]` on, at most 15 of them.  Unless
     * 15 were read, the character after them has been looked at.
     */
    method PeekWord(ghost s: string, ghost j: nat, ghost line0: int, ghost col0: int) returns (next: string)
      requires Near(s, j, line0, col0)
      modifies this
      ensures |next| == Min(Span(Letters, s[j..]), PeekWordCap) && j + |next| <= |s| && next == s[j..j + |next|]
      ensures |next| < PeekWordCap ==> Near(s, j + |next|, line0, col0)
      ensures |next| == PeekWordCap ==> At(s, j + |next|, line0, col0)
    {
      var nc := PeekAt(s, j, line0, col0);
      if nc.None? || !IsAlpha(nc.value) {
        SpanStop(Letters, s, j, j);
        return [];
      }
      next := ReadLetters(s, j, line0, col0);
    }

    /** Lines 385-389: the loop that reads the letters from `s[j]` on, stopping after 15. */
    method ReadLetters(ghost s: string, ghost j: nat, ghost line0: int, ghost col0: int) returns (next: string)
      requires At(s, j, line0, col0)
      modifies this
      ensures |next| == Min(Span(Letters, s[j..]), PeekWordCap) && j + |next| <= |s| && next == s[j..j + |next|]
      ensures |next| < PeekWordCap ==> Near(s, j + |next|, line0, col0)
      ensures |next| == PeekWordCap ==> At(s, j + |next|, line0, col0)
    {
      next := [];
      ghost var k := j;
      while true
        invariant j <= k <= |s| && k == j + |next| && At(s, k, line0, col0) && next == s[j..k]
        invariant Span(Letters, s[j..]) >= k - j && |next| < PeekWordCap
        decreases |s| - k
      {
        var more;
        next, more := ReadLetter(s, j, k, next, line0, col0);
        if !more {
          break;
        }
        k := k + 1;
        if |next| >= PeekWordCap {
          break;
        }
      }
    }

    /** One pass of that loop: read `s[k]` if it is a letter, else only look at it. */
    method ReadLetter(ghost s: string, ghost j: nat, ghost k: nat, next: string, ghost line0: int, ghost col0: int)
      returns (next': string, more: bool)
      requires j <= k <= |s| && At(s, k, line0, col0) && next == s[j..k] && Span(Letters, s[j..]) >= k - j
      modifies this
      ensures more ==> k < |s| && next' == s[j..k + 1] && At(s, k + 1, line0, col0) && Span(Letters, s[j..]) >= k + 1 - j
      ensures !more ==> next' == next && Span(Letters, s[j..]) == k - j && Near(s, k, line0, col0)
    {
      var nc := PeekAt(s, k, line0, col0);
      if nc.None? || !IsAlpha(nc.value) {
        SpanStop(Letters, s, j, k);
        return next, false;
      }
      nc := GetAt(s, k, line0, col0);
      SpanMore(Letters, s, j, k);
      assert s[j..k + 1] == next + [nc.value];
      return next + [nc.value], true;
    }

    /**
     * Lines 399-400: hand back the letters of `next`, last first, then
     * `count` spaces.  Each of them steps the column back, never below 0.
     */
    method Unread(next: string, count: nat)
      requires Valid() && forall i :: 0 <= i < |next| ==> next[i] != '\n'
      modifies this
      ensures Valid() && Rest() == Spaces(count) + next + old(Rest()) && line == old(line)
      ensures col == Max(0, old(col) - |next| - count)
    {
      UnreadLetters(next);
      UnreadSpaces(count);
    }

    /** Line 399: the letters of `next` handed back, last first. */
    method UnreadLetters(next: string)
      requires Valid() && forall i :: 0 <= i < |next| ==> next[i] != '\n'
      modifies this
      ensures Valid() && Rest() == next + old(Rest()) && line == old(line)
      ensures col == Max(0, old(col) - |next|)
    {
      var i := |next|;
      while i > 0
        invariant 0 <= i <= |next| && Valid() && Rest() == next[i..] + old(Rest()) && line == old(line)
        invariant col == Max(0, old(col) - (|next| - i))
      {
        i := i - 1;
        Ungetch(Some(next[i]));
        assert [next[i]] + next[i + 1..] == next[i..];
      }
    }

    /** Line 400: `count` spaces handed back. */
    method UnreadSpaces(count: nat)
      requires Valid()
      modifies this
      ensures Valid() && Rest() == Spaces(count) + old(Rest()) && line == old(line)
      ensures col == Max(0, old(col) - count)
    {
      var i := 0;
      while i < count
        invariant 0 <= i <= count && Valid() && Rest() == Spaces(i) + old(Rest()) && line == old(line)
        invariant col == Max(0, old(col) - i)
      {
        Ungetch(Some(' '));
        assert [' '] + Spaces(i) == Spaces(i + 1);
        i := i + 1;
      }
    }
  }

  // One step of the string literal loop, on the text `s` at position `k`.

  lemma StrScanLoneBackslash(s: string, k: nat, buf: string)
    requires k + 1 == |s| && s[k] == '\\'
    ensures StrScan(s[k..], buf) == StrLit(buf, false, 1)
  {
  }

  lemma StrScanEscape(s: string, k: nat, buf: string, buf': string)
    requires k + 1 < |s| && s[k] == '\\'
    requires buf' == if |buf| < StringPairCap then buf + ['\\', s[k + 1]] else buf
    ensures var l := StrScan(s[k + 2..], buf'); StrScan(s[k..], buf) == StrLit(l.buf, l.closed, l.len + 2)
  {
    assert s[k..][2..] == s[k + 2..];
  }

  lemma StrScanQuote(s: string, k: nat, buf: string)
    requires k < |s| && s[k] == '"'
    ensures StrScan(s[k..], buf) == StrLit(buf, true, 1)
  {
  }

  lemma StrScanPlain(s: string, k: nat, buf: string, buf': string)
    requires k < |s| && s[k] != '\\' && s[k] != '"'
    requires buf' == if |buf| < StringCap then buf + [s[k]] else buf
    ensures var l := StrScan(s[k + 1..], buf'); StrScan(s[k..], buf) == StrLit(l.buf, l.closed, l.len + 1)
  {
    assert s[k..][1..] == s[k + 1..];
  }
}
