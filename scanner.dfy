/**
 * The lexer of simple_lex.c: the symbol table, the error list and the
 * previous-token context it fills (simple_lex.c:40-93), and the scan loop
 * of main (simple_lex.c:233-517), each branch proved to do what ScanSpec
 * says one pass of the loop does.
 */
module Scanner {
  import opened CStrings
  import opened Tokens
  import opened ScanSpec
  import opened Cursors
  import Lookup
  import KeywordTable

  class Lexer {
    /** infile, cur_line and cur_col. */
    const cur: Cursor
    /** symtab[0..symcount). */
    var symtab: seq<Symbol>
    /** errors[0..errcount). */
    var errors: seq<LexError>
    var prevType: SymType
    var prevLexeme: string

    ghost predicate Valid()
      reads this, cur
    {
      cur.Valid() && |symtab| <= MaxSymbols && |errors| <= MaxErrors
    }

    function Ctx(): Context
      reads this
    {
      Context(prevType, prevLexeme)
    }

    /** The scanning state between two passes of the loop. */
    ghost function Now(): State
      reads this, cur
      requires cur.Valid()
    {
      State(cur.Rest(), cur.line, cur.col, Ctx())
    }

    /** The cursor has read the first `k` characters of `st.rest` and no token has been added since. */
    ghost predicate Read(st: State, k: nat)
      reads this, cur
    {
      cur.At(st.rest, k, st.line, st.col) && Ctx() == st.ctx
    }

    /** The token `t` was added to the tables that were `symtab0` and `errors0`. */
    ghost predicate Added(t: Tok, symtab0: seq<Symbol>, errors0: seq<LexError>)
      reads this
    {
      && symtab == AddCapped(symtab0, ToSymbol(t), MaxSymbols)
      && errors == if t.kind == LexicalError then AddCapped(errors0, ToError(t), MaxErrors) else errors0
    }

    /**
     * The cursor and the context stand where `st` says.  The column may
     * differ only in front of a newline, where no token depends on it.
     */
    ghost predicate Matches(st: State)
      reads this, cur
      requires cur.Valid()
    {
      && cur.Rest() == st.rest
      && cur.line == st.line
      && (cur.col == st.col || (st.rest != [] && st.rest[0] == '\n'))
      && Ctx() == st.ctx
    }

    /** The state after a pass is the one `r` describes, and its token was added to the tables that were `symtab0` and `errors0`. */
    ghost predicate Did(r: Scanned, symtab0: seq<Symbol>, errors0: seq<LexError>)
      reads this, cur
      requires cur.Valid()
    {
      Matches(r.after) && Added(r.tok, symtab0, errors0)
    }

    /** The set-up in main before the loop (simple_lex.c:226-231). */
    constructor (text: string)
      ensures Valid() && fresh(cur) && cur.input == text
      ensures Now() == Initial(text) && symtab == [] && errors == []
    {
      cur := new Cursor(text);
      symtab := [];
      errors := [];
      prevType := Newline;
      prevLexeme := [];
    }

    /** update_prev_token (simple_lex.c:60-68). */
    method UpdatePrevToken(lex: string, kind: SymType)
      modifies this
      ensures Ctx() == Remember(lex, kind)
      ensures symtab == old(symtab) && errors == old(errors)
    {
      prevType := kind;
      if lex != [] && lex[0] != NUL {
        prevLexeme := Keep(lex, PrevLexSize);
      } else {
        prevLexeme := [];
      }
    }

    /**
     * add_symbol (simple_lex.c:70-93): a row in the symbol table while there
     * is room, a row in the error list for an error while there is room, and
     * the context of every token that is not layout.
     */
    method AddSymbol(lex: string, kind: SymType, line: int, col: int)
      modifies this
      ensures Added(Tok(lex, kind, line, col), old(symtab), old(errors))
      ensures Ctx() == UpdateContext(old(Ctx()), Tok(lex, kind, line, col))
    {
      if |symtab| < MaxSymbols {
        symtab := symtab + [Symbol(Stored(lex), kind, line, col)];
      }
      if kind == LexicalError {
        if |errors| < MaxErrors {
          errors := errors + [LexError(Stored(lex), line, col)];
        }
      }
      if !IsLayout(kind) {
        UpdatePrevToken(lex, kind);
      }
    }

    /** add_symbol of the token read from the first `n` characters of the text: what `Emit` describes. */
    method AddToken(lex: string, kind: SymType, line: int, col: int, ghost st: State, ghost n: nat, ghost r: Scanned)
      requires Valid() && n <= |st.rest| && Ctx() == st.ctx
      requires cur.At(st.rest, n, st.line, st.col) || cur.Near(st.rest, n, st.line, st.col)
      requires r == Emit(st, n, Tok(lex, kind, line, col))
      modifies this
      ensures Valid() && Did(r, old(symtab), old(errors))
    {
      AddSymbol(lex, kind, line, col);
    }

    /** Lines 242-260: a run of blanks; `c`, the first of them, has been read. */
    method ScanWhitespace(c: char, ghost st: State)
      requires Valid() && Read(st, 1) && st.rest[0] == c && IsBlank(c)
      modifies this, cur
      ensures Valid() && Did(NextWhitespace(st), old(symtab), old(errors))
    {
      ReadFirst(st.rest, st.col);
      var startCol := cur.col;
      var buf, k := cur.ReadBlanks(c, st.rest, st.line, st.col);
      var start := startCol - (|buf| - 1);
      if start < 1 {
        start := 1;
      }
      WhitespaceStep(st, k, buf, cur.line, start);
      AddToken(buf, Whitespace, cur.line, start, st, k, NextWhitespace(st));
    }

    /** Lines 268-310: a line comment, a block comment, "/=" or a single '/'; the '/' has been read. */
    method ScanSlash(ghost st: State)
      requires Valid() && Read(st, 1) && st.rest[0] == '/'
      modifies this, cur
      ensures Valid() && Did(NextSlash(st), old(symtab), old(errors))
    {
      ReadFirst(st.rest, st.col);
      var startLine, startCol := cur.line, cur.col;
      assert startLine == st.line && startCol == st.col + 1;
      var nxt := cur.GetAt(st.rest, 1, st.line, st.col);
      if nxt == Some('/') {
        ScanLineComment(startLine, startCol, st);
      } else if nxt == Some('*') {
        ScanBlockComment(startLine, startCol, st);
      } else {
        SlashOperator(nxt, startLine, startCol, st);
      }
    }

    /** Lines 299-309: "/=" or a single '/'; the character `nxt` after the slash has been read. */
    method SlashOperator(nxt: Option<char>, startLine: int, startCol: int, ghost st: State)
      requires Valid() && st.rest != [] && st.rest[0] == '/' && nxt == (if |st.rest| > 1 then Some(st.rest[1]) else None)
      requires Read(st, if nxt.Some? then 2 else 1)
      requires nxt != Some('/') && nxt != Some('*') && startLine == st.line && startCol == st.col + 1
      modifies this, cur
      ensures Valid() && Did(NextSlash(st), old(symtab), old(errors))
    {
      if nxt == Some('=') {
        AddToken("/=", AssignOp, startLine, startCol, st, 2, NextSlash(st));
      } else {
        if nxt.Some? {
          cur.UngetAt(nxt, st.rest, 1, st.line, st.col);
        }
        AddToken("/", ArithOp, startLine, startCol, st, 1, NextSlash(st));
      }
    }

    /** Lines 270-281: a line comment; its two slashes have been read. */
    method ScanLineComment(startLine: int, startCol: int, ghost st: State)
      requires Valid() && Read(st, 2) && st.rest[..2] == "//" && startLine == st.line && startCol == st.col + 1
      modifies this, cur
      ensures Valid() && Did(NextSlash(st), old(symtab), old(errors))
    {
      var buf, m := cur.ReadLineComment(st.rest, st.line, st.col);
      AddToken(buf, Comment, startLine, startCol, st, if 2 + m < |st.rest| then 3 + m else 2 + m, NextSlash(st));
    }

    /** Lines 283-297: a block comment, or an error when the input ends first; its slash and star have been read. */
    method ScanBlockComment(startLine: int, startCol: int, ghost st: State)
      requires Valid() && Read(st, 2) && st.rest[..2] == "/*" && startLine == st.line && startCol == st.col + 1
      modifies this, cur
      ensures Valid() && Did(NextSlash(st), old(symtab), old(errors))
    {
      var buf, closed, n := cur.ReadBlockComment(st.rest, st.line, st.col);
      if !closed {
        AddToken(buf, LexicalError, startLine, startCol, st, n, NextSlash(st));
      } else {
        AddToken(buf, Comment, startLine, startCol, st, n, NextSlash(st));
      }
    }

    /** Lines 313-334: a string literal; the opening quote has been read. */
    method ScanString(ghost st: State)
      requires Valid() && Read(st, 1) && st.rest[0] == '"'
      modifies this, cur
      ensures Valid() && Did(NextString(st), old(symtab), old(errors))
    {
      ReadFirst(st.rest, st.col);
      var startLine, startCol := cur.line, cur.col;
      assert startLine == st.line && startCol == st.col + 1;
      var buf, closed, n := cur.ReadString(st.rest, st.line, st.col);
      var kind := if closed then StringLit else LexicalError;
      StringStep(st, n, buf, closed);
      AddToken(buf, kind, startLine, startCol, st, n, NextString(st));
    }

    /** Lines 336-352: a number; its first digit `c` has been read. */
    method ScanNumber(c: char, ghost st: State)
      requires Valid() && Read(st, 1) && st.rest[0] == c && IsDigit(c)
      modifies this, cur
      ensures Valid() && Did(NextNumber(st), old(symtab), old(errors))
    {
      ReadFirst(st.rest, st.col);
      var startLine, startCol := cur.line, cur.col;
      assert startLine == st.line && startCol == st.col + 1;
      var buf, n := cur.ReadNumber(c, st.rest, st.line, st.col);
      AddToken(buf, Number, startLine, startCol, st, n, NextNumber(st));
    }

    /** Lines 355-419: a word; its first character `c` has been read. */
    method ScanWord(c: char, ghost st: State)
      requires Valid() && Read(st, 1) && st.rest[0] == c && (IsAlpha(c) || c == '_')
      modifies this, cur
      ensures Valid() && Did(NextWord(st), old(symtab), old(errors))
    {
      ReadFirst(st.rest, st.col);
      var startLine, startCol := cur.line, cur.col;
      assert startLine == st.line && startCol == st.col + 1;
      var buf, n := cur.ReadWord(c, st.rest, st.line, st.col);
      assert NUL !in buf;
      EndWord(buf, startLine, startCol, st, n);
    }

    /** Lines 369-418: the word read is "to" before a blank, or a word of its own. */
    method EndWord(buf: string, startLine: int, startCol: int, ghost st: State, ghost n: nat)
      requires Valid() && Ctx() == st.ctx && startLine == st.line && startCol == st.col + 1
      requires st.rest != [] && (IsAlpha(st.rest[0]) || st.rest[0] == '_')
      requires n == 1 + Span(WordChars, st.rest[1..]) && buf == Truncate(st.rest[..n], WordCap) && NUL !in buf
      requires cur.Near(st.rest, n, st.line, st.col)
      modifies this, cur
      ensures Valid() && Did(NextWord(st), old(symtab), old(errors))
    {
      if buf == "to" {
        var wc := cur.PeekAt(st.rest, n, st.line, st.col);
        if wc.Some? && IsBlank(wc.value) {
          WordToDo(st, n, buf);
          ScanToDo(buf, startLine, startCol, st);
          return;
        }
      }
      WordStep(st, n, buf);
      AddWord(buf, startLine, startCol, st, n);
    }

    /** Lines 404-416: a word that is not "to do", added with the kind its lowered form gives it. */
    method AddWord(buf: string, startLine: int, startCol: int, ghost st: State, ghost n: nat)
      requires Valid() && n <= |st.rest| && Ctx() == st.ctx && NUL !in buf
      requires cur.Near(st.rest, n, st.line, st.col) && startLine == st.line && startCol == st.col + 1
      modifies this
      ensures Valid() && Did(Emit(st, n, TokAt(st, buf, Classify(buf))), old(symtab), old(errors))
    {
      var kind := ClassifyWord(buf);
      AddToken(buf, kind, startLine, startCol, st, n, Emit(st, n, TokAt(st, buf, Classify(buf))));
    }

    /**
     * Lines 369-401: "to" followed by a blank.  The blanks and up to 15
     * letters are read; "do" makes the keyword "to do", anything else is
     * handed back, the blanks as spaces, and "to" is classified alone.
     */
    method ScanToDo(buf: string, startLine: int, startCol: int, ghost st: State)
      requires Valid() && Ctx() == st.ctx && startLine == st.line && startCol == st.col + 1
      requires |st.rest| > 2 && buf == st.rest[..2] == "to" && IsBlank(st.rest[2]) && cur.At(st.rest, 2, st.line, st.col)
      modifies this, cur
      ensures Valid() && Did(NextToDo(st), old(symtab), old(errors))
    {
      var count := cur.SkipBlanks(st.rest, 2, st.line, st.col);
      EndToDo(buf, count, startLine, startCol, st);
    }

    /** Lines 381-401: the letters after "to" and its blanks decide between "to do" and "to" alone. */
    method EndToDo(buf: string, count: nat, startLine: int, startCol: int, ghost st: State)
      requires Valid() && Ctx() == st.ctx && startLine == st.line && startCol == st.col + 1
      requires |st.rest| > 2 && buf == st.rest[..2] == "to" && IsBlank(st.rest[2])
      requires count == Span(Blanks, st.rest[2..]) && cur.Near(st.rest, 2 + count, st.line, st.col)
      modifies this, cur
      ensures Valid() && Did(NextToDo(st), old(symtab), old(errors))
    {
      var next := cur.PeekWord(st.rest, 2 + count, st.line, st.col);
      if next == "do" {
        assert |next| == 2 < PeekWordCap;
        MergeToDo(next, count, startLine, startCol, st);
      } else {
        ToAlone(buf, next, count, startLine, startCol, st);
      }
    }

    /** Lines 393-397: "to", its blanks and "do" make the keyword "to do". */
    method MergeToDo(next: string, count: nat, startLine: int, startCol: int, ghost st: State)
      requires Valid() && Ctx() == st.ctx && startLine == st.line && startCol == st.col + 1
      requires |st.rest| > 2 && st.rest[..2] == "to" && IsBlank(st.rest[2])
      requires count == Span(Blanks, st.rest[2..]) && |next| == Min(Span(Letters, st.rest[2 + count..]), PeekWordCap)
      requires 2 + count + |next| <= |st.rest| && next == st.rest[2 + count..2 + count + |next|]
      requires cur.Near(st.rest, 2 + count + |next|, st.line, st.col)
      requires next == "do"
      modifies this
      ensures Valid() && Did(NextToDo(st), old(symtab), old(errors))
    {
      ToDoMerged(st, count, next);
      AddToken("to do", Keyword, startLine, startCol, st, 2 + count + 2, Emit(st, 2 + count + 2, TokAt(st, "to do", Keyword)));
    }

    /** Lines 399-416: anything but "do" after "to" and its blanks is handed back, and "to" is classified alone. */
    method ToAlone(buf: string, next: string, count: nat, startLine: int, startCol: int, ghost st: State)
      requires Valid() && Ctx() == st.ctx && startLine == st.line && startCol == st.col + 1
      requires |st.rest| > 2 && buf == st.rest[..2] == "to" && IsBlank(st.rest[2]) && next != "do"
      requires count == Span(Blanks, st.rest[2..]) && |next| == Min(Span(Letters, st.rest[2 + count..]), PeekWordCap)
      requires 2 + count + |next| <= |st.rest| && next == st.rest[2 + count..2 + count + |next|]
      requires |next| < PeekWordCap ==> cur.Near(st.rest, 2 + count + |next|, st.line, st.col)
      requires |next| == PeekWordCap ==> cur.At(st.rest, 2 + count + |next|, st.line, st.col)
      modifies this, cur
      ensures Valid() && Did(NextToDo(st), old(symtab), old(errors))
    {
      assert st.rest[0] == buf[0] == 't' && st.rest[1] == buf[1] == 'o' && NUL !in buf;
      ToDoBack(st, count, next);
      HandBack(buf, next, count, startLine, startCol, st);
    }

    /** Lines 399-416: the letters and blanks handed back, then the word `buf` classified alone. */
    method HandBack(buf: string, next: string, count: nat, startLine: int, startCol: int, ghost st: State)
      requires Valid() && Ctx() == st.ctx && startLine == st.line && startCol == st.col + 1
      requires |st.rest| > 2 && buf == st.rest[..2] && NUL !in buf && st.rest[0] != '\n' && st.rest[1] != '\n'
      requires count == Span(Blanks, st.rest[2..]) && |next| == Min(Span(Letters, st.rest[2 + count..]), PeekWordCap)
      requires 2 + count + |next| <= |st.rest| && next == st.rest[2 + count..2 + count + |next|]
      requires |next| < PeekWordCap ==> cur.Near(st.rest, 2 + count + |next|, st.line, st.col)
      requires |next| == PeekWordCap ==> cur.At(st.rest, 2 + count + |next|, st.line, st.col)
      modifies this, cur
      ensures Valid()
      ensures var tok := TokAt(st, buf, Classify(buf));
        var stopped := |next| < PeekWordCap && 2 + count + |next| < |st.rest| && st.rest[2 + count + |next|] == '\n';
        && cur.Rest() == Spaces(count) + st.rest[2 + count..] && cur.line == st.line
        && cur.col == (if stopped then 0 else st.col + 2) && Ctx() == UpdateContext(st.ctx, tok)
        && Added(tok, old(symtab), old(errors))
    {
      GiveBack(next, count, st);
      AddAlone(buf, startLine, startCol, st);
    }

    /** Lines 399-400: the letters read ahead and the blanks before them are handed back. */
    method GiveBack(next: string, count: nat, ghost st: State)
      requires cur.Valid() && |st.rest| > 2 && st.rest[0] != '\n' && st.rest[1] != '\n'
      requires count == Span(Blanks, st.rest[2..]) && |next| == Min(Span(Letters, st.rest[2 + count..]), PeekWordCap)
      requires 2 + count + |next| <= |st.rest| && next == st.rest[2 + count..2 + count + |next|]
      requires |next| < PeekWordCap ==> cur.Near(st.rest, 2 + count + |next|, st.line, st.col)
      requires |next| == PeekWordCap ==> cur.At(st.rest, 2 + count + |next|, st.line, st.col)
      modifies cur
      ensures cur.Valid()
      ensures var stopped := |next| < PeekWordCap && 2 + count + |next| < |st.rest| && st.rest[2 + count + |next|] == '\n';
        && cur.Rest() == Spaces(count) + st.rest[2 + count..] && cur.line == st.line
        && cur.col == (if stopped then 0 else st.col + 2)
    {
      ToDoAhead(st.rest, st.col, count, next);
      Rollback(next, count, st.rest, 2 + count + |next|, st.line, st.col);
    }

    /** Lines 404-416: the word `buf`, classified and added; the cursor is left alone. */
    method AddAlone(buf: string, startLine: int, startCol: int, ghost st: State)
      requires Ctx() == st.ctx && startLine == st.line && startCol == st.col + 1 && NUL !in buf
      modifies this
      ensures var tok := TokAt(st, buf, Classify(buf));
        Ctx() == UpdateContext(st.ctx, tok) && Added(tok, old(symtab), old(errors))
    {
      var kind := ClassifyWord(buf);
      AddSymbol(buf, kind, startLine, startCol);
    }

    /**
     * Lines 399-400: the letters `next` read ahead and the `count` blanks
     * before them are handed back; the cursor had read `k` characters of `s`.
     */
    method Rollback(next: string, count: nat, ghost s: string, ghost k: nat, ghost line: int, ghost col: int)
      requires count + |next| <= k <= |s| && next == s[k - |next|..k]
      requires Newlines(s, k) == 0 && Advance(col, s, k) == col + k
      requires forall i :: 0 <= i < |next| ==> next[i] != '\n'
      requires |next| <= PeekWordCap
      requires |next| < PeekWordCap ==> cur.Near(s, k, line, col)
      requires |next| == PeekWordCap ==> cur.At(s, k, line, col)
      modifies cur
      ensures cur.Valid()
      ensures var stopped := |next| < PeekWordCap && k < |s| && s[k] == '\n';
        && cur.Rest() == Spaces(count) + s[k - |next|..] && cur.line == line
        && cur.col == (if stopped then 0 else col + k - |next| - count)
    {
      LookedAhead(cur, s, k, next, PeekWordCap, line, col);
      cur.Unread(next, count);
    }
    /** Lines 421-516: an operator, a delimiter, or any other character as an error; `c` has been read. */
    method ScanOperator(c: char, ghost st: State)
      requires Valid() && Read(st, 1) && st.rest[0] == c && c != '\n'
      modifies this, cur
      ensures Valid() && Did(NextOperator(st), old(symtab), old(errors))
    {
      ReadFirst(st.rest, st.col);
      var startLine, startCol := cur.line, cur.col;
      assert startLine == st.line && startCol == st.col + 1;
      var nxt := cur.PeekAt(st.rest, 1, st.line, st.col);
      var pair := if nxt.Some? then PairKind(c, nxt.value) else None;
      if pair.Some? {
        OperatorPair(st);
        var two := [c, nxt.value];
        assert two == st.rest[..2];
        TakePair(two, pair.value, startLine, startCol, st, NextOperator(st));
      } else {
        OperatorSingle(st);
        var kind := SingleKind(c, Ctx());
        AddToken([c], kind, startLine, startCol, st, 1, NextOperator(st));
      }
    }

    /** A two-character operator: getch twice, which reads the character after it as well. */
    method TakePair(two: string, kind: SymType, startLine: int, startCol: int, ghost st: State, ghost r: Scanned)
      requires Valid() && Ctx() == st.ctx && |st.rest| > 1 && two == st.rest[..2] && two[1] != '\n'
      requires cur.Near(st.rest, 1, st.line, st.col)
      requires r == Emit(st, Min(3, |st.rest|), Tok(two, kind, startLine, startCol))
      modifies this, cur
      ensures Valid() && Did(r, old(symtab), old(errors))
    {
      var _ := cur.GetAt(st.rest, 1, st.line, st.col);
      var _ := cur.GetAt(st.rest, 2, st.line, st.col);
      AddToken(two, kind, startLine, startCol, st, Min(3, |st.rest|), r);
    }

    /** One pass of the loop of main (lines 233-517) on the character `c` just read. */
    method ScanToken(c: char, ghost st: State)
      requires Valid() && Read(st, 1) && st.rest[0] == c
      modifies this, cur
      ensures Valid() && Did(Next(st), old(symtab), old(errors))
    {
      if c == '\n' {
        ReadFirst(st.rest, st.col);
        AddToken("\\n", Newline, cur.line - 1, 1, st, 1, Next(st));
      } else if c == ' ' || c == '\t' {
        ScanWhitespace(c, st);
      } else if c == '/' {
        ScanSlash(st);
      } else if c == '"' {
        ScanString(st);
      } else if IsDigit(c) {
        ScanNumber(c, st);
      } else if IsAlpha(c) || c == '_' {
        ScanWord(c, st);
      } else {
        ScanOperator(c, st);
      }
    }

    /**
     * One pass of the loop of main (lines 233-517): getch, and the token
     * the character read starts, unless the input has ended.
     */
    method Pass(ghost todo: State) returns (more: bool, ghost after: State)
      requires Valid() && Matches(todo)
      modifies this, cur
      ensures Valid() && Matches(after)
      ensures !more ==> todo.rest == [] && after == todo && symtab == old(symtab) && errors == old(errors)
      ensures more ==> |after.rest| < |todo.rest|
      ensures more ==> RecordAll(Tables(old(symtab), old(errors)), Lex(todo)) == RecordAll(Tables(symtab, errors), Lex(after))
    {
      ghost var st := Now();
      assert st.rest[..0] == [] && st.rest[0..] == st.rest;
      var c := cur.GetAt(st.rest, 0, st.line, st.col);
      if c.None? {
        return false, todo;
      }
      ghost var tb := Tables(symtab, errors);
      ScanToken(c.value, st);
      if st.col != todo.col {
        NextAtNewline(todo.rest, todo.line, st.col, todo.col, todo.ctx);
      }
      LexStep(todo);
      assert ([Next(todo).tok] + Lex(Next(todo).after))[1..] == Lex(Next(todo).after);
      return true, Next(todo).after;
    }

    /**
     * The loop of main (lines 233-517): one pass per token until the input
     * ends.  The tables are then those of the whole input.
     */
    method Analyze()
      requires Valid() && Now() == Initial(cur.input) && symtab == [] && errors == []
      modifies this, cur
      ensures symtab == SymbolTable(cur.input) && errors == ErrorList(cur.input)
    {
      ghost var todo := Now();
      ghost var total := RecordAll(Tables([], []), Lex(todo));
      while true
        invariant Valid() && Matches(todo)
        invariant RecordAll(Tables(symtab, errors), Lex(todo)) == total
        decreases |todo.rest|
      {
        var more;
        more, todo := Pass(todo);
        if !more {
          break;
        }
      }
      RecordInput(cur.input);
    }
  }


  /** Where the cursor stands after `k` characters of `s` without a newline were read, the last `|next|` of them `next`. */
  lemma LookedAhead(cur: Cursor, s: string, k: nat, next: string, cap: nat, line: int, col: int)
    requires |next| <= k <= |s| && next == s[k - |next|..k] && Newlines(s, k) == 0 && Advance(col, s, k) == col + k
    requires |next| < cap ==> cur.Near(s, k, line, col)
    requires |next| == cap ==> cur.At(s, k, line, col)
    requires |next| <= cap
    ensures var stopped := |next| < cap && k < |s| && s[k] == '\n';
      && cur.Valid() && col >= 0 && cur.line == line
      && cur.Rest() == s[k..] && next + cur.Rest() == s[k - |next|..]
      && cur.col == (if stopped then 0 else col + k)
  {
    assert next + s[k..] == s[k - |next|..];
  }

  /**
   * The pass of main over a whole input, `text`, without the file and the
   * report: the symbol table and the error list it leaves.
   */
  method LexText(text: string) returns (symbols: seq<Symbol>, errs: seq<LexError>)
    ensures symbols == SymbolTable(text) && errs == ErrorList(text)
  {
    var lexer := new Lexer(text);
    lexer.Analyze();
    symbols, errs := lexer.symtab, lexer.errors;
  }

  /** is_datatype (simple_lex.c:186-192): whether `s` is one of the five datatype names. */
  method IsDatatype(s: string) returns (b: bool)
    ensures b <==> s in DatatypeNames
  {
    var i := 0;
    while i < |DatatypeNames|
      invariant 0 <= i <= |DatatypeNames|
      invariant forall j :: 0 <= j < i ==> DatatypeNames[j] != s
    {
      if s == DatatypeNames[i] {
        return true;
      }
      i := i + 1;
    }
    return false;
  }

  /** Lines 404-407: the lowered copy of a word (a word holds no NUL, so strlen is its length). */
  method LowerWord(w: string) returns (low: string)
    ensures low == Lower(w)
  {
    low := [];
    var i := 0;
    while i < |w|
      invariant 0 <= i <= |w| && low == Lower(w[..i])
    {
      assert w[..i + 1] == w[..i] + [w[i]];
      low := low + [ToLower(w[i])];
      i := i + 1;
    }
    assert w[..|w|] == w;
  }

  /** Lines 404-416: the kind of a word, decided on its lowered form. */
  method ClassifyWord(w: string) returns (kind: SymType)
    requires NUL !in w
    ensures kind == Classify(w)
  {
    var low := LowerWord(w);
    var kclass := Lookup.LookupKeyword(low);
    assert forall i :: 0 <= i < |low| ==> low[i] != NUL;
    KeywordTable.LookupWord(low);
    LowerIdempotent(w);
    var isType := IsDatatype(low);
    if isType {
      kind := Datatype;
    } else if kclass == 1 {
      kind := Keyword;
    } else if kclass == 2 {
      kind := Reserved;
    } else if kclass == 3 {
      kind := Noise;
    } else {
      kind := Identifier;
    }
  }
}
