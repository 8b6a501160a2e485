/**
 * The token vocabulary of the SIMPLE lexer (simple_lex.c): symbol kinds,
 * the records kept in the symbol table and the error list, the capacities
 * of those tables, and the previous-token context that decides whether a
 * `+` or `-` is unary.
 */
module Tokens {
  import opened CStrings

  /** Capacity of a stored lexeme, terminator included (MAX_LEX). */
  const MaxLex := 1024
  /** Capacity of the symbol table (MAX_SYMBOLS). */
  const MaxSymbols := 20000
  /** Capacity of the error list (MAX_ERRORS). */
  const MaxErrors := 1024
  /** Capacity of prev_lexeme, terminator included. */
  const PrevLexSize := 128

  /** SymType, in the order of its C declaration; T_UNKNOWN is never produced. */
  datatype SymType =
    | Newline | Whitespace | Comment | StringLit | Number
    | Datatype | Keyword | Reserved | Noise | Identifier
    | UnaryOp | ExpOp | AssignOp | RelOp | LogicalOp | ArithOp
    | Colon | Comma | LParen | RParen | LBracket | RBracket
    | LexicalError | Unknown

  /** One row of the symbol table. */
  datatype Symbol = Symbol(lex: string, kind: SymType, line: int, col: int)

  /** One row of the error list. */
  datatype LexError = LexError(lex: string, line: int, col: int)

  /** A token as the scanner hands it to add_symbol, before it is stored. */
  datatype Tok = Tok(lex: string, kind: SymType, line: int, col: int)

  /** prev_type and prev_lexeme. */
  datatype Context = Context(prevType: SymType, prevLexeme: string)

  /** The context at the start of the input: as after a newline, with an empty lexeme. */
  const StartContext := Context(Newline, "")

  /** What `strncpy` into a buffer of `size` characters followed by a terminator keeps of `lex`. */
  function Keep(lex: string, size: nat): (r: string)
    requires size >= 1
    ensures |r| <= size - 1 && NUL !in r && r <= CStr(lex)
    ensures |CStr(lex)| <= size - 1 ==> r == CStr(lex)
    ensures |CStr(lex)| > size - 1 ==> |r| == size - 1
  {
    Truncate(CStr(lex), size - 1)
  }

  /** The lexeme a symbol or error record keeps. */
  function Stored(lex: string): (r: string)
    ensures |r| < MaxLex && NUL !in r
    ensures r <= CStr(lex) && |r| == if |CStr(lex)| < MaxLex then |CStr(lex)| else MaxLex - 1
  {
    Keep(lex, MaxLex)
  }

  function ToSymbol(t: Tok): Symbol {
    Symbol(Stored(t.lex), t.kind, t.line, t.col)
  }

  function ToError(t: Tok): LexError {
    LexError(Stored(t.lex), t.line, t.col)
  }

  /** Appending to a fixed-capacity table: a row that does not fit is dropped. */
  function AddCapped<T>(xs: seq<T>, x: T, cap: nat): (r: seq<T>)
    ensures |xs| < cap ==> r == xs + [x]
    ensures |xs| >= cap ==> r == xs
  {
    if |xs| < cap then xs + [x] else xs
  }

  /** Whitespace, newline and comment tokens leave the previous-token context alone. */
  predicate IsLayout(kind: SymType) {
    kind == Whitespace || kind == Newline || kind == Comment
  }

  /**
   * update_prev_token: the kind and at most 127 characters of the lexeme
   * (an empty lexeme clears prev_lexeme).
   */
  function Remember(lex: string, kind: SymType): (ctx: Context)
    ensures ctx.prevType == kind
    ensures |ctx.prevLexeme| < PrevLexSize && ctx.prevLexeme <= CStr(lex)
    ensures ctx.prevLexeme == [] <==> lex == [] || lex[0] == NUL
  {
    Context(kind, Keep(lex, PrevLexSize))
  }

  /** The context after add_symbol of a token. */
  function UpdateContext(ctx: Context, t: Tok): (r: Context)
    ensures IsLayout(t.kind) ==> r == ctx
    ensures !IsLayout(t.kind) ==> r == Remember(t.lex, t.kind)
  {
    if IsLayout(t.kind) then ctx else Remember(t.lex, t.kind)
  }

  /** The datatype names is_datatype checks, in its order. */
  const DatatypeNames: seq<string> := ["int", "float", "char", "bool", "array"]

  /**
   * prev_allows_unary: a `+` or `-` is unary at the start, after an operator,
   * a colon, a comma or an opening bracket, and after a token whose lexeme
   * is empty.
   */
  predicate PrevAllowsUnary(ctx: Context) {
    ctx.prevType in {Newline, AssignOp, ArithOp, RelOp, LogicalOp, UnaryOp, Colon, Comma, LParen, LBracket}
    || ctx.prevLexeme == [] || ctx.prevLexeme[0] == NUL
  }
}
