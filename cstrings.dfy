/**
 * C-string and <ctype.h> vocabulary shared by the keyword matcher and the
 * scanner.  Characters are single bytes of the source file; the character
 * classification functions are those of the "C" locale (plain ASCII).
 */
module CStrings {

  datatype Option<+T> = None | Some(value: T)

  /** The terminator of a C string. */
  const NUL: char := 0 as char

  /** `s[i]` as C reads it: past the end of the text there is only the terminator. */
  function At(s: seq<char>, i: nat): (c: char)
    ensures i < |s| ==> c == s[i]
  {
    if i < |s| then s[i] else NUL
  }

  /** Length of the C string held in `s`: the characters before the first NUL (`strlen`). */
  function CLen(s: seq<char>): (n: nat)
    ensures n <= |s|
    ensures forall i :: 0 <= i < n ==> s[i] != NUL
    ensures n < |s| ==> s[n] == NUL
  {
    if s == [] || s[0] == NUL then 0 else 1 + CLen(s[1..])
  }

  /** The C string held in `s`. */
  function CStr(s: seq<char>): (r: seq<char>)
    ensures NUL !in r
    ensures r <= s
  {
    s[..CLen(s)]
  }

  /** At most `n` characters of `s`, as `strncpy` into a buffer of `n + 1` keeps them. */
  function Truncate(s: seq<char>, n: nat): (r: seq<char>)
    ensures |r| == if |s| <= n then |s| else n
    ensures r <= s
  {
    if |s| <= n then s else s[..n]
  }

  predicate IsUpper(c: char) { 'A' <= c <= 'Z' }
  predicate IsLower(c: char) { 'a' <= c <= 'z' }
  predicate IsAlpha(c: char) { IsUpper(c) || IsLower(c) }
  predicate IsDigit(c: char) { '0' <= c <= '9' }
  predicate IsAlnum(c: char) { IsAlpha(c) || IsDigit(c) }
  predicate IsBlank(c: char) { c == ' ' || c == '\t' }

  /** `tolower` of the "C" locale. */
  function ToLower(c: char): (r: char)
    ensures IsUpper(c) ==> IsLower(r) && r as int == c as int + 32
    ensures !IsUpper(c) ==> r == c
  {
    if IsUpper(c) then (c as int + 32) as char else c
  }

  /** `tolower` applied to every character. */
  function Lower(s: seq<char>): (r: seq<char>)
    ensures |r| == |s|
    ensures forall i :: 0 <= i < |s| ==> r[i] == ToLower(s[i])
  {
    seq(|s|, i requires 0 <= i < |s| => ToLower(s[i]))
  }

  lemma LowerIdempotent(s: seq<char>)
    ensures Lower(Lower(s)) == Lower(s)
  {
  }

  /** A text without a terminator is its own C string. */
  lemma CStrWhole(s: seq<char>)
    requires NUL !in s
    ensures CStr(s) == s
  {
    assert forall i :: 0 <= i < |s| ==> s[i] != NUL;
  }

  /** Lowering keeps the terminator where it was. */
  lemma CLenLower(s: seq<char>)
    ensures CLen(Lower(s)) == CLen(s)
  {
    var n, m := CLen(s), CLen(Lower(s));
    assert forall i :: 0 <= i < n ==> Lower(s)[i] != NUL;
    assert n < |s| ==> Lower(s)[n] == NUL;
  }
}
