// Token kinds, tokens and the character classes the lexer tests with.

module Tokens {

  /** The closed set of token kinds of the translator. `Equal` is declared
      but no stage ever produces it. */
  datatype TokenType =
    | Int | Identifier | Number | Assign
    | Plus | Minus | If | Equal | LBrace | RBrace
    | Semicolon | Eof | Unknown

  /** A token: its kind and the exact text it was made from. */
  datatype Token = Token(kind: TokenType, text: string)

  /** The end-of-stream token the lexer appends and the parser's accessors
      return past the end. */
  const EofToken: Token := Token(Eof, "EOF")

  // The C library classification functions in the C locale, restricted to
  // ASCII, defined by character ranges.

  /** `isspace` */
  predicate IsSpace(c: char) { c == ' ' || ('\t' <= c <= '\r') }

  /** `isdigit` */
  predicate IsDigit(c: char) { '0' <= c <= '9' }

  /** `isalpha` */
  predicate IsAlpha(c: char) { 'a' <= c <= 'z' || 'A' <= c <= 'Z' }

  /** `isalnum` */
  predicate IsAlnum(c: char) { IsAlpha(c) || IsDigit(c) }

  /** The ranges are exactly the characters the C standard lists for each
      class: `isspace` holds for space, tab, newline, vertical tab, form
      feed and carriage return only. */
  lemma SpaceClass(c: char)
    ensures IsSpace(c) <==> c in {' ', '\t', '\n', '\U{B}', '\U{C}', '\r'}
  {
  }

  /** `isdigit` holds for the ten decimal digits only. */
  lemma DigitClass(c: char)
    ensures IsDigit(c) <==> c in "0123456789"
  {
  }

  /** `isalpha` holds for the 52 Latin letters only. */
  lemma AlphaClass(c: char)
    ensures IsAlpha(c) <==> c in "abcdefghijklmnopqrstuvwxyz" || c in "ABCDEFGHIJKLMNOPQRSTUVWXYZ"
  {
  }

  /** The word, number,
      space and operator classes the lexer tests in turn do not overlap
      except that every digit is alphanumeric. */
  lemma ClassesDisjoint(c: char)
    ensures !(IsAlpha(c) && IsDigit(c))
    ensures IsAlnum(c) ==> !IsSpace(c) && !IsPunct(c)
    ensures IsSpace(c) ==> !IsPunct(c)
  {
  }

  /** A non-empty letter-led run of letters and digits. */
  predicate IsWord(w: string) {
    |w| > 0 && IsAlpha(w[0]) && forall k :: 0 <= k < |w| ==> IsAlnum(w[k])
  }

  /** A non-empty run of decimal digits. */
  predicate IsNumeral(w: string) {
    |w| > 0 && forall k :: 0 <= k < |w| ==> IsDigit(w[k])
  }

  /** The characters with a token kind of their own. */
  predicate IsPunct(c: char) {
    c == '=' || c == '+' || c == '-' || c == '{' || c == '}' || c == ';'
  }

  /** The texts of a token sequence, in order. */
  function Texts(ts: seq<Token>): seq<string>
  {
    seq(|ts|, k requires 0 <= k < |ts| => ts[k].text)
  }

  /** All token texts written one after another. */
  function Flatten(ts: seq<Token>): string
  {
    if ts == [] then [] else ts[0].text + Flatten(ts[1..])
  }
}
