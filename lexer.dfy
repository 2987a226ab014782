// The lexer: a cursor over the source text that groups characters into tokens.

module Lexing {
  import opened Tokens

  // ---------------------------------------------------------------------
  // Specification of the scan
  // ---------------------------------------------------------------------

  /** The end of the maximal run of letters and digits that starts at `i`. */
  function AlnumEnd(s: string, i: nat): (e: nat)
    requires i <= |s|
    ensures i <= e <= |s|
    ensures forall k :: i <= k < e ==> IsAlnum(s[k])
    ensures e == |s| || !IsAlnum(s[e])
    decreases |s| - i
  {
    if i < |s| && IsAlnum(s[i]) then AlnumEnd(s, i + 1) else i
  }

  /** The end of the maximal run of digits that starts at `i`. */
  function DigitEnd(s: string, i: nat): (e: nat)
    requires i <= |s|
    ensures i <= e <= |s|
    ensures forall k :: i <= k < e ==> IsDigit(s[k])
    ensures e == |s| || !IsDigit(s[e])
    decreases |s| - i
  {
    if i < |s| && IsDigit(s[i]) then DigitEnd(s, i + 1) else i
  }

  /** A letter-led run is a keyword when its text is exactly `int` or `if`;
      the token keeps the run as its text either way. */
  function WordToken(id: string): Token
  {
    if id == "int" then Token(Int, id)
    else if id == "if" then Token(If, id)
    else Token(Identifier, id)
  }

  /** The kind a character outside the letter, digit and space classes gets:
      one of its own for the six operator characters, `Unknown` otherwise. */
  function PunctKind(c: char): TokenType
  {
    match c
    case '=' => Assign
    case '+' => Plus
    case '-' => Minus
    case '{' => LBrace
    case '}' => RBrace
    case ';' => Semicolon
    case _ => Unknown
  }

  /** The one character each operator kind is written as. */
  function PunctChar(k: TokenType): char
  {
    match k
    case Assign => '='
    case Plus => '+'
    case Minus => '-'
    case LBrace => '{'
    case RBrace => '}'
    case Semicolon => ';'
    case _ => '\0'
  }

  /** A word token keeps its run as text; it is a keyword exactly when the
      run is spelled `int` or `if`, and an identifier otherwise. */
  lemma WordTokenKind(id: string)
    ensures WordToken(id).text == id && IsWordKind(WordToken(id).kind)
    ensures WordToken(id).kind == Int <==> id == "int"
    ensures WordToken(id).kind == If <==> id == "if"
  {
  }

  /** The six operator characters get a kind of their own, which is written
      as that character; every other character is `Unknown`. */
  lemma PunctKindChar(c: char)
    ensures PunctKind(c) == Unknown <==> !IsPunct(c)
    ensures PunctKind(c) != Unknown ==> PunctChar(PunctKind(c)) == c
  {
  }

  /** The token that starts at the non-space character `i`, and where the
      scan resumes after it. */
  function NextToken(s: string, i: nat): (r: (Token, nat))
    requires i < |s| && !IsSpace(s[i])
    ensures i < r.1 <= |s|
  {
    if IsAlpha(s[i]) then
      var e := AlnumEnd(s, i);
      (WordToken(s[i..e]), e)
    else if IsDigit(s[i]) then
      var e := DigitEnd(s, i);
      (Token(Number, s[i..e]), e)
    else
      (Token(PunctKind(s[i]), [s[i]]), i + 1)
  }

  /** The tokens the scan produces from position `i` to the end of `s`,
      without the closing end-of-stream token. */
  function ScanFrom(s: string, i: nat): (r: seq<Token>)
    requires i <= |s|
    ensures |r| <= |s| - i
    decreases |s| - i
  {
    if i == |s| then []
    else if IsSpace(s[i]) then ScanFrom(s, i + 1)
    else
      var (t, e) := NextToken(s, i);
      [t] + ScanFrom(s, e)
  }

  /** What `tokenize` returns for a lexer freshly built over `s`: never
      empty, it ends in the `EOF` token, holds no other end-of-stream
      token, has non-empty texts before it, and has at most one token per
      input character plus the closing one. */
  function Lex(s: string): (r: seq<Token>)
    ensures |r| >= 1 && r[|r| - 1] == EofToken && |r| <= |s| + 1
    ensures forall k :: 0 <= k < |r| - 1 ==> r[k].kind != Eof && r[k].text != []
  {
    ScanWellFormed(s, 0);
    ScanFrom(s, 0) + [EofToken]
  }

  // ---------------------------------------------------------------------
  // The lexer object
  // ---------------------------------------------------------------------

  class Lexer {
    const input: string
    var pos: nat

    ghost predicate Valid()
      reads this
    {
      pos <= |input|
    }

    constructor (source: string)
      ensures Valid() && input == source && pos == 0
    {
      input, pos := source, 0;
    }

    /** The character under the cursor, or NUL once the input is used up. */
    function Peek(): (c: char)
      reads this
      ensures pos < |input| ==> c == input[pos]
      ensures pos >= |input| ==> c == '\0'
    {
      if pos < |input| then input[pos] else '\0'
    }

    /** Returns the character under the cursor and moves past it; returns NUL
        and leaves the cursor alone once the input is used up. */
    method Get() returns (c: char)
      modifies this`pos
      ensures old(pos) < |input| ==> c == input[old(pos)] && pos == old(pos) + 1
      ensures old(pos) >= |input| ==> c == '\0' && pos == old(pos)
    {
      if pos < |input| {
        c := input[pos];
        pos := pos + 1;
      } else {
        c := '\0';
      }
    }

    /** The inner loop of the word case: `id += get()` while the character
        under the cursor is a letter or digit. */
    method ReadAlnumRun() returns (id: string)
      requires Valid()
      modifies this`pos
      ensures Valid() && pos == AlnumEnd(input, old(pos))
      ensures id == input[old(pos)..pos]
    {
      id := "";
      while IsAlnum(Peek())
        invariant old(pos) <= pos <= |input|
        invariant id == input[old(pos)..pos]
        invariant AlnumEnd(input, pos) == AlnumEnd(input, old(pos))
        decreases |input| - pos
      {
        var ch := Get();
        id := id + [ch];
      }
    }

    /** The inner loop of the number case: `num += get()` while the character
        under the cursor is a digit. */
    method ReadDigitRun() returns (num: string)
      requires Valid()
      modifies this`pos
      ensures Valid() && pos == DigitEnd(input, old(pos))
      ensures num == input[old(pos)..pos]
    {
      num := "";
      while IsDigit(Peek())
        invariant old(pos) <= pos <= |input|
        invariant num == input[old(pos)..pos]
        invariant DigitEnd(input, pos) == DigitEnd(input, old(pos))
        decreases |input| - pos
      {
        var ch := Get();
        num := num + [ch];
      }
    }

    /** Scans the rest of the input and appends the end-of-stream token. */
    method Tokenize() returns (tokens: seq<Token>)
      requires Valid()
      modifies this`pos
      ensures Valid() && pos == |input|
      ensures tokens == ScanFrom(input, old(pos)) + [EofToken]
    {
      ghost var start := pos;
      tokens := [];
      while pos < |input|
        invariant start <= pos <= |input|
        invariant tokens + ScanFrom(input, pos) == ScanFrom(input, start)
        decreases |input| - pos
      {
        ghost var p0, before := pos, tokens;
        var c := Peek();
        if IsSpace(c) {
          var _ := Get();
          continue;
        }

        if IsAlpha(c) {
          var id := ReadAlnumRun();
          if id == "int" {
            tokens := tokens + [Token(Int, id)];
          } else if id == "if" {
            tokens := tokens + [Token(If, id)];
          } else {
            tokens := tokens + [Token(Identifier, id)];
          }
          assert NextToken(input, p0) == (WordToken(id), pos);
          ScanStep(input, p0, before, WordToken(id), pos);
          continue;
        }

        if IsDigit(c) {
          var num := ReadDigitRun();
          tokens := tokens + [Token(Number, num)];
          assert NextToken(input, p0) == (Token(Number, num), pos);
          ScanStep(input, p0, before, Token(Number, num), pos);
          continue;
        }

        // the switch over the operator characters, one token per character
        var ch := Get();
        tokens := tokens + [Token(PunctKind(c), [ch])];
        ScanStep(input, p0, before, Token(PunctKind(c), [c]), pos);
      }
      tokens := tokens + [EofToken];
    }
  }

  /** Pushing the token that starts at `p0` and resuming at `p` accounts for
      the scan from `p0` on. */
  lemma ScanStep(s: string, p0: nat, before: seq<Token>, t: Token, p: nat)
    requires p0 < |s| && !IsSpace(s[p0])
    requires NextToken(s, p0) == (t, p)
    ensures (before + [t]) + ScanFrom(s, p) == before + ScanFrom(s, p0)
  {
    assert ScanFrom(s, p0) == [t] + ScanFrom(s, p);
  }

  // ---------------------------------------------------------------------
  // Properties of the scan
  // ---------------------------------------------------------------------

  /** What every token the scan produces looks like, kind by kind. */
  predicate WellFormed(t: Token)
  {
    match t.kind
    case Int => t.text == "int"
    case If => t.text == "if"
    case Identifier => IsWord(t.text) && t.text != "int" && t.text != "if"
    case Number => IsNumeral(t.text)
    case Assign => t.text == "="
    case Plus => t.text == "+"
    case Minus => t.text == "-"
    case LBrace => t.text == "{"
    case RBrace => t.text == "}"
    case Semicolon => t.text == ";"
    case Unknown =>
      |t.text| == 1 && !IsSpace(t.text[0]) && !IsAlnum(t.text[0]) && !IsPunct(t.text[0])
    case Equal => false
    case Eof => false
  }

  /** Every scanned token is well formed; in particular none is `Equal` or
      `Eof`, and every text is non-empty. */
  lemma {:induction false} ScanWellFormed(s: string, i: nat)
    requires i <= |s|
    ensures forall k :: 0 <= k < |ScanFrom(s, i)| ==> WellFormed(ScanFrom(s, i)[k])
    decreases |s| - i
  {
    if i < |s| {
      if IsSpace(s[i]) {
        ScanWellFormed(s, i + 1);
      } else if IsAlpha(s[i]) {
        var e := AlnumEnd(s, i);
        ScanWellFormed(s, e);
        assert IsWord(s[i..e]);
      } else if IsDigit(s[i]) {
        var e := DigitEnd(s, i);
        ScanWellFormed(s, e);
        assert IsNumeral(s[i..e]);
      } else {
        ScanWellFormed(s, i + 1);
      }
    }
  }

  /** The input from `i` on with its whitespace characters removed. */
  function Unspaced(s: string, i: nat): string
    requires i <= |s|
    decreases |s| - i
  {
    if i == |s| then []
    else if IsSpace(s[i]) then Unspaced(s, i + 1)
    else [s[i]] + Unspaced(s, i + 1)
  }

  lemma {:induction false} UnspacedRun(s: string, i: nat, e: nat)
    requires i <= e <= |s|
    requires forall k :: i <= k < e ==> !IsSpace(s[k])
    ensures Unspaced(s, i) == s[i..e] + Unspaced(s, e)
    decreases e - i
  {
    if i < e {
      assert !IsSpace(s[i]);
      UnspacedRun(s, i + 1, e);
      assert Unspaced(s, i) == [s[i]] + Unspaced(s, i + 1);
      assert s[i..e] == [s[i]] + s[i + 1..e];
    }
  }

  /** Text preservation: the scanned texts, written one after another, are
      exactly the input with its whitespace removed. */
  lemma {:induction false} ScanPreservesText(s: string, i: nat)
    requires i <= |s|
    ensures Flatten(ScanFrom(s, i)) == Unspaced(s, i)
    decreases |s| - i
  {
    if i < |s| {
      if IsSpace(s[i]) {
        ScanPreservesText(s, i + 1);
      } else if IsAlpha(s[i]) {
        var e := AlnumEnd(s, i);
        ScanPreservesText(s, e);
        UnspacedRun(s, i, e);
        var r := ScanFrom(s, e);
        assert ([WordToken(s[i..e])] + r)[1..] == r;
      } else if IsDigit(s[i]) {
        var e := DigitEnd(s, i);
        ScanPreservesText(s, e);
        UnspacedRun(s, i, e);
        var r := ScanFrom(s, e);
        assert ([Token(Number, s[i..e])] + r)[1..] == r;
      } else {
        ScanPreservesText(s, i + 1);
        var r := ScanFrom(s, i + 1);
        assert ([Token(PunctKind(s[i]), [s[i]])] + r)[1..] == r;
      }
    }
  }

  /** Where each scanned token starts in the input. */
  ghost function StartsFrom(s: string, i: nat): seq<nat>
    requires i <= |s|
    decreases |s| - i
  {
    if i == |s| then []
    else if IsSpace(s[i]) then StartsFrom(s, i + 1)
    else [i] + StartsFrom(s, NextToken(s, i).1)
  }

  predicate IsWordKind(k: TokenType) { k == Int || k == If || k == Identifier }

  /** The slice a run ends at: for a word no letter or digit follows it, for
      a number no digit does. */
  ghost predicate EndsRun(s: string, t: Token, e: nat)
    requires e <= |s|
  {
    (IsWordKind(t.kind) ==> e == |s| || !IsAlnum(s[e])) &&
    (t.kind == Number ==> e == |s| || !IsDigit(s[e]))
  }

  /** The token read at `i` is the input slice from `i` to where the scan
      resumes, and a word or number run stops only where it cannot go on. */
  lemma NextTokenSpan(s: string, i: nat)
    requires i < |s| && !IsSpace(s[i])
    ensures var (t, e) := NextToken(s, i);
      i + |t.text| == e && s[i..e] == t.text && EndsRun(s, t, e)
  {
  }

  /** The token at position `k` of the scan from `i` is the input slice at
      its start, and a word or number run stops only where it cannot go on. */
  ghost predicate SpanAt(s: string, i: nat, k: nat)
    requires i <= |s|
  {
    var ts, ps := ScanFrom(s, i), StartsFrom(s, i);
    k < |ts| && k < |ps| &&
    i <= ps[k] && ps[k] + |ts[k].text| <= |s| &&
    s[ps[k]..ps[k] + |ts[k].text|] == ts[k].text &&
    EndsRun(s, ts[k], ps[k] + |ts[k].text|)
  }

  /** Each scanned token is the input slice at its start position, and runs
      are maximal. */
  lemma {:induction false} ScanSpans(s: string, i: nat)
    requires i <= |s|
    ensures |StartsFrom(s, i)| == |ScanFrom(s, i)|
    ensures forall k :: 0 <= k < |ScanFrom(s, i)| ==> SpanAt(s, i, k)
    decreases |s| - i
  {
    if i < |s| {
      if IsSpace(s[i]) {
        ScanSpans(s, i + 1);
        ScanSkipsSpace(s, i);
        forall k | 0 <= k < |ScanFrom(s, i)| ensures SpanAt(s, i, k) {
          assert SpanAt(s, i + 1, k);
        }
      } else {
        var (t, e) := NextToken(s, i);
        NextTokenSpan(s, i);
        ScanSpans(s, e);
        var ts, ps := ScanFrom(s, e), StartsFrom(s, e);
        ScanTakesToken(s, i);
        assert StartsFrom(s, i) == [i] + ps;
        forall k | 0 <= k < |ScanFrom(s, i)| ensures SpanAt(s, i, k) {
          if k > 0 {
            assert SpanAt(s, e, k - 1);
          }
        }
      }
    }
  }

  /** The spans of the scan are in order and do not overlap. */
  lemma {:induction false} ScanOrdered(s: string, i: nat)
    requires i <= |s|
    ensures |StartsFrom(s, i)| == |ScanFrom(s, i)|
    ensures forall k :: 0 <= k < |StartsFrom(s, i)| ==> i <= StartsFrom(s, i)[k]
    ensures forall k :: 0 <= k < |ScanFrom(s, i)| - 1 ==>
      StartsFrom(s, i)[k] + |ScanFrom(s, i)[k].text| <= StartsFrom(s, i)[k + 1]
    decreases |s| - i
  {
    if i < |s| {
      if IsSpace(s[i]) {
        ScanOrdered(s, i + 1);
      } else {
        var (t, e) := NextToken(s, i);
        NextTokenSpan(s, i);
        ScanOrdered(s, e);
        var ts, ps := ScanFrom(s, e), StartsFrom(s, e);
        assert ScanFrom(s, i) == [t] + ts;
        assert StartsFrom(s, i) == [i] + ps;
        forall k | 0 <= k < |ScanFrom(s, i)| - 1
          ensures StartsFrom(s, i)[k] + |ScanFrom(s, i)[k].text| <= StartsFrom(s, i)[k + 1]
        {
          if k == 0 {
            assert e <= ps[0];
          } else {
            assert ps[k - 1] + |ts[k - 1].text| <= ps[k];
          }
        }
      }
    }
  }

  // ---------------------------------------------------------------------
  // Compositionality of the scan
  // ---------------------------------------------------------------------

  /** Runs are found the same way after any prefix. */
  lemma {:induction false} AlnumEndShift(p: string, t: string, j: nat)
    requires j <= |t|
    ensures AlnumEnd(p + t, |p| + j) == |p| + AlnumEnd(t, j)
    decreases |t| - j
  {
    if j < |t| && IsAlnum(t[j]) { AlnumEndShift(p, t, j + 1); }
  }

  lemma {:induction false} DigitEndShift(p: string, t: string, j: nat)
    requires j <= |t|
    ensures DigitEnd(p + t, |p| + j) == |p| + DigitEnd(t, j)
    decreases |t| - j
  {
    if j < |t| && IsDigit(t[j]) { DigitEndShift(p, t, j + 1); }
  }

  lemma NextTokenShift(p: string, t: string, j: nat)
    requires j < |t| && !IsSpace(t[j])
    ensures (p + t)[|p| + j] == t[j]
    ensures NextToken(p + t, |p| + j) == (NextToken(t, j).0, |p| + NextToken(t, j).1)
  {
    var s := p + t;
    assert s[|p| + j] == t[j];
    if IsAlpha(t[j]) {
      AlnumEndShift(p, t, j);
      var e := AlnumEnd(t, j);
      assert s[|p| + j..|p| + e] == t[j..e];
    } else if IsDigit(t[j]) {
      DigitEndShift(p, t, j);
      var e := DigitEnd(t, j);
      assert s[|p| + j..|p| + e] == t[j..e];
    }
  }

  /** One step of the scan at a whitespace character. */
  lemma ScanSkipsSpace(s: string, i: nat)
    requires i < |s| && IsSpace(s[i])
    ensures ScanFrom(s, i) == ScanFrom(s, i + 1)
  {
  }

  /** One step of the scan at the start of a token. */
  lemma ScanTakesToken(s: string, i: nat)
    requires i < |s| && !IsSpace(s[i])
    ensures ScanFrom(s, i) == [NextToken(s, i).0] + ScanFrom(s, NextToken(s, i).1)
  {
  }

  /** The scan from a position depends only on the text from there on. */
  lemma {:induction false} ScanShift(p: string, t: string, j: nat)
    requires j <= |t|
    ensures ScanFrom(p + t, |p| + j) == ScanFrom(t, j)
    decreases |t| - j
  {
    var s := p + t;
    if j < |t| {
      assert s[|p| + j] == t[j];
      if IsSpace(t[j]) {
        ScanShift(p, t, j + 1);
        ScanSkipsSpace(s, |p| + j);
        ScanSkipsSpace(t, j);
      } else {
        NextTokenShift(p, t, j);
        ScanShift(p, t, NextToken(t, j).1);
        ScanTakesToken(s, |p| + j);
        ScanTakesToken(t, j);
      }
    }
  }

  /** A run inside `a` stops at the end of `a` when what follows is no
      letter or digit. */
  lemma {:induction false} AlnumEndPrefix(a: string, c: string, i: nat)
    requires i <= |a|
    requires c == [] || !IsAlnum(c[0])
    ensures AlnumEnd(a + c, i) == AlnumEnd(a, i)
    decreases |a| - i
  {
    if i < |a| && IsAlnum(a[i]) { AlnumEndPrefix(a, c, i + 1); }
    else if i == |a| && c != [] { assert (a + c)[i] == c[0]; }
  }

  lemma {:induction false} DigitEndPrefix(a: string, c: string, i: nat)
    requires i <= |a|
    requires c == [] || !IsAlnum(c[0])
    ensures DigitEnd(a + c, i) == DigitEnd(a, i)
    decreases |a| - i
  {
    if i < |a| && IsDigit(a[i]) { DigitEndPrefix(a, c, i + 1); }
    else if i == |a| && c != [] { assert (a + c)[i] == c[0]; }
  }

  lemma NextTokenPrefix(a: string, c: string, i: nat)
    requires i < |a| && !IsSpace(a[i])
    requires c == [] || !IsAlnum(c[0])
    ensures (a + c)[i] == a[i]
    ensures NextToken(a + c, i) == NextToken(a, i)
  {
    AlnumEndPrefix(a, c, i);
    DigitEndPrefix(a, c, i);
    var e := NextToken(a, i).1;
    assert (a + c)[i..e] == a[i..e];
  }

  lemma {:induction false} ScanSplitFrom(a: string, c: string, i: nat)
    requires i <= |a|
    requires c == [] || !IsAlnum(c[0])
    ensures ScanFrom(a + c, i) == ScanFrom(a, i) + ScanFrom(c, 0)
    decreases |a| - i
  {
    if i == |a| {
      ScanShift(a, c, 0);
    } else {
      assert (a + c)[i] == a[i];
      if IsSpace(a[i]) {
        ScanSplitFrom(a, c, i + 1);
      } else {
        NextTokenPrefix(a, c, i);
        var (t, e) := NextToken(a, i);
        ScanSplitFrom(a, c, e);
        assert ScanFrom(a + c, i) == [t] + ScanFrom(a + c, e);
      }
    }
  }

  /** Scanning is compositional at a boundary where no letter or digit
      follows: the tokens of `a + c` are those of `a` followed by those of
      `c`. */
  lemma LexSplit(a: string, c: string)
    requires c == [] || !IsAlnum(c[0])
    ensures Lex(a + c) == ScanFrom(a, 0) + Lex(c)
  {
    ScanSplitFrom(a, c, 0);
  }

  // ---------------------------------------------------------------------
  // Properties of `tokenize`
  // ---------------------------------------------------------------------

  /** The non-EOF texts of `tokenize`, written one after another, give back
      the input without its whitespace. */
  lemma LexPreservesText(s: string)
    ensures Flatten(Lex(s)[..|Lex(s)| - 1]) == Unspaced(s, 0)
  {
    ScanPreservesText(s, 0);
    assert Lex(s)[..|Lex(s)| - 1] == ScanFrom(s, 0);
  }

  /** Classification of each token before the end: it is well formed (see
      `WellFormed`), it is a word token exactly when its text starts with a
      letter and a number exactly when its text starts with a digit. */
  lemma LexClassifies(s: string, k: nat)
    requires k < |Lex(s)| - 1
    ensures WellFormed(Lex(s)[k]) && Lex(s)[k].text != []
    ensures IsWordKind(Lex(s)[k].kind) <==> IsAlpha(Lex(s)[k].text[0])
    ensures Lex(s)[k].kind == Number <==> IsDigit(Lex(s)[k].text[0])
  {
    ScanWellFormed(s, 0);
    assert Lex(s)[k] == ScanFrom(s, 0)[k];
  }

  /** `==` is two `Assign` tokens, never one `Equal`. */
  lemma LexDoubleEquals()
    ensures Lex("a == b") ==
      [Token(Identifier, "a"), Token(Assign, "="), Token(Assign, "="), Token(Identifier, "b"), EofToken]
  {
    var s := "a == b";
    assert AlnumEnd(s, 5) == 6;
    assert s[5..6] == "b";
    assert ScanFrom(s, 6) == [];
    assert ScanFrom(s, 5) == [Token(Identifier, "b")];
    assert ScanFrom(s, 4) == ScanFrom(s, 5);
    assert ScanFrom(s, 3) == [Token(Assign, "=")] + ScanFrom(s, 4);
    assert ScanFrom(s, 2) == [Token(Assign, "=")] + ScanFrom(s, 3);
    assert ScanFrom(s, 1) == ScanFrom(s, 2);
    assert AlnumEnd(s, 0) == 1;
    assert s[0..1] == "a";
    assert ScanFrom(s, 0) == [Token(Identifier, "a")] + ScanFrom(s, 1);
  }

  /** Parentheses have no kind of their own. */
  lemma LexParentheses()
    ensures Lex("(x)") == [Token(Unknown, "("), Token(Identifier, "x"), Token(Unknown, ")"), EofToken]
  {
    var s := "(x)";
    assert ScanFrom(s, 3) == [];
    assert ScanFrom(s, 2) == [Token(Unknown, ")")];
    assert AlnumEnd(s, 1) == 2;
    assert s[1..2] == "x";
    assert ScanFrom(s, 1) == [Token(Identifier, "x")] + ScanFrom(s, 2);
    assert ScanFrom(s, 0) == [Token(Unknown, "(")] + ScanFrom(s, 1);
  }
}
