// The parser: walks the token sequence up to the first end-of-stream token
// and echoes every token's text.

module Parsing {
  import opened Tokens
  import Lexing

  /** The position of the first end-of-stream token at or after `i`, or the
      length of `ts` when there is none. */
  function EofFrom(ts: seq<Token>, i: nat): (e: nat)
    requires i <= |ts|
    ensures i <= e <= |ts|
    ensures forall k :: i <= k < e ==> ts[k].kind != Eof
    ensures e < |ts| ==> ts[e].kind == Eof
    decreases |ts| - i
  {
    if i == |ts| || ts[i].kind == Eof then i else EofFrom(ts, i + 1)
  }

  /** The three properties of `EofFrom` determine it. */
  lemma EofFromUnique(ts: seq<Token>, i: nat, e: nat)
    requires i <= e <= |ts|
    requires forall k :: i <= k < e ==> ts[k].kind != Eof
    requires e < |ts| ==> ts[e].kind == Eof
    ensures e == EofFrom(ts, i)
  {
  }

  /** The tokens before the first end-of-stream token (all of `ts` when it
      has none). */
  function BeforeEof(ts: seq<Token>): (r: seq<Token>)
    ensures |r| <= |ts| && r == ts[..|r|]
    ensures forall k :: 0 <= k < |r| ==> r[k].kind != Eof
    ensures |r| < |ts| ==> ts[|r|].kind == Eof
  {
    ts[..EofFrom(ts, 0)]
  }

  class Parser {
    const tokens: seq<Token>
    var pos: nat

    ghost predicate Valid()
      reads this
    {
      pos <= |tokens|
    }

    constructor (tokens: seq<Token>)
      ensures Valid() && this.tokens == tokens && pos == 0
    {
      this.tokens, pos := tokens, 0;
    }

    /** The token under the cursor, or the `EOF` sentinel past the end; never
        indexes outside `tokens`. */
    function Peek(): (t: Token)
      reads this
      ensures pos < |tokens| ==> t == tokens[pos]
      ensures pos >= |tokens| ==> t == EofToken
    {
      if pos < |tokens| then tokens[pos] else EofToken
    }

    /** Like `Peek`, and moves the cursor on, but only while it is in range. */
    method Get() returns (t: Token)
      modifies this`pos
      ensures old(pos) < |tokens| ==> t == tokens[old(pos)] && pos == old(pos) + 1
      ensures old(pos) >= |tokens| ==> t == EofToken && pos == old(pos)
    {
      if pos < |tokens| {
        t := tokens[pos];
        pos := pos + 1;
      } else {
        t := EofToken;
      }
    }

    /** Visits the tokens from the cursor up to the first `Eof`, in order,
        and returns the text of each one it visits (the lines it echoes). */
    method Parse() returns (echoed: seq<string>)
      requires Valid()
      modifies this`pos
      ensures Valid()
      ensures pos == EofFrom(tokens, old(pos))
      ensures echoed == Texts(tokens[old(pos)..pos])
    {
      ghost var start := pos;
      echoed := [];
      while Peek().kind != Eof
        invariant start <= pos <= |tokens|
        invariant EofFrom(tokens, pos) == EofFrom(tokens, start)
        invariant echoed == Texts(tokens[start..pos])
        decreases |tokens| - pos
      {
        assert Texts(tokens[start..pos + 1]) == Texts(tokens[start..pos]) + [tokens[pos].text];
        var token := Get();
        echoed := echoed + [token.text];
      }
    }
  }

  /** On lexer output the parser visits exactly the scanned tokens, that is,
      every token but the final `EOF`; their texts, written one after
      another, are the source without its whitespace. */
  lemma ParseLexed(s: string)
    ensures BeforeEof(Lexing.Lex(s)) == Lexing.ScanFrom(s, 0)
    ensures Flatten(BeforeEof(Lexing.Lex(s))) == Lexing.Unspaced(s, 0)
  {
    var ts := Lexing.ScanFrom(s, 0);
    Lexing.ScanWellFormed(s, 0);
    assert forall k :: 0 <= k < |ts| ==> Lexing.Lex(s)[k] == ts[k];
    EofFromUnique(Lexing.Lex(s), 0, |ts|);
    assert Lexing.Lex(s)[..|ts|] == ts;
    Lexing.ScanPreservesText(s, 0);
  }
}
