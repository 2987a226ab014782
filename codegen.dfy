// The code generator: a positional scan over the token sequence that emits
// pseudo-assembly lines at fixed offsets from the tokens it recognises.

module CodeGen {
  import opened Tokens

  /** The four shapes of emitted line. The jump and the label always use the
      same fixed name, `END_IF`. */
  datatype Line =
    | Mov(dest: string, src: string)
    | Cmp(left: string, right: string)
    | JneEndIf
    | EndIfLabel

  /** The text a line is printed as. */
  function Render(l: Line): string
  {
    match l
    case Mov(d, v) => "MOV " + d + ", " + v
    case Cmp(a, b) => "CMP " + a + ", " + b
    case JneEndIf => "JNE END_IF"
    case EndIfLabel => "END_IF:"
  }

  /** The operand written first, before the `, ` separator. */
  function FirstOperand(l: Line): string
  {
    match l
    case Mov(d, _) => d
    case Cmp(a, _) => a
    case _ => ""
  }

  /** `a + ", " + b` gives back `a` and `b` when `a` holds no comma. */
  lemma CommaSplit(a1: string, b1: string, a2: string, b2: string)
    requires ',' !in a1 && ',' !in a2
    requires a1 + ", " + b1 == a2 + ", " + b2
    ensures a1 == a2 && b1 == b2
  {
    var x := a1 + ", " + b1;
    assert x[|a1|] == ',' && x[|a2|] == ',';
    assert |a1| == |a2|;
    assert a1 == x[..|a1|] == a2;
    assert b1 == x[|a1| + 2..] == b2;
  }

  /** Printing is unambiguous as long as no first operand holds a comma:
      two lines that print the same are the same line. */
  lemma RenderInjective(l1: Line, l2: Line)
    requires ',' !in FirstOperand(l1) && ',' !in FirstOperand(l2)
    ensures Render(l1) == Render(l2) ==> l1 == l2
  {
    var r1, r2 := Render(l1), Render(l2);
    if r1 == r2 {
      assert r1[0] == r2[0];
      if l1.Mov? && l2.Mov? {
        assert r1[4..] == l1.dest + ", " + l1.src;
        assert r2[4..] == l2.dest + ", " + l2.src;
        CommaSplit(l1.dest, l1.src, l2.dest, l2.src);
      } else if l1.Cmp? && l2.Cmp? {
        assert r1[4..] == l1.left + ", " + l1.right;
        assert r2[4..] == l2.left + ", " + l2.right;
        CommaSplit(l1.left, l1.right, l2.left, l2.right);
      }
    }
  }

  /** The texts of `lines`, in order. */
  function RenderAll(lines: seq<Line>): seq<string>
  {
    seq(|lines|, j requires 0 <= j < |lines| => Render(lines[j]))
  }

  /** The printed output determines the emitted lines, as long as no first
      operand contains a comma. */
  lemma RenderAllInjective(a: seq<Line>, b: seq<Line>)
    requires forall l :: l in a ==> ',' !in FirstOperand(l)
    requires forall l :: l in b ==> ',' !in FirstOperand(l)
    ensures RenderAll(a) == RenderAll(b) ==> a == b
  {
    if RenderAll(a) == RenderAll(b) {
      assert |a| == |RenderAll(a)| == |RenderAll(b)| == |b|;
      forall j | 0 <= j < |a|
        ensures a[j] == b[j]
      {
        assert Render(a[j]) == RenderAll(a)[j] == RenderAll(b)[j] == Render(b[j]);
        RenderInjective(a[j], b[j]);
      }
    }
  }

  /** The result of a run: the lines emitted, or the position of the token
      whose case reads past the end of the tokens together with the lines
      already printed before that read. */
  datatype Outcome = Emitted(lines: seq<Line>) | OutOfBounds(at: nat, before: seq<Line>)

  /** The lines a run prints, whether or not it stops short. */
  function Printed(o: Outcome): seq<Line>
  {
    match o
    case Emitted(lines) => lines
    case OutOfBounds(_, before) => before
  }

  /** `lines` emitted before whatever `o` emits. */
  function Prepend(lines: seq<Line>, o: Outcome): Outcome
  {
    match o
    case Emitted(rest) => Emitted(lines + rest)
    case OutOfBounds(at, before) => OutOfBounds(at, lines + before)
  }

  lemma PrependAppend(a: seq<Line>, b: seq<Line>, o: Outcome)
    ensures Prepend(a + b, o) == Prepend(a, Prepend(b, o))
  {
    assert (a + b) + Printed(o) == a + (b + Printed(o));
  }

  /** An identifier directly followed by `=` starts an assignment. */
  predicate StartsAssignment(ts: seq<Token>, i: nat)
  {
    i + 1 < |ts| && ts[i].kind == Identifier && ts[i + 1].kind == Assign
  }

  /** What the generator emits with its cursor at `i`. */
  function GenFrom(ts: seq<Token>, i: nat): (r: Outcome)
    ensures r.OutOfBounds? ==> i <= r.at < |ts|
    decreases if i <= |ts| then |ts| - i else 0
  {
    if i >= |ts| then Emitted([])
    else if StartsAssignment(ts, i) then
      if i + 2 < |ts| then Prepend([Mov(ts[i].text, ts[i + 2].text)], GenFrom(ts, i + 3))
      else OutOfBounds(i, [])
    else if ts[i].kind == If then
      if i + 4 < |ts| then Prepend([Cmp(ts[i + 2].text, ts[i + 4].text), JneEndIf], GenFrom(ts, i + 6))
      else OutOfBounds(i, [])
    else if ts[i].kind == RBrace then Prepend([EndIfLabel], GenFrom(ts, i + 1))
    else GenFrom(ts, i + 1)
  }

  class CodeGenerator {
    const tokens: seq<Token>
    var pos: nat

    constructor (tokens: seq<Token>)
      ensures this.tokens == tokens && pos == 0
    {
      this.tokens, pos := tokens, 0;
    }

    /** Emits the lines for the tokens from the cursor on. Where the source
        reads a token past the end it stops with `OutOfBounds`, keeping the
        lines printed up to that read. */
    method Generate() returns (out: Outcome)
      modifies this`pos
      ensures out == GenFrom(tokens, old(pos))
      ensures out.Emitted? ==> pos >= |tokens|
    {
      ghost var start := pos;
      var lines: seq<Line> := [];
      while pos < |tokens|
        invariant Prepend(lines, GenFrom(tokens, pos)) == GenFrom(tokens, start)
        decreases |tokens| - pos
      {
        ghost var before := lines;
        var at := pos;  // reported if this token's case reads past the end
        var token := tokens[pos];
        pos := pos + 1;
        if token.kind == Identifier && pos < |tokens| && tokens[pos].kind == Assign {
          var v := token.text;
          pos := pos + 1;  // skip '='
          if pos >= |tokens| {
            return OutOfBounds(at, lines);
          }
          var value := tokens[pos];
          pos := pos + 1;
          lines := lines + [Mov(v, value.text)];
          PrependAppend(before, [Mov(v, value.text)], GenFrom(tokens, pos));
        } else if token.kind == If {
          pos := pos + 1;  // skip '('
          if pos >= |tokens| {
            return OutOfBounds(at, lines);
          }
          var conditionVar := tokens[pos];
          pos := pos + 1;
          pos := pos + 1;  // skip '=='
          if pos >= |tokens| {
            return OutOfBounds(at, lines);
          }
          var conditionValue := tokens[pos];
          pos := pos + 1;
          pos := pos + 1;  // skip ')'
          lines := lines + [Cmp(conditionVar.text, conditionValue.text), JneEndIf];
          PrependAppend(before, [Cmp(conditionVar.text, conditionValue.text), JneEndIf], GenFrom(tokens, pos));
        } else if token.kind == RBrace {
          lines := lines + [EndIfLabel];
          PrependAppend(before, [EndIfLabel], GenFrom(tokens, pos));
        }
      }
      return Emitted(lines);
    }
  }

  // ---------------------------------------------------------------------
  // Properties of the generator
  // ---------------------------------------------------------------------

  /** Each scan step consumes at least as many tokens as it emits lines:
      three for a `MOV`, six for a `CMP` and its jump, one for a label. */
  lemma {:induction false} GenBound(ts: seq<Token>, i: nat)
    requires i <= |ts|
    ensures |Printed(GenFrom(ts, i))| <= |ts| - i
    decreases |ts| - i
  {
    if i < |ts| {
      if StartsAssignment(ts, i) {
        if i + 2 < |ts| { GenBound(ts, i + 3); }
      } else if ts[i].kind == If {
        if i + 4 < |ts| {
          if i + 6 <= |ts| { GenBound(ts, i + 6); }
        }
      } else {
        GenBound(ts, i + 1);
      }
    }
  }

  /** Every `CMP` is directly followed by the jump, and every jump directly
      follows a `CMP`. */
  predicate Paired(lines: seq<Line>)
  {
    (forall j :: 0 <= j < |lines| && lines[j].Cmp? ==> j + 1 < |lines| && lines[j + 1] == JneEndIf) &&
    (forall j :: 0 <= j < |lines| && lines[j] == JneEndIf ==> 0 < j && lines[j - 1].Cmp?)
  }

  lemma PairedPrepend(a: seq<Line>, b: seq<Line>)
    requires Paired(a) && Paired(b)
    ensures Paired(a + b)
  {
    assert forall j :: |a| <= j < |a + b| ==> (a + b)[j] == b[j - |a|];
  }

  /** The generator never emits a jump without its comparison, nor a
      comparison without its jump. */
  lemma {:induction false} GenPaired(ts: seq<Token>, i: nat)
    ensures Paired(Printed(GenFrom(ts, i)))
    decreases if i <= |ts| then |ts| - i else 0
  {
    if i < |ts| {
      if StartsAssignment(ts, i) {
        if i + 2 < |ts| {
          GenPaired(ts, i + 3);
          var o := GenFrom(ts, i + 3);
          PairedPrepend([Mov(ts[i].text, ts[i + 2].text)], Printed(o));
        }
      } else if ts[i].kind == If {
        if i + 4 < |ts| {
          GenPaired(ts, i + 6);
          var o := GenFrom(ts, i + 6);
          PairedPrepend([Cmp(ts[i + 2].text, ts[i + 4].text), JneEndIf], Printed(o));
        }
      } else if ts[i].kind == RBrace {
        GenPaired(ts, i + 1);
        var o := GenFrom(ts, i + 1);
        PairedPrepend([EndIfLabel], Printed(o));
      } else {
        GenPaired(ts, i + 1);
      }
    }
  }

  /** Where a `MOV` or `CMP` line takes its operands from: a `MOV` from an
      identifier, the `=` after it and the single token after that; a `CMP`
      from the tokens two and four places after an `if`. */
  ghost predicate FromTokens(ts: seq<Token>, l: Line)
  {
    match l
    case Mov(d, v) =>
      exists k :: 0 <= k && k + 2 < |ts| && StartsAssignment(ts, k) && d == ts[k].text && v == ts[k + 2].text
    case Cmp(a, b) =>
      exists k :: 0 <= k && k + 4 < |ts| && ts[k].kind == If && a == ts[k + 2].text && b == ts[k + 4].text
    case _ => true
  }

  /** Every emitted `MOV` and `CMP` is built from token texts as `FromTokens`
      says. */
  lemma {:induction false} GenFromTokens(ts: seq<Token>, i: nat)
    ensures forall l :: l in Printed(GenFrom(ts, i)) ==> FromTokens(ts, l)
    decreases if i <= |ts| then |ts| - i else 0
  {
    if i < |ts| {
      if StartsAssignment(ts, i) {
        if i + 2 < |ts| {
          GenFromTokens(ts, i + 3);
          assert FromTokens(ts, Mov(ts[i].text, ts[i + 2].text));
        }
      } else if ts[i].kind == If {
        if i + 4 < |ts| {
          GenFromTokens(ts, i + 6);
          assert FromTokens(ts, Cmp(ts[i + 2].text, ts[i + 4].text));
        }
      } else {
        GenFromTokens(ts, i + 1);
      }
    }
  }

  /** A run stops short only at an `if` with at most three tokens after it,
      or at an identifier and `=` that end the tokens. */
  lemma {:induction false} GenFault(ts: seq<Token>, i: nat)
    ensures GenFrom(ts, i).OutOfBounds? ==>
      var k := GenFrom(ts, i).at;
      i <= k < |ts| &&
      ((ts[k].kind == If && |ts| <= k + 4) || (StartsAssignment(ts, k) && k + 2 == |ts|))
    decreases if i <= |ts| then |ts| - i else 0
  {
    if i < |ts| {
      if StartsAssignment(ts, i) {
        if i + 2 < |ts| { GenFault(ts, i + 3); }
      } else if ts[i].kind == If {
        if i + 4 < |ts| { GenFault(ts, i + 6); }
      } else {
        GenFault(ts, i + 1);
      }
    }
  }

  /** With four tokens after every `if` and no `=` at the end, the run emits. */
  lemma GenCompletes(ts: seq<Token>, i: nat)
    requires forall k :: i <= k < |ts| && ts[k].kind == If ==> k + 4 < |ts|
    requires |ts| > 0 ==> ts[|ts| - 1].kind != Assign
    ensures GenFrom(ts, i).Emitted?
  {
    GenFault(ts, i);
  }

  /** A run that stops short at a truncated `if` still reports the `MOV`
      printed before it. */
  lemma GenKeepsPrinted(ts: seq<Token>)
    requires ts == [Token(Identifier, "a"), Token(Assign, "="), Token(Number, "1"), Token(Semicolon, ";"),
                    Token(If, "if"), Token(Unknown, "("), Token(Identifier, "x"), EofToken]
    ensures GenFrom(ts, 0) == OutOfBounds(4, [Mov("a", "1")])
  {
    assert GenFrom(ts, 4) == OutOfBounds(4, []);
    assert GenFrom(ts, 3) == OutOfBounds(4, []);
  }
}
