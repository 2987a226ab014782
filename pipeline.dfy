// The pipeline as the driver wires it: lexer, then parser, then generator,
// each over the previous stage's tokens; and the demonstration program.

module Pipeline {
  import opened Tokens
  import opened CodeGen
  import Lexing
  import Parsing

  /** Lexes `source`, echoes the tokens through the parser and generates
      code from the same tokens; returns the echoed texts and the outcome. */
  method Compile(source: string) returns (echoed: seq<string>, out: Outcome)
    ensures echoed == Texts(Lexing.ScanFrom(source, 0))
    ensures out == GenFrom(Lexing.Lex(source), 0)
  {
    var lexer := new Lexing.Lexer(source);
    var tokens := lexer.Tokenize();
    var parser := new Parsing.Parser(tokens);
    echoed := parser.Parse();
    Parsing.ParseLexed(source);
    var codeGen := new CodeGenerator(tokens);
    out := codeGen.Generate();
  }

  /** On lexer output a run can stop short only at an `if` with at most
      three tokens after it: the assignment case never reads past the end,
      because the closing `EOF` is no `=`. */
  lemma LexedFaultOnlyAtIf(s: string)
    ensures GenFrom(Lexing.Lex(s), 0).OutOfBounds? ==>
      var k := GenFrom(Lexing.Lex(s), 0).at;
      k < |Lexing.Lex(s)| && Lexing.Lex(s)[k].kind == If && |Lexing.Lex(s)| <= k + 4
  {
    GenFault(Lexing.Lex(s), 0);
  }

  /** On lexer output, four tokens after every `if` suffice for a complete
      run. */
  lemma LexedCompletes(s: string)
    requires forall k :: 0 <= k < |Lexing.Lex(s)| && Lexing.Lex(s)[k].kind == If ==> k + 4 < |Lexing.Lex(s)|
    ensures GenFrom(Lexing.Lex(s), 0).Emitted?
  {
    GenCompletes(Lexing.Lex(s), 0);
  }

  /** On lexer output every `MOV` assigns to an identifier (a letter-led
      word that is no keyword), and every operand is a non-empty text. */
  lemma LexedMovTargets(s: string)
    ensures forall l :: l in Printed(GenFrom(Lexing.Lex(s), 0)) && l.Mov? ==>
        IsWord(l.dest) && l.dest != "int" && l.dest != "if" && l.src != []
  {
    var ts := Lexing.Lex(s);
    GenFromTokens(ts, 0);
    forall k | 0 <= k < |ts| - 1 ensures Lexing.WellFormed(ts[k]) {
      Lexing.LexClassifies(s, k);
    }
  }

  // The driver's source text is written in four parts, each made of pieces
  // that start with a character that is no letter or digit (except the
  // very first), so that `ScanSplitFrom` puts the scan of the whole
  // together from the scans of the pieces.

  const DemoPartA: string := "int" + " a" + "; a" + " ="
  const DemoPartB: string := " 10" + "; if" + " (a" + " =="
  const DemoPartC: string := " 10" + ") {" + " a" + " ="
  const DemoPartD: string := " a" + " +" + " 1" + "; }"

  /** The driver's source text. */
  const DemoSource: string := DemoPartA + DemoPartB + DemoPartC + DemoPartD

  /** The parts make up exactly the driver's string. */
  lemma DemoSourceText()
    ensures DemoSource == "int a; a = 10; if (a == 10) { a = a + 1; }"
  {
  }

  lemma DemoPieceInt()
    ensures Lexing.ScanFrom("int", 0) == [Token(Int, "int")]
  {
    assert Lexing.AlnumEnd("int", 0) == 3;
    assert "int"[0..3] == "int";
  }

  lemma DemoPieceA()
    ensures Lexing.ScanFrom(" a", 0) == [Token(Identifier, "a")]
  {
    assert Lexing.AlnumEnd(" a", 1) == 2;
    assert " a"[1..2] == "a";
  }

  lemma DemoPieceSemicolonA()
    ensures Lexing.ScanFrom("; a", 0) == [Token(Semicolon, ";"), Token(Identifier, "a")]
  {
    assert Lexing.AlnumEnd("; a", 2) == 3;
    assert "; a"[2..3] == "a";
  }

  lemma DemoPieceAssign()
    ensures Lexing.ScanFrom(" =", 0) == [Token(Assign, "=")]
  {
  }

  lemma DemoPieceTen()
    ensures Lexing.ScanFrom(" 10", 0) == [Token(Number, "10")]
  {
    assert Lexing.DigitEnd(" 10", 1) == 3;
    assert " 10"[1..3] == "10";
  }

  lemma DemoPieceSemicolonIf()
    ensures Lexing.ScanFrom("; if", 0) == [Token(Semicolon, ";"), Token(If, "if")]
  {
    assert Lexing.AlnumEnd("; if", 2) == 4;
    assert "; if"[2..4] == "if";
  }

  lemma DemoPieceParenA()
    ensures Lexing.ScanFrom(" (a", 0) == [Token(Unknown, "("), Token(Identifier, "a")]
  {
    assert Lexing.AlnumEnd(" (a", 2) == 3;
    assert " (a"[2..3] == "a";
  }

  lemma DemoPieceDoubleEquals()
    ensures Lexing.ScanFrom(" ==", 0) == [Token(Assign, "="), Token(Assign, "=")]
  {
  }

  lemma DemoPieceParenBrace()
    ensures Lexing.ScanFrom(") {", 0) == [Token(Unknown, ")"), Token(LBrace, "{")]
  {
  }

  lemma DemoPiecePlus()
    ensures Lexing.ScanFrom(" +", 0) == [Token(Plus, "+")]
  {
  }

  lemma DemoPieceOne()
    ensures Lexing.ScanFrom(" 1", 0) == [Token(Number, "1")]
  {
    assert Lexing.DigitEnd(" 1", 1) == 2;
    assert " 1"[1..2] == "1";
  }

  lemma DemoPieceSemicolonBrace()
    ensures Lexing.ScanFrom("; }", 0) == [Token(Semicolon, ";"), Token(RBrace, "}")]
  {
  }

  lemma DemoScanA()
    ensures Lexing.ScanFrom(DemoPartA, 0) == DemoTokensA
  {
    DemoPieceInt();
    DemoPieceA();
    DemoPieceSemicolonA();
    DemoPieceAssign();
    Lexing.ScanSplitFrom("int" + " a" + "; a", " =", 0);
    Lexing.ScanSplitFrom("int" + " a", "; a", 0);
    Lexing.ScanSplitFrom("int", " a", 0);
  }

  lemma DemoScanB()
    ensures Lexing.ScanFrom(DemoPartB, 0) == DemoTokensB
  {
    DemoPieceTen();
    DemoPieceSemicolonIf();
    DemoPieceParenA();
    DemoPieceDoubleEquals();
    Lexing.ScanSplitFrom(" 10" + "; if" + " (a", " ==", 0);
    Lexing.ScanSplitFrom(" 10" + "; if", " (a", 0);
    Lexing.ScanSplitFrom(" 10", "; if", 0);
  }

  lemma DemoScanC()
    ensures Lexing.ScanFrom(DemoPartC, 0) == DemoTokensC
  {
    DemoPieceTen();
    DemoPieceParenBrace();
    DemoPieceA();
    DemoPieceAssign();
    Lexing.ScanSplitFrom(" 10" + ") {" + " a", " =", 0);
    Lexing.ScanSplitFrom(" 10" + ") {", " a", 0);
    Lexing.ScanSplitFrom(" 10", ") {", 0);
  }

  lemma DemoScanD()
    ensures Lexing.ScanFrom(DemoPartD, 0) == DemoTokensD
  {
    DemoPieceA();
    DemoPiecePlus();
    DemoPieceOne();
    DemoPieceSemicolonBrace();
    Lexing.ScanSplitFrom(" a" + " +" + " 1", "; }", 0);
    Lexing.ScanSplitFrom(" a" + " +", " 1", 0);
    Lexing.ScanSplitFrom(" a", " +", 0);
  }

  /** The tokens of the demonstration program, part by part. */
  const DemoTokensA: seq<Token> :=
    [Token(Int, "int"), Token(Identifier, "a"), Token(Semicolon, ";"), Token(Identifier, "a"), Token(Assign, "=")]
  const DemoTokensB: seq<Token> :=
    [Token(Number, "10"), Token(Semicolon, ";"), Token(If, "if"), Token(Unknown, "("), Token(Identifier, "a"),
     Token(Assign, "="), Token(Assign, "=")]
  const DemoTokensC: seq<Token> :=
    [Token(Number, "10"), Token(Unknown, ")"), Token(LBrace, "{"), Token(Identifier, "a"), Token(Assign, "=")]
  const DemoTokensD: seq<Token> :=
    [Token(Identifier, "a"), Token(Plus, "+"), Token(Number, "1"), Token(Semicolon, ";"), Token(RBrace, "}")]

  /** The tokens of the demonstration program, in order. */
  const DemoTokens: seq<Token> := DemoTokensA + DemoTokensB + DemoTokensC + DemoTokensD + [EofToken]

  /** The scan of the whole source is the scans of the parts in order. */
  lemma DemoLexParts()
    ensures Lexing.Lex(DemoSource) ==
      Lexing.ScanFrom(DemoPartA, 0) + Lexing.ScanFrom(DemoPartB, 0) +
      Lexing.ScanFrom(DemoPartC, 0) + Lexing.ScanFrom(DemoPartD, 0) + [EofToken]
  {
    Lexing.LexSplit(DemoPartA + DemoPartB + DemoPartC, DemoPartD);
    Lexing.ScanSplitFrom(DemoPartA + DemoPartB, DemoPartC, 0);
    Lexing.ScanSplitFrom(DemoPartA, DemoPartB, 0);
  }

  /** The token layout of the demonstration program. */
  lemma DemoLex()
    ensures Lexing.Lex(DemoSource) == DemoTokens
  {
    DemoLexParts();
    DemoScanA();
    DemoScanB();
    DemoScanC();
    DemoScanD();
  }

  /** The generator from the `{` of the demonstration program on. */
  lemma DemoGenBody(ts: seq<Token>)
    requires ts == DemoTokens
    ensures GenFrom(ts, 13) == Emitted([Mov("a", "a"), EndIfLabel])
  {
    assert GenFrom(ts, 23) == Emitted([]);
    assert GenFrom(ts, 22) == Emitted([]);
    assert GenFrom(ts, 21) == Emitted([EndIfLabel]);
    assert GenFrom(ts, 20) == Emitted([EndIfLabel]);
    assert GenFrom(ts, 19) == Emitted([EndIfLabel]);
    assert GenFrom(ts, 18) == Emitted([EndIfLabel]);
    assert GenFrom(ts, 15) == Emitted([Mov("a", "a"), EndIfLabel]);
    assert GenFrom(ts, 14) == Emitted([Mov("a", "a"), EndIfLabel]);
  }

  /** The positional generator on the demonstration tokens. */
  lemma DemoGen(ts: seq<Token>)
    requires ts == DemoTokens
    ensures GenFrom(ts, 0) ==
      Emitted([Mov("a", "10"), Cmp("a", "="), JneEndIf, Mov("a", "a"), EndIfLabel])
  {
    DemoGenBody(ts);
    assert GenFrom(ts, 7) == Emitted([Cmp("a", "="), JneEndIf, Mov("a", "a"), EndIfLabel]);
    assert GenFrom(ts, 6) == Emitted([Cmp("a", "="), JneEndIf, Mov("a", "a"), EndIfLabel]);
    assert GenFrom(ts, 3) == Emitted([Mov("a", "10"), Cmp("a", "="), JneEndIf, Mov("a", "a"), EndIfLabel]);
    assert GenFrom(ts, 2) == Emitted([Mov("a", "10"), Cmp("a", "="), JneEndIf, Mov("a", "a"), EndIfLabel]);
    assert GenFrom(ts, 1) == Emitted([Mov("a", "10"), Cmp("a", "="), JneEndIf, Mov("a", "a"), EndIfLabel]);
  }

  /** How the five demonstration lines print. */
  lemma DemoRender()
    ensures RenderAll([Mov("a", "10"), Cmp("a", "="), JneEndIf, Mov("a", "a"), EndIfLabel]) ==
      ["MOV a, 10", "CMP a, =", "JNE END_IF", "MOV a, a", "END_IF:"]
  {
    assert Render(Mov("a", "10")) == "MOV a, 10";
    assert Render(Cmp("a", "=")) == "CMP a, =";
    assert Render(Mov("a", "a")) == "MOV a, a";
  }

  /** End to end: the demonstration program compiles to these five lines;
      the comparison reads `=` because `==` is two tokens, and the body's
      `a = a + 1` keeps only the token after `=`. */
  lemma Demo()
    ensures DemoSource == "int a; a = 10; if (a == 10) { a = a + 1; }"
    ensures GenFrom(Lexing.Lex(DemoSource), 0).Emitted?
    ensures RenderAll(GenFrom(Lexing.Lex(DemoSource), 0).lines) ==
      ["MOV a, 10", "CMP a, =", "JNE END_IF", "MOV a, a", "END_IF:"]
  {
    DemoSourceText();
    DemoLex();
    DemoGen(DemoTokens);
    DemoRender();
  }
}
