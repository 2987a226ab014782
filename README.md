# simple_Assembly in Dafny

This project models the three stages of the `simple_Assembly` toy translator as
the C++ code actually behaves:

- **Lexer.** A cursor over the source text. It groups characters into tokens:
  - words: a letter followed by letters and digits, with `int` and `if` as keywords;
  - numbers: runs of digits;
  - one token per character for `= + - { } ;`, so `==` is two `Assign` tokens;
  - a one-character `Unknown` token for anything else, including `(` and `)`.

  It skips whitespace and closes the sequence with an `EOF` token.
- **Parser.** A cursor over the tokens. It visits every token before the first `EOF` and echoes that
  token's text. It builds no structure and checks no grammar.
- **Code generator.** A positional scan over the tokens:
  - an identifier directly followed by `=` emits `MOV dest, v`, where `v` is the single token after `=`;
  - `if` emits `CMP` on the tokens two and four places after it, then `JNE END_IF`, and resumes six
    tokens on;
  - `}` emits `END_IF:`;
  - every other token is skipped.

  The C++ code reads tokens past the end here with no bounds check. The model makes that an explicit
  `OutOfBounds` outcome that names the token whose case read too far and keeps the lines already
  printed before that read.

The stateful objects are classes, each with a `pos` cursor. `Lexer` and `Parser` also have `Peek`
as a function and `Get` as a method; `CodeGenerator` reads `tokens[pos]` directly, as the C++ class
does. Each main loop is a method proved against a recursive specification function:
- `Tokenize` against `ScanFrom`;
- `Parse` against `EofFrom`;
- `Generate` against `GenFrom`.

The properties are lemmas and contracts about those functions:
- text preservation;
- token classification and maximal runs;
- compositional scanning;
- the lone trailing `EOF`;
- jump/compare pairing;
- where a generator run can stop short;
- the end-to-end result for the driver's program.

That program compiles to `MOV a, 10`, `CMP a, =`, `JNE END_IF`, `MOV a, a`, `END_IF:`. The
comparison reads `=` because `==` is two `Assign` tokens and the generator skips only one of them.
The body `a = a + 1` keeps only the token after `=`.

Files:
- `tokens.dfy`: kinds, tokens and the character classes.
- `lexer.dfy`: the lexer.
- `parser.dfy`: the parser.
- `codegen.dfy`: the generator.
- `pipeline.dfy`: the wiring done by `main` and the demonstration.

The code, and so the model, has no syntax tree, no parse errors, no single `Equal` token for `==`
(the kind is declared but never produced), no `ADD`/`SUB` lowering of `+` and `-`, and a fixed
`END_IF` label shared by every `if`.

## Model

| member | source | states |
|---|---|---|
| Tokens.SpaceClass | simple_Assembly.cpp:34 | `isspace` holds exactly for space, tab, newline, vertical tab, form feed and carriage return (`IsSpace`). |
| Tokens.AlphaClass | simple_Assembly.cpp:36 | `isalpha` holds exactly for the 52 Latin letters (`IsAlpha`). |
| Tokens.DigitClass | simple_Assembly.cpp:46 | `isdigit` holds exactly for the ten decimal digits (`IsDigit`). |
| Tokens.ClassesDisjoint | simple_Assembly.cpp:34-53 | The lexer's tests cannot overlap. No letter is a digit. No letter or digit (`IsAlnum`, :38 and :48) is a space or an operator character, and no space is an operator character. |
| Lexing.AlnumEnd | simple_Assembly.cpp:38 | The word loop stops at the end of the maximal run of letters and digits: every character before the result is alphanumeric, and the result is the end of the input or a non-alphanumeric character. |
| Lexing.DigitEnd | simple_Assembly.cpp:48 | The number loop stops at the end of the maximal run of digits. |
| Lexing.WordTokenKind | simple_Assembly.cpp:40-42 | A word token (`WordToken`) keeps the run as its text. It is `Int` exactly when the run is `int`, `If` exactly when it is `if`, and `Identifier` otherwise. |
| Lexing.PunctKindChar | simple_Assembly.cpp:53-60 | The switch (`PunctKind`) gives `Unknown` exactly to the characters other than `= + - { } ;`. Each other kind is written as the character it came from. |
| Lexing.NextToken | simple_Assembly.cpp:36-61 | Reading one token at a non-space character always consumes at least one character and stays within the input. |
| Lexing.ScanFrom | simple_Assembly.cpp:32-62 | The scan from `i` yields at most one token per remaining character. |
| Lexing.Lexer.constructor | simple_Assembly.cpp:25 | A new lexer holds the source with its cursor at 0. |
| Lexing.Lexer.Peek | simple_Assembly.cpp:27 | Returns the character under the cursor, or NUL past the end. |
| Lexing.Lexer.Get | simple_Assembly.cpp:28 | Returns the character and advances by one, or returns NUL and leaves the cursor unchanged past the end. |
| Lexing.Lexer.ReadAlnumRun | simple_Assembly.cpp:37-38 | Moves the cursor to the end of the maximal alphanumeric run and returns exactly the input slice it passed. |
| Lexing.Lexer.ReadDigitRun | simple_Assembly.cpp:47-48 | Moves the cursor to the end of the maximal digit run and returns exactly that slice. |
| Lexing.Lexer.Tokenize | simple_Assembly.cpp:30-65 | Consumes the whole input and returns the specification scan followed by the single `EOF` token. |
| Lexing.ScanWellFormed | simple_Assembly.cpp:36-61 | Every scanned token has the expected shape for its kind. Keywords are exactly `int`/`if`. Identifiers are letter-led alphanumeric words that are not keywords. Numbers are digit runs. Each punctuation kind has its own one-character text. `Unknown` is one character that is not a space, alphanumeric or one of `= + - { } ;`. `Equal` and `Eof` never occur. |
| Lexing.ScanPreservesText | simple_Assembly.cpp:32-62 | The scanned texts, concatenated, equal the input with its whitespace removed. |
| Lexing.NextTokenSpan | simple_Assembly.cpp:36-61 | A token's text is the input slice from its start to where the scan resumes. A word or number ends only where the run cannot continue. |
| Lexing.ScanSpans | simple_Assembly.cpp:32-62 | Every scanned token is the input slice at its recorded start, and every word and number run is maximal. |
| Lexing.ScanOrdered | simple_Assembly.cpp:32-62 | The token spans lie in input order and do not overlap. |
| Lexing.ScanShift | simple_Assembly.cpp:32-62 | The scan from a position depends only on the text from there on. |
| Lexing.ScanSplitFrom | simple_Assembly.cpp:32-62 | Where the second part does not start with a letter or digit, scanning a concatenation gives the scan of the first part followed by the scan of the second. |
| Lexing.LexSplit | simple_Assembly.cpp:30-65 | The same compositional split, stated for the full token sequence including `EOF`. |
| Lexing.Lex | simple_Assembly.cpp:30-65 | What `tokenize` returns on a fresh lexer is non-empty and its last token is `EOF` (pushed at :63). No earlier token is `EOF` or has empty text. There are at most as many tokens as input characters, plus one. |
| Lexing.LexPreservesText | simple_Assembly.cpp:30-65 | The texts before the final `EOF`, concatenated, give back the input without whitespace. |
| Lexing.LexClassifies | simple_Assembly.cpp:36-51 | Each token before `EOF` is well formed. It is a keyword or identifier if and only if its text starts with a letter, and a number if and only if its text starts with a digit. |
| Lexing.LexDoubleEquals | simple_Assembly.cpp:54 | `a == b` lexes as two `Assign` tokens between the identifiers, never as one `Equal`. |
| Lexing.LexParentheses | simple_Assembly.cpp:60 | Parentheses have no kind of their own. They lex as `Unknown`. |
| Parsing.EofFrom | simple_Assembly.cpp:79 | The index where the parse loop stops is the first `EOF` at or after the cursor, or the end of the tokens. No `EOF` lies before it. |
| Parsing.BeforeEof | simple_Assembly.cpp:79 | The tokens the parse loop visits from the start: the longest prefix with no `EOF`. Either the whole sequence, or the next token is `EOF`. |
| Parsing.Parser.constructor | simple_Assembly.cpp:73 | A new parser holds the tokens with its cursor at 0. |
| Parsing.Parser.Peek | simple_Assembly.cpp:75 | Never indexes out of range; returns the `EOF` sentinel past the end. |
| Parsing.Parser.Get | simple_Assembly.cpp:76 | Like `Peek`, advances only while in range. |
| Parsing.Parser.Parse | simple_Assembly.cpp:78-83 | Visits exactly the tokens from the cursor up to the first `EOF`, in order, and echoes each one's text. |
| Parsing.ParseLexed | simple_Assembly.cpp:79-82 | On lexer output the parser visits every token except the final `EOF`. Their texts, concatenated, are the source without whitespace. |
| CodeGen.RenderAllInjective | simple_Assembly.cpp:101-111 | The printed output (`RenderAll`, one text per emitted line, in order) determines the emitted lines: two line sequences whose first operands hold no comma print the same only if they are equal. |
| CodeGen.RenderInjective | simple_Assembly.cpp:101-111 | The printed forms `MOV d, v`, `CMP a, b`, `JNE END_IF` and `END_IF:` (`Render`) are unambiguous: when no first operand holds a comma, two lines that print the same are the same line. |
| CodeGen.CommaSplit | simple_Assembly.cpp:101 | An operand pair printed as `a, b` gives back `a` and `b` when `a` holds no comma. |
| CodeGen.GenFrom | simple_Assembly.cpp:95-113 | The positional scan: an identifier and `=` emit `MOV` with the single token after `=` and resume three on; `if` emits `CMP` on the tokens two and four on plus `JNE END_IF` and resumes six on; `}` emits `END_IF:`; any other token is skipped. A fault names an index inside the tokens at or after the start. |
| CodeGen.CodeGenerator.constructor | simple_Assembly.cpp:91 | A new generator holds the tokens with its cursor at 0. |
| CodeGen.CodeGenerator.Generate | simple_Assembly.cpp:93-114 | The loop emits exactly what the positional specification `GenFrom` gives, or stops with `OutOfBounds` where the C++ code would read past the end, keeping the lines printed before that read. On completion its cursor is at or past the end. |
| CodeGen.GenBound | simple_Assembly.cpp:95-113 | A run, complete or stopped short, prints at most one line per token scanned. |
| CodeGen.GenPaired | simple_Assembly.cpp:108-109 | In the lines a run prints, complete or stopped short, every `CMP` is immediately followed by `JNE END_IF`, and every jump immediately follows a `CMP`. |
| CodeGen.GenFromTokens | simple_Assembly.cpp:97-108 | In the lines a run prints, complete or stopped short, every `MOV` is built from an identifier, the `=` after it and the single token after that. Every `CMP` is built from the tokens two and four places after an `if`. |
| CodeGen.GenFault | simple_Assembly.cpp:100-106 | A run stops short only at an `if` with at most three tokens after it, or at an identifier and `=` that end the sequence. The reported index lies in range. |
| CodeGen.GenKeepsPrinted | simple_Assembly.cpp:100-106 | On `a = 1; if (x` as tokens, the run prints `MOV a, 1` and then stops at the `if`, whose read of the condition value past the end is the fault; the outcome keeps the printed line. |
| CodeGen.GenCompletes | simple_Assembly.cpp:95-113 | If every `if` has four tokens after it and the last token is not `=`, the run completes. |
| Pipeline.Compile | simple_Assembly.cpp:117-126 | Wires lexer, parser and generator over the same tokens, as `main` does. The echoed texts are the scanned tokens' texts, and the generator's outcome is `GenFrom` on the lexed sequence. |
| Pipeline.LexedFaultOnlyAtIf | simple_Assembly.cpp:97-106 | On lexer output the assignment case never reads past the end, because the closing `EOF` is not `=`. Only a truncated `if` can fault. |
| Pipeline.LexedCompletes | simple_Assembly.cpp:102-107 | On lexer output, four tokens after every `if` are enough for a complete run. |
| Pipeline.LexedMovTargets | simple_Assembly.cpp:97-101 | On lexer output every printed `MOV` destination is a non-keyword identifier and every source is non-empty. |
| Pipeline.DemoSourceText | simple_Assembly.cpp:118 | The demonstration source is the driver's string. |
| Pipeline.DemoLex | simple_Assembly.cpp:118-120 | The driver's string lexes into its 22 tokens plus `EOF`, with `(`, `)` as `Unknown` and `==` as two `Assign`s. |
| Pipeline.DemoGen | simple_Assembly.cpp:125-126 | The generator on those tokens emits `MOV a, 10`, `CMP a, =`, `JNE END_IF`, `MOV a, a`, `END_IF:`. |
| Pipeline.Demo | simple_Assembly.cpp:117-126 | End to end: the driver's program is printed as those five lines. |

## Left out

- Console output. `parse` and `generate` write to standard output; the model returns the echoed texts and the emitted lines as sequences instead.
- The `Parsed: ` prefix on each echoed line and the `Generated Assembly Code:` header (simple_Assembly.cpp:81, :94). These are fixed formatting around the modelled contents.
- `main` builds one hard-coded program. `Pipeline.Compile` takes the source as a parameter, and the driver's string is covered by `Pipeline.Demo`.
- Character classes. `isspace`, `isalpha`, `isdigit` and `isalnum` are modelled for the C locale on ASCII. A character outside ASCII (undefined behaviour for `isspace` on a negative `char` in C++) lexes as `Unknown` in the model.
- Integer widths. The cursors are Dafny `nat`s, not the C++ `int` compared against a `size_t`. Inputs long enough to overflow `int` are not modelled.
- CodeGen.CodeGenerator.Generate: an out-of-range `tokens[pos++]` is undefined behaviour in C++. The model stops there with `OutOfBounds`, which keeps the lines printed before that read, instead of modelling what happens after the read.
- Lexing.Lexer.Tokenize: the two inner accumulation loops are separate methods (`ReadAlnumRun`, `ReadDigitRun`), and the six-way `switch` is the function `PunctKind`. Only the structure changes; the behaviour is the same.
