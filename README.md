# Helium compiler core in Dafny

Helium is a small compiler for a toy language. It turns source text into
x86-64 NASM assembly in three stages:

- the **tokenizer** turns characters into tokens. It handles keywords,
  identifiers, integer literals, punctuators, `;;` line comments and
  `;* … *;` block comments, and it counts lines.
- the **parser** turns tokens into a program of `exit(expr);` and
  `var name = expr;` statements.
- the **generator** turns the program into assembly text. That text has an
  entry label, a stack-based exit sequence for each `exit`, and a default
  `exit(0)` at the end.

This project models those three stages and the driver that chains them.

Each stage is an object that updates a cursor or an output buffer. Each one
is modelled twice:

- as a Dafny `class` whose methods follow the compiler's loops;
- as a pure specification function: `Lex` for the tokenizer, `ProgFrom` and
  `Parse` for the parser, `ProgText` for the generator.

Each method's postcondition ties it to its specification function. The
lemmas then state what the compiler promises about those functions:

- every token is well formed;
- line numbers start at 1 and never decrease;
- the parser accepts exactly the token sequences that spell statements of
  the grammar (soundness and completeness);
- each parse error is reported exactly when its condition holds, and the
  first error in the token sequence decides the parse;
- the generated text always has the same prologue and epilogue;
- an `exit` of a literal leaves the machine stack balanced;
- the whole pipeline maps `exit(d);` to the expected assembly for every digit
  string `d`.

Modules:

- `Wrappers` (wrappers.dfy): `Option` and `Result`. They replace
  `std::optional` and the fatal `exit(EXIT_FAILURE)` error paths.
- `Tokenization` (tokenization.dfy): token types, `to_string`, `bin_prec`,
  the specification `Step`/`Lex`, and the `Tokenizer` class.
- `Parsing` (parsing.dfy): the AST, the grammar predicates
  `StmtSpells`/`ProgSpells`, the specification `StmtAt`/`ProgFrom`/`Parse`,
  and the `Parser` class.
- `Generation` (generation.dfy): the generated instructions (`Instr`) and
  how they are rendered as text, a stack simulation, and the `Generator`
  class.
- `Compiler` (compiler.dfy): the driver, as a function `Compile` and as a
  method `Run` that uses the three objects.

Two places where the model records what the code does:

- **Block comments.** The tokenizer's block-comment branch
  (src/tokenization.hpp:144-162) consumes newlines without incrementing
  `line_count`, so a token after a multi-line block comment carries the line
  on which the comment started. The model does the same
  (`Tokenization.BlockCommentKeepsLine`, against
  `Tokenization.NewlineAdvancesLine`).
- **The generator's pointers.** The AST's variants hold pointers
  (`NodeExpr` holds `NodeExprIntLit*`, `NodeExprIdent*` and
  `NodeBinaryExpr*`, src/parser.hpp:35; `NodeStmt` holds `NodeStmtExit*` and
  `NodeStmtVar*`, src/parser.hpp:48; `NodeStmtExit::expr` and
  `NodeProg::stmts` hold `NodeExpr*` and `NodeStmt*`, src/parser.hpp:39,52),
  but the generator treats them as the objects themselves:
  - the visitors' `operator()`s take references to nodes
    (src/generation.hpp:17,23,35,43) where `std::visit` supplies pointers;
  - `gen_expr` takes a `const NodeExpr&` and is passed the `NodeExpr*`
    `stmt_exit.expr` (src/generation.hpp:13,37);
  - the loop in `gen_prog` binds a `const NodeStmt&` to each `NodeStmt*`
    element (src/generation.hpp:55).

  The model generates code for the node each pointer points to, which is
  what the visitors evidently intend.

## Model

| member | source | states |
|---|---|---|
| Tokenization.ToString | src/tokenization.hpp:28-66 | every kind renders to at least three characters; exactly the kinds other than literal and identifier render quoted, and a quoted rendering ends with a quote |
| Tokenization.ToStringInjective | src/tokenization.hpp:28-66 | distinct token kinds render to distinct strings |
| Tokenization.BinPrec | src/tokenization.hpp:68-79 | a precedence exists exactly for the four binary operators: 0 for `+` and `-`, 1 for `*` and `/`, so the multiplicative operators bind tighter |
| Tokenization.Word | src/tokenization.hpp:104-126 | a word becomes an identifier exactly when it is not one of the five keywords; an identifier carries the word, a keyword carries nothing and is the kind that renders as the quoted word; the line is kept |
| Tokenization.Punctuator | src/tokenization.hpp:163-202 | exactly the ten characters `();=*/+-{}` are punctuators, each the kind that renders as that character quoted |
| Tokenization.AlnumEnd | src/tokenization.hpp:101-103 | the end of the maximal alphanumeric run: everything before it is alphanumeric, the character at it is not |
| Tokenization.DigitEnd | src/tokenization.hpp:131-133 | the end of the maximal digit run, with the same two properties |
| Tokenization.LineEnd | src/tokenization.hpp:137-143 | a line comment runs up to the first newline, which it leaves unconsumed, or to the end of input |
| Tokenization.BlockEnd | src/tokenization.hpp:144-162 | a block comment ends just past the first `*;`, with no `*;` before it, or runs to the end of input when unclosed |
| Tokenization.Step | src/tokenization.hpp:98-213 | one loop iteration fails exactly on an unrecognised character and reports the current line; otherwise it makes progress, advances the line only on `\n`, and emits only well-formed tokens on the current line |
| Tokenization.StepWord | src/tokenization.hpp:99-127 | a letter starts a maximal alphanumeric run that becomes the `Word` token for that run |
| Tokenization.StepLiteral | src/tokenization.hpp:129-135 | a digit starts a maximal digit run that becomes one literal token carrying exactly those digits |
| Tokenization.StepLineComment | src/tokenization.hpp:137-143 | `;;` emits nothing, keeps the line, and stops at the next newline |
| Tokenization.StepBlockComment | src/tokenization.hpp:144-162 | `;*` emits nothing and keeps the line counter however many newlines it skips; it ends after the first `*;` or at the end of input |
| Tokenization.StepPunctuator | src/tokenization.hpp:163-202 | a punctuator that does not open a comment is one payload-free token of one character |
| Tokenization.StepSpace | src/tokenization.hpp:203-209 | whitespace emits nothing and is consumed one character at a time; only `\n` advances the line |
| Tokenization.Tokenize | src/tokenization.hpp:93-217 | the tokens of a whole text, scanned from line 1, are never more than its characters; what they are is stated by `TokenizeLines`, `LexWellFormed` and `TokenizeExitSource`, and `Tokenizer.Tokenize` is proved to compute it |
| Tokenization.Lex | src/tokenization.hpp:93-217 | a scan never yields more tokens than the characters it reads |
| Tokenization.LexWellFormed | src/tokenization.hpp:93-217 | every emitted token is well formed: only literals and identifiers carry text, literal text is a non-empty digit run, identifier text is a non-keyword word starting with a letter |
| Tokenization.LexLines | src/tokenization.hpp:93-217 | token lines and an error's line lie between the starting line and the starting line plus the number of newlines in the input |
| Tokenization.LexLinesOrdered | src/tokenization.hpp:203-206 | token line numbers never decrease along the token sequence |
| Tokenization.TokenizeLines | src/tokenization.hpp:93-217 | tokens of a whole text are on line 1 or later, in non-decreasing order |
| Tokenization.LexFinalWord | src/tokenization.hpp:99-127 | a word that runs to the end of the input is the last token |
| Tokenization.BlockCommentKeepsLine | src/tokenization.hpp:144-162 | `exit` after a block comment that contains a newline is still reported on line 1 |
| Tokenization.NewlineAdvancesLine | src/tokenization.hpp:203-206 | `exit` after a newline is reported on line 2 |
| Tokenization.TokenizeExitSource | src/tokenization.hpp:93-217 | for every digit string `d`, `exit(d);` yields exactly the five tokens of an exit statement on line 1, the literal carrying `d` |
| Tokenization.Tokenizer.constructor | src/tokenization.hpp:89-91 | the tokenizer starts at index 0 of its source |
| Tokenization.Tokenizer.Peek | src/tokenization.hpp:221-226 | the character `offset` ahead of the cursor, or nothing past the end |
| Tokenization.Tokenizer.Consume | src/tokenization.hpp:228-230 | returns the character at the cursor and advances the cursor by one |
| Tokenization.Tokenizer.ScanWord | src/tokenization.hpp:100-103 | consumes exactly the maximal alphanumeric run and returns it |
| Tokenization.Tokenizer.ScanLiteral | src/tokenization.hpp:130-133 | consumes exactly the maximal digit run and returns it |
| Tokenization.Tokenizer.SkipLineComment | src/tokenization.hpp:137-143 | the cursor ends where `LineEnd` says |
| Tokenization.Tokenizer.SkipBlockComment | src/tokenization.hpp:144-162 | the cursor ends where `BlockEnd` says, including the unclosed case |
| Tokenization.Tokenizer.Classify | src/tokenization.hpp:104-126 | the keyword chain yields the `Word` token of the scanned text |
| Tokenization.Tokenizer.ScanLexeme | src/tokenization.hpp:99-213 | one iteration of the dispatch computes `Step` at the cursor and leaves the cursor at its end |
| Tokenization.Tokenizer.Tokenize | src/tokenization.hpp:93-217 | the method's result is `Lex` of the source from the cursor on line 1, and the cursor is reset to 0 on success |
| Parsing.ExprAt | src/parser.hpp:63-80 | an expression is read exactly when the next token is a literal or an identifier, and it is that token |
| Parsing.StmtAt | src/parser.hpp:82-133 | a statement that is read spans exactly five tokens that spell it |
| Parsing.StmtAtOutcomes | src/parser.hpp:82-133 | no statement exactly when neither the `exit (` nor the `var ident =` lookahead matches; "invalid expression", "`)` expected" and "`;` expected" each occur exactly under their conditions; "invalid statement" never comes from here |
| Parsing.StmtAtComplete | src/parser.hpp:82-133 | whenever five tokens spell a statement, that statement is what is read there |
| Parsing.ProgFrom | src/parser.hpp:135-146 | an accepted program has exactly one statement per five remaining tokens |
| Parsing.Parse | src/parser.hpp:135-146 | a parsed program has one statement per five tokens; which programs it yields is `ParseCharacterised`, and which error `ParseFirstError` |
| Parsing.ProgFromSound | src/parser.hpp:135-146 | everything accepted is grammatical: the tokens are the statements' spellings in order |
| Parsing.ProgFromComplete | src/parser.hpp:135-146 | every grammatical token sequence is accepted as exactly its statements |
| Parsing.ParseCharacterised | src/parser.hpp:135-146 | parsing yields a program if and only if the tokens spell it |
| Parsing.ProgFromStops | src/parser.hpp:137-143 | at any position where a token remains, a token that starts neither form gives "invalid statement", and a statement that breaks off ends the parse with its own error |
| Parsing.ProgFromPrefix | src/parser.hpp:137-140 | statements spelled by the tokens between two positions are kept, in order, ahead of whatever the tokens after them parse to, statements or an error |
| Parsing.ParseFirstError | src/parser.hpp:135-146 | after any grammatical run of statements, running out of tokens yields exactly those statements, a token that starts no statement yields "invalid statement", and a statement that breaks off yields its own error |
| Parsing.Parser.constructor | src/parser.hpp:57-61 | the parser starts at index 0 of its tokens |
| Parsing.Parser.Peek | src/parser.hpp:150-156 | the token `offset` ahead of the cursor, or nothing past the end |
| Parsing.Parser.Consume | src/parser.hpp:158-160 | returns the token at the cursor and advances the cursor by one |
| Parsing.Parser.ParseExpr | src/parser.hpp:63-80 | the result is `ExprAt` at the cursor; the cursor advances by one exactly when an expression is read |
| Parsing.Parser.ParseStmt | src/parser.hpp:82-133 | the result and the error agree with `StmtAt`; without a statement the cursor stays, with one it moves past its five tokens |
| Parsing.Parser.ParseProg | src/parser.hpp:135-146 | the result and the error agree with `ProgFrom` from the cursor; on success every token is consumed |
| Generation.ExprText | src/generation.hpp:13-30 | what `gen_expr` writes: nothing exactly for an identifier; the literal's two lines are stated by `ExprTextExact` |
| Generation.StmtCode | src/generation.hpp:32-50 | the instructions `gen_stmt` generates; that `var` generates none and what `exit` writes is stated by `StmtTextExact`, its stack effect by `ExitLiteralBalanced` and `ExitIdentUnderflows` |
| Generation.ProgText | src/generation.hpp:52-63 | what `gen_prog` returns always begins with the `_start` prologue; its whole shape is stated by `ProgTextShape`, and `Generator.GenProg` is proved to write it |
| Generation.ExprTextExact | src/generation.hpp:17-25 | a literal emits `mov rax, <its text>` then `push rax`; an identifier emits nothing |
| Generation.StmtTextExact | src/generation.hpp:35-45 | `exit` emits its expression's code then `mov rax, 60`, `pop rdi`, `syscall`; `var` emits nothing |
| Generation.StmtsCodeText | src/generation.hpp:55-57 | the statements' code renders as their texts in program order |
| Generation.ProgTextShape | src/generation.hpp:52-63 | the output is the `_start` prologue, the statements' texts in order, and the default `exit(0)` sequence; it always begins with the prologue and ends with that sequence |
| Generation.ExitLiteralBalanced | src/generation.hpp:35-41 | `exit` of a literal never pops an empty stack and leaves any stack depth as it found it |
| Generation.StmtsBalanced | src/generation.hpp:55-57 | statements whose `exit`s all take literals never pop an empty stack and leave the depth unchanged |
| Generation.ExitIdentUnderflows | src/generation.hpp:23-25 | `exit` of an identifier on an empty stack pops nothing it pushed: the pop underflows |
| Generation.Generator.constructor | src/generation.hpp:9-11 | the generator keeps its program and starts with empty output |
| Generation.Generator.GenExpr | src/generation.hpp:13-30 | appends exactly the expression's text to the output |
| Generation.Generator.GenStmt | src/generation.hpp:32-50 | appends exactly the statement's text to the output |
| Generation.Generator.GenProg | src/generation.hpp:52-63 | appends `ProgText` of the program to the output and returns the whole output |
| Compiler.ProgFromEmittable | src/parser.hpp:63-80 | in a program parsed from well-formed tokens, every literal under an `exit` carries its text, so the generator can render it |
| Compiler.Compile | src/main.cpp:25-40 | the compiler yields text exactly when tokenizing and parsing succeed, and reports the first stage's error; the text begins with the prologue and ends with the default exit |
| Compiler.Run | src/main.cpp:25-40 | the three objects used in turn compute `Compile` |
| Compiler.ParseExitStatement | src/parser.hpp:82-107 | the five tokens of `exit(d);` parse as one exit statement of literal `d` |
| Compiler.TextExitStatement | src/generation.hpp:52-63 | that program renders as the prologue, `mov rax, d`, `push rax`, the exit sequence, and the default exit |
| Compiler.CompileExitSource | src/main.cpp:25-40 | for every digit string `d`, `exit(d);` compiles to exactly that text |

## Left out

- The driver's I/O is not modelled: reading the source file, writing
  `out.asm`, the usage message, and running `nasm` and `ld` (src/main.cpp).
  `Compile` takes the file's contents as a parameter and returns the text.
- The driver's "Program invalid" branch is unreachable. `parse_prog` always
  returns a program and reports errors by exiting.
- The arena allocator (arena.hpp is not part of this model). AST nodes are
  values, not arena pointers, so aliasing between nodes is not captured.
- Error messages are printed to `stderr` before `exit(EXIT_FAILURE)`. They
  become `Err` values. The message text is not modelled; the tokenizer's line
  number is.
- `std::isalpha`, `std::isalnum`, `std::isdigit` and `std::isspace` are
  modelled for the default "C" locale only, over ASCII.
- `to_string`'s trailing assertion is not modelled, because it cannot be
  reached.
- `bin_prec` is modelled, but the source never calls it. The binary-expression
  nodes `BinExprAdd`, `BinExprMulti` and `NodeBinaryExpr`
  (src/parser.hpp:20-32), and the `NodeBinaryExpr*` alternative of `NodeExpr`
  (src/parser.hpp:35), are never built by the parser, so they are not
  modelled.
- Tokenization.Tokenize: the line counter is an unbounded integer, so the
  overflow of the source's `int line_count` is not modelled.
- Tokenization.Tokenizer.Tokenize: the inner scanning loops and the body of
  the main loop are separate methods (`ScanWord`, `ScanLiteral`,
  `SkipLineComment`, `SkipBlockComment`, `Classify`, `ScanLexeme`). In the
  source they are inline. The order of consumption and the tokens emitted
  are the same.
- Parsing.Parser.ParseStmt requires a token at the cursor. `parse_stmt`
  reads `peek().value()` without checking, and its only caller checks first.
- Generation.Generator.GenExpr: code generation for identifiers and `var`
  statements is unfinished in the source and emits nothing. The model emits
  nothing too, so an `exit` of an identifier pops a word it never pushed
  (`Generation.ExitIdentUnderflows`).
- Generation.Generator.GenProg requires every literal under an `exit` to
  carry its text (`Generation.StmtEmittable`). The source calls `value()` on
  the literal's optional text only when it generates an `exit` operand
  (src/generation.hpp:18,37); `var` statements generate nothing, so their
  literals are not constrained. `Compiler.ProgFromEmittable` shows that this
  holds for every parsed program.
