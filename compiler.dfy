/** The three stages chained as the compiler's driver chains them: tokens,
    then a program, then assembly text; the first failing stage decides
    the error. Reading the input file, writing the output file and running
    the assembler and linker are not part of this model. */
module Compiler {
  import opened Wrappers
  import opened Tokenization
  import opened Parsing
  import opened Generation

  datatype CompileError = LexFailure(lex: LexError) | ParseFailure(parse: ParseError)

  /** The parser keeps the tokens it stores, so from well-formed tokens it
      builds only expressions whose literal text the generator can read. */
  lemma {:induction false} ProgFromEmittable(ts: seq<Token>, i: nat)
    requires i <= |ts|
    requires forall k | 0 <= k < |ts| :: WellFormed(ts[k])
    ensures ProgFrom(ts, i).Ok? ==> ProgEmittable(ProgFrom(ts, i).value)
    decreases |ts| - i
  {
    if i < |ts| && StmtAt(ts, i).Ok? && StmtAt(ts, i).value.Some? {
      var p := StmtAt(ts, i).value.value;
      ProgFromEmittable(ts, p.next);
      if ProgFrom(ts, p.next).Ok? {
        var w := ts[i..i + 5];
        assert w[2] == ts[i + 2] && w[3] == ts[i + 3];
        assert StmtEmittable(p.stmt);
        var stmts := ProgFrom(ts, i).value;
        assert stmts == [p.stmt] + ProgFrom(ts, p.next).value;
      }
    }
  }

  /** The assembly text for a source text, or the first stage's error. */
  function Compile(src: string): (r: Result<string, CompileError>)
    ensures r.Ok? <==> Tokenize(src).Ok? && Parse(Tokenize(src).value).Ok?
    ensures Tokenize(src).Err? ==> r == Err(LexFailure(Tokenize(src).error))
    ensures Tokenize(src).Ok? && Parse(Tokenize(src).value).Err? ==>
              r == Err(ParseFailure(Parse(Tokenize(src).value).error))
    ensures r.Ok? ==> |r.value| >= |Prologue| + 43
    ensures r.Ok? ==> r.value[..|Prologue|] == "global _start\n_start:\n"
    ensures r.Ok? ==>
              r.value[|r.value| - 43..] == "    mov rax, 60\n" + "    mov rdi, 0\n" + "    syscall\n"
  {
    match Tokenize(src)
    case Err(e) => Err(LexFailure(e))
    case Ok(tokens) =>
      match Parse(tokens)
      case Err(e) => Err(ParseFailure(e))
      case Ok(prog) =>
        LexWellFormed(src, 0, 1);
        ProgFromEmittable(tokens, 0);
        ProgTextShape(prog);
        Ok(ProgText(prog))
  }

  /** The driver, using the three stage objects in turn. */
  method Run(src: string) returns (r: Result<string, CompileError>)
    ensures r == Compile(src)
  {
    var tokenizer := new Tokenizer(src);
    var tokens := tokenizer.Tokenize();
    assert tokens == Tokenize(src);
    if tokens.Err? {
      return Err(LexFailure(tokens.error));
    }
    var parser := new Parser(tokens.value);
    var prog := parser.ParseProg();
    assert prog.Ok? ==> Parse(tokens.value) == prog;
    assert prog.Err? ==> Parse(tokens.value) == Err(prog.error);
    if prog.Err? {
      return Err(ParseFailure(prog.error));
    }
    LexWellFormed(src, 0, 1);
    ProgFromEmittable(tokens.value, 0);
    var generator := new Generator(prog.value);
    var text := generator.GenProg();
    assert text == "" + ProgText(prog.value) == ProgText(prog.value);
    r := Ok(text);
  }

  /** `exit(d);` compiles to the entry label, the literal `d` pushed and
      popped into the exit status, and the unreachable default exit. */
  lemma CompileExitSource(d: string)
    requires IsDigits(d)
    ensures Compile(ExitSource(d)) == Ok("global _start\n_start:\n"
                                         + "    mov rax, " + d + "\n" + "    push rax\n"
                                         + "    mov rax, 60\n" + "    pop rdi\n" + "    syscall\n"
                                         + "    mov rax, 60\n" + "    mov rdi, 0\n" + "    syscall\n")
  {
    var prog := NodeProg([StmtExit(ExprIntLit(Token(IntLit, 1, Some(d))))]);
    TokenizeExitSource(d);
    ParseExitStatement(d);
    TextExitStatement(d);
    assert Compile(ExitSource(d)) == Ok(ProgText(prog));
  }

  /** The five tokens of `exit(d);` are one exit statement. */
  lemma ParseExitStatement(d: string)
    ensures Parse([Token(Exit, 1, None), Token(LParen, 1, None), Token(IntLit, 1, Some(d)),
                   Token(RParen, 1, None), Token(Semi, 1, None)])
            == Ok(NodeProg([StmtExit(ExprIntLit(Token(IntLit, 1, Some(d))))]))
  {
    var lit := Token(IntLit, 1, Some(d));
    var ts := [Token(Exit, 1, None), Token(LParen, 1, None), lit, Token(RParen, 1, None), Token(Semi, 1, None)];
    var prog := NodeProg([StmtExit(ExprIntLit(lit))]);
    assert ts[..5] == ts && ts[5..] == [];
    assert ProgSpells(prog.stmts, ts);
    ParseCharacterised(ts, prog);
  }

  lemma Regroup(p: string, x: string, y: string, z: string, w: string,
                a: string, b: string, c: string, e: string)
    ensures p + ((x + y + z + w) + a + b + c) + a + e + c == p + x + y + z + w + a + b + c + a + e + c
  {
  }

  /** The text generated for that one statement. */
  lemma TextExitStatement(d: string)
    ensures var prog := NodeProg([StmtExit(ExprIntLit(Token(IntLit, 1, Some(d))))]);
            ProgEmittable(prog.stmts) &&
            ProgText(prog) == "global _start\n_start:\n"
                              + "    mov rax, " + d + "\n" + "    push rax\n"
                              + "    mov rax, 60\n" + "    pop rdi\n" + "    syscall\n"
                              + "    mov rax, 60\n" + "    mov rdi, 0\n" + "    syscall\n"
  {
    var stmt := StmtExit(ExprIntLit(Token(IntLit, 1, Some(d))));
    var prog := NodeProg([stmt]);
    var x := ExprText(stmt.expr);
    var a, b, c := "    mov rax, 60\n", "    pop rdi\n", "    syscall\n";
    ExprTextExact(stmt.expr);
    assert StmtsText([stmt]) == x + a + b + c by {
      StmtTextExact(stmt);
      assert StmtsText([stmt]) == StmtText(stmt) + "";
    }
    ProgTextShape(prog);
    Regroup("global _start\n_start:\n", "    mov rax, ", d, "\n", "    push rax\n", a, b, c, "    mov rdi, 0\n");
  }
}
