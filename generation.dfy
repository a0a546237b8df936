/** The code generator: appends x86-64 NASM text for a parsed program to an
    output buffer. The text is modelled as the rendering of a list of
    instructions, so that what the code does to the machine stack can be
    stated beside what it looks like. */
module Generation {
  import opened Wrappers
  import opened Tokenization
  import opened Parsing

  datatype Reg = Rax | Rdi

  datatype Instr = Mov(dst: Reg, operand: string) | Push(src: Reg) | Pop(dst: Reg) | Syscall

  function RegName(r: Reg): string
  {
    match r
    case Rax => "rax"
    case Rdi => "rdi"
  }

  /** One instruction as an indented line of assembly. */
  function Line(ins: Instr): string
  {
    match ins
    case Mov(d, x) => "    mov " + RegName(d) + ", " + x + "\n"
    case Push(r) => "    push " + RegName(r) + "\n"
    case Pop(r) => "    pop " + RegName(r) + "\n"
    case Syscall => "    syscall\n"
  }

  /** The text of an instruction list, one line per instruction. */
  function Asm(code: seq<Instr>): string
  {
    if code == [] then "" else Line(code[0]) + Asm(code[1..])
  }

  lemma {:induction false} AsmAppend(a: seq<Instr>, b: seq<Instr>)
    ensures Asm(a + b) == Asm(a) + Asm(b)
  {
    if a == [] {
      assert a + b == b;
    } else {
      assert (a + b)[1..] == a[1..] + b;
      AsmAppend(a[1..], b);
    }
  }

  lemma AsmTwo(a: Instr, b: Instr)
    ensures Asm([a, b]) == Line(a) + Line(b)
  {
    assert [a, b][1..] == [b];
    assert [b][1..] == [];
    assert Asm([b]) == Line(b) + Asm([]);
    assert Line(b) + "" == Line(b);
  }

  lemma AsmThree(a: Instr, b: Instr, c: Instr)
    ensures Asm([a, b, c]) == Line(a) + Line(b) + Line(c)
  {
    assert [a, b, c][1..] == [b, c];
    AsmTwo(b, c);
  }

  /** The fixed lines the generator writes, spelled out. */
  lemma FixedLines()
    ensures Line(Mov(Rax, "60")) == "    mov rax, 60\n"
    ensures Line(Mov(Rdi, "0")) == "    mov rdi, 0\n"
    ensures Line(Pop(Rdi)) == "    pop rdi\n"
    ensures Line(Push(Rax)) == "    push rax\n"
    ensures Line(Syscall) == "    syscall\n"
  {
  }

  /** Entry-point label emitted before any statement. */
  const Prologue: string := "global _start\n_start:\n"

  /** `exit` system call (number 60) with the status popped off the stack. */
  const ExitSequence: seq<Instr> := [Mov(Rax, "60"), Pop(Rdi), Syscall]

  /** Exit with status 0, emitted after the last statement. */
  const DefaultExit: seq<Instr> := [Mov(Rax, "60"), Mov(Rdi, "0"), Syscall]

  /** An integer literal the generator reads the text of must carry text. */
  predicate Emittable(e: NodeExpr)
  {
    e.ExprIntLit? ==> e.intLit.value.Some?
  }

  /** Only an `exit` statement's expression is ever generated. */
  predicate StmtEmittable(s: NodeStmt)
  {
    s.StmtExit? ==> Emittable(s.expr)
  }

  predicate ProgEmittable(stmts: seq<NodeStmt>)
  {
    forall k | 0 <= k < |stmts| && stmts[k].StmtExit? :: Emittable(stmts[k].expr)
  }

  function ExprCode(e: NodeExpr): seq<Instr>
    requires Emittable(e)
  {
    match e
    case ExprIntLit(lit) => [Mov(Rax, lit.value.value), Push(Rax)]
    case ExprIdent(_) => []
  }

  function StmtCode(s: NodeStmt): seq<Instr>
    requires StmtEmittable(s)
  {
    match s
    case StmtExit(e) => ExprCode(e) + ExitSequence
    case StmtVar(_, _) => []
  }

  function StmtsCode(stmts: seq<NodeStmt>): seq<Instr>
    requires ProgEmittable(stmts)
  {
    if stmts == [] then [] else StmtCode(stmts[0]) + StmtsCode(stmts[1..])
  }

  function ExprText(e: NodeExpr): (r: string)
    requires Emittable(e)
    ensures |r| == 0 <==> e.ExprIdent?
  {
    Asm(ExprCode(e))
  }

  function StmtText(s: NodeStmt): string
    requires StmtEmittable(s)
  {
    Asm(StmtCode(s))
  }

  /** The statements' texts concatenated in program order. */
  function StmtsText(stmts: seq<NodeStmt>): string
    requires ProgEmittable(stmts)
  {
    if stmts == [] then "" else StmtText(stmts[0]) + StmtsText(stmts[1..])
  }

  /** The whole output for a program. */
  function ProgText(p: NodeProg): (r: string)
    requires ProgEmittable(p.stmts)
    ensures Prologue <= r
  {
    Prologue + Asm(StmtsCode(p.stmts)) + Asm(DefaultExit)
  }

  /** An integer literal loads its own text into `rax` and pushes it; an
      identifier emits nothing. */
  lemma ExprTextExact(e: NodeExpr)
    requires Emittable(e)
    ensures e.ExprIntLit? ==> ExprText(e) == "    mov rax, " + e.intLit.value.value + "\n" + "    push rax\n"
    ensures e.ExprIdent? ==> ExprText(e) == ""
  {
    if e.ExprIntLit? {
      AsmTwo(Mov(Rax, e.intLit.value.value), Push(Rax));
      FixedLines();
    }
  }

  /** `exit` is its expression's code followed by the exit system call; a
      `var` statement emits nothing. */
  lemma StmtTextExact(s: NodeStmt)
    requires StmtEmittable(s)
    ensures s.StmtExit? ==>
              StmtText(s) == ExprText(s.expr) + "    mov rax, 60\n" + "    pop rdi\n" + "    syscall\n"
    ensures s.StmtVar? ==> StmtText(s) == ""
  {
    if s.StmtExit? {
      var x := ExprText(s.expr);
      AsmAppend(ExprCode(s.expr), ExitSequence);
      AsmThree(Mov(Rax, "60"), Pop(Rdi), Syscall);
      FixedLines();
      var a, b, c := "    mov rax, 60\n", "    pop rdi\n", "    syscall\n";
      assert Asm(ExitSequence) == a + b + c;
      assert x + (a + b + c) == x + a + b + c;
    }
  }

  /** The code of a statement list renders as the statements' texts in order. */
  lemma {:induction false} StmtsCodeText(stmts: seq<NodeStmt>)
    requires ProgEmittable(stmts)
    ensures Asm(StmtsCode(stmts)) == StmtsText(stmts)
  {
    if stmts != [] {
      ProgEmittableTail(stmts);
      AsmAppend(StmtCode(stmts[0]), StmtsCode(stmts[1..]));
      StmtsCodeText(stmts[1..]);
    }
  }

  lemma ProgEmittableTail(stmts: seq<NodeStmt>)
    requires stmts != [] && ProgEmittable(stmts)
    ensures ProgEmittable(stmts[1..])
  {
    forall k | 0 <= k < |stmts[1..]| ensures StmtEmittable(stmts[1..][k]) {
      assert stmts[1..][k] == stmts[k + 1];
    }
  }

  lemma ProgEmittableSnoc(stmts: seq<NodeStmt>, s: NodeStmt)
    requires ProgEmittable(stmts) && StmtEmittable(s)
    ensures ProgEmittable(stmts + [s])
  {
    var all := stmts + [s];
    forall k | 0 <= k < |all| ensures StmtEmittable(all[k]) {
      if k < |stmts| {
        assert all[k] == stmts[k];
      } else {
        assert all[k] == s;
      }
    }
  }

  /** Appending one statement appends its text. */
  lemma {:induction false} StmtsTextSnoc(stmts: seq<NodeStmt>, s: NodeStmt)
    requires ProgEmittable(stmts) && StmtEmittable(s)
    ensures ProgEmittable(stmts + [s])
    ensures StmtsText(stmts + [s]) == StmtsText(stmts) + StmtText(s)
  {
    var all := stmts + [s];
    ProgEmittableSnoc(stmts, s);
    if stmts != [] {
      assert all[1..] == stmts[1..] + [s];
      ProgEmittableTail(stmts);
      StmtsTextSnoc(stmts[1..], s);
    } else {
      assert all[1..] == [];
    }
  }

  /** The output is the entry label, then every statement's text in program
      order, then the default exit with status 0. */
  lemma ProgTextShape(p: NodeProg)
    requires ProgEmittable(p.stmts)
    ensures ProgText(p) == "global _start\n_start:\n" + StmtsText(p.stmts)
                           + "    mov rax, 60\n" + "    mov rdi, 0\n" + "    syscall\n"
    ensures |ProgText(p)| >= |Prologue| + 43
    ensures ProgText(p)[..|Prologue|] == "global _start\n_start:\n"
    ensures ProgText(p)[|ProgText(p)| - 43..] == "    mov rax, 60\n" + "    mov rdi, 0\n" + "    syscall\n"
  {
    StmtsCodeText(p.stmts);
    AsmThree(Mov(Rax, "60"), Mov(Rdi, "0"), Syscall);
    FixedLines();
    var mid := StmtsText(p.stmts);
    var tail := "    mov rax, 60\n" + "    mov rdi, 0\n" + "    syscall\n";
    assert |tail| == 43;
    assert ProgText(p) == Prologue + mid + tail;
    assert (Prologue + mid + tail)[..|Prologue|] == Prologue;
    assert (Prologue + mid + tail)[|Prologue + mid + tail| - |tail|..] == tail;
  }

  // The machine stack as the generated code uses it.

  /** Words pushed (1), popped (-1) or neither (0) by one instruction. */
  function Effect(i: Instr): int
  {
    match i
    case Push(_) => 1
    case Pop(_) => -1
    case _ => 0
  }

  /** Runs the code's pushes and pops on a stack holding `depth` words: the
      final depth, or nothing if some pop finds the stack empty. */
  function Simulate(code: seq<Instr>, depth: nat): Option<nat>
  {
    if code == [] then Some(depth)
    else if depth + Effect(code[0]) < 0 then None
    else Simulate(code[1..], depth + Effect(code[0]))
  }

  lemma {:induction false} SimulateAppend(a: seq<Instr>, b: seq<Instr>, depth: nat)
    ensures Simulate(a + b, depth) ==
              match Simulate(a, depth)
              case None => None
              case Some(d) => Simulate(b, d)
  {
    if a == [] {
      assert a + b == b;
    } else {
      assert (a + b)[0] == a[0] && (a + b)[1..] == a[1..] + b;
      if depth + Effect(a[0]) >= 0 {
        SimulateAppend(a[1..], b, depth + Effect(a[0]));
      }
    }
  }

  /** `exit` of an integer literal pushes one word and pops it again, so it
      leaves any stack as it found it. */
  lemma ExitLiteralBalanced(lit: Token, depth: nat)
    requires lit.value.Some?
    ensures Simulate(StmtCode(StmtExit(ExprIntLit(lit))), depth) == Some(depth)
  {
    var v := lit.value.value;
    var code := StmtCode(StmtExit(ExprIntLit(lit)));
    assert code == [Mov(Rax, v), Push(Rax), Mov(Rax, "60"), Pop(Rdi), Syscall];
    var t1, t2, t3, t4 := code[1..], code[2..], code[3..], code[4..];
    assert t4 == [Syscall] && t4[1..] == [];
    assert Simulate(t4, depth) == Some(depth);
    assert t3 == [Pop(Rdi)] + t4 && t3[1..] == t4;
    assert Simulate(t3, depth + 1) == Some(depth);
    assert t2 == [Mov(Rax, "60")] + t3 && t2[1..] == t3;
    assert Simulate(t2, depth + 1) == Some(depth);
    assert t1 == [Push(Rax)] + t2 && t1[1..] == t2;
    assert Simulate(t1, depth) == Some(depth);
    assert code[1..] == t1;
  }

  /** When every `exit` takes an integer literal, the program's statements
      leave the stack as they found it, and no pop finds it empty. */
  lemma {:induction false} StmtsBalanced(stmts: seq<NodeStmt>, depth: nat)
    requires ProgEmittable(stmts)
    requires forall k | 0 <= k < |stmts| :: stmts[k].StmtExit? ==> stmts[k].expr.ExprIntLit?
    ensures Simulate(StmtsCode(stmts), depth) == Some(depth)
  {
    if stmts != [] {
      var s := stmts[0];
      if s.StmtExit? {
        ExitLiteralBalanced(s.expr.intLit, depth);
      }
      ProgEmittableTail(stmts);
      forall k | 0 <= k < |stmts[1..]| ensures stmts[1..][k].StmtExit? ==> stmts[1..][k].expr.ExprIntLit? {
        assert stmts[1..][k] == stmts[k + 1];
      }
      StmtsBalanced(stmts[1..], depth);
      SimulateAppend(StmtCode(s), StmtsCode(stmts[1..]), depth);
    }
  }

  /** Identifiers emit no code yet, so on an empty stack `exit` of an
      identifier pops a word that was never pushed. */
  lemma ExitIdentUnderflows(id: Token)
    ensures Simulate(StmtCode(StmtExit(ExprIdent(id))), 0) == None
  {
    var code := StmtCode(StmtExit(ExprIdent(id)));
    assert code == [Mov(Rax, "60"), Pop(Rdi), Syscall];
    assert code[1..] == [Pop(Rdi), Syscall];
  }

  /** Appending three lines one at a time appends their concatenation. */
  lemma AppendAssoc(o: string, x: string, a: string, b: string, c: string)
    ensures o + x + a + b + c == o + (x + a + b + c)
  {
  }

  lemma AppendAssoc6(o: string, p: string, x: string, a: string, b: string, c: string)
    ensures o + p + x + a + b + c == o + (p + x + a + b + c)
  {
  }

  lemma OutputGrows(o: string, stmts: seq<NodeStmt>, k: nat)
    requires k < |stmts| && ProgEmittable(stmts[..k]) && StmtEmittable(stmts[k])
    ensures ProgEmittable(stmts[..k + 1])
    ensures o + StmtsText(stmts[..k]) + StmtText(stmts[k]) == o + StmtsText(stmts[..k + 1])
  {
    assert stmts[..k + 1] == stmts[..k] + [stmts[k]];
    StmtsTextSnoc(stmts[..k], stmts[k]);
  }

  /** The compiler's generator object: the program and the output buffer. */
  class Generator {
    const prog: NodeProg
    var output: string

    constructor(prog: NodeProg)
      ensures this.prog == prog && output == ""
    {
      this.prog := prog;
      output := "";
    }

    method GenExpr(e: NodeExpr)
      requires Emittable(e)
      modifies this
      ensures output == old(output) + ExprText(e)
    {
      ExprTextExact(e);
      match e
      case ExprIntLit(lit) =>
        output := output + "    mov rax, " + lit.value.value + "\n";
        output := output + "    push rax\n";
      case ExprIdent(_) =>
        // identifiers have no code generation yet
    }

    method GenStmt(s: NodeStmt)
      requires StmtEmittable(s)
      modifies this
      ensures output == old(output) + StmtText(s)
    {
      StmtTextExact(s);
      match s
      case StmtExit(e) =>
        GenExpr(e);
        output := output + "    mov rax, 60\n";
        output := output + "    pop rdi\n";
        output := output + "    syscall\n";
        AppendAssoc(old(output), ExprText(e), "    mov rax, 60\n", "    pop rdi\n", "    syscall\n");
      case StmtVar(_, _) =>
        // variables have no code generation yet
        assert output + "" == output;
    }

    /** Appends the whole program's text and returns the buffer. */
    method GenProg() returns (r: string)
      requires ProgEmittable(prog.stmts)
      modifies this
      ensures output == old(output) + ProgText(prog) && r == output
    {
      output := output + "global _start\n_start:\n";
      for k := 0 to |prog.stmts|
        invariant ProgEmittable(prog.stmts[..k])
        invariant output == old(output) + Prologue + StmtsText(prog.stmts[..k])
      {
        GenStmt(prog.stmts[k]);
        OutputGrows(old(output) + Prologue, prog.stmts, k);
      }
      assert prog.stmts[..|prog.stmts|] == prog.stmts;
      output := output + "    mov rax, 60\n";
      output := output + "    mov rdi, 0\n";
      output := output + "    syscall\n";
      ProgTextShape(prog);
      AppendAssoc6(old(output), Prologue, StmtsText(prog.stmts), "    mov rax, 60\n", "    mov rdi, 0\n", "    syscall\n");
      r := output;
    }
  }
}
