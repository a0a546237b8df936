/** The parser: recursive descent over the token sequence with a cursor.
    It knows two statement forms, `exit ( E ) ;` and `var IDENT = E ;`,
    where an expression E is a single integer literal or identifier. */
module Parsing {
  import opened Wrappers
  import opened Tokenization

  datatype NodeExpr = ExprIntLit(intLit: Token) | ExprIdent(ident: Token)

  datatype NodeStmt = StmtExit(expr: NodeExpr) | StmtVar(ident: Token, expr: NodeExpr)

  datatype NodeProg = NodeProg(stmts: seq<NodeStmt>)

  /** Which check failed, for each of the parser's fatal errors. */
  datatype ParseError = InvalidExpression | ExpectedCloseParen | ExpectedSemicolon | InvalidStatement

  /** A parsed statement and the position just after it. */
  datatype Parsed = Parsed(stmt: NodeStmt, next: nat)

  /** The kind of the token at `k`, if there is one. */
  function KindAt(ts: seq<Token>, k: nat): Option<TokenType>
  {
    if k < |ts| then Some(ts[k].kind) else None
  }

  predicate IsExprKind(k: Option<TokenType>)
  {
    k == Some(IntLit) || k == Some(Ident)
  }

  /** `e` is the expression that token `t` spells. */
  predicate Spells(e: NodeExpr, t: Token)
  {
    match e
    case ExprIntLit(lit) => lit == t && t.kind == IntLit
    case ExprIdent(id) => id == t && t.kind == Ident
  }

  /** The grammar of one statement: `stmt` is what the five tokens `w` spell. */
  predicate StmtSpells(stmt: NodeStmt, w: seq<Token>)
  {
    |w| == 5 &&
    match stmt
    case StmtExit(e) =>
      w[0].kind == Exit && w[1].kind == LParen && Spells(e, w[2]) && w[3].kind == RParen && w[4].kind == Semi
    case StmtVar(id, e) =>
      w[0].kind == Var && w[1] == id && id.kind == Ident && w[2].kind == Eq && Spells(e, w[3]) && w[4].kind == Semi
  }

  /** The grammar of a program: `ts` is the statements' windows, one after another. */
  predicate ProgSpells(stmts: seq<NodeStmt>, ts: seq<Token>)
  {
    if stmts == [] then ts == []
    else |ts| >= 5 && StmtSpells(stmts[0], ts[..5]) && ProgSpells(stmts[1..], ts[5..])
  }

  /** The lookahead that commits to the `exit` form. */
  predicate ExitAhead(ts: seq<Token>, i: nat)
  {
    KindAt(ts, i) == Some(Exit) && KindAt(ts, i + 1) == Some(LParen)
  }

  /** The lookahead that commits to the `var` form. */
  predicate VarAhead(ts: seq<Token>, i: nat)
  {
    KindAt(ts, i) == Some(Var) && KindAt(ts, i + 1) == Some(Ident) && KindAt(ts, i + 2) == Some(Eq)
  }

  /** An expression at `i`: a leaf for a literal or identifier token, else nothing. */
  function ExprAt(ts: seq<Token>, i: nat): (r: Option<NodeExpr>)
    ensures r.Some? <==> IsExprKind(KindAt(ts, i))
    ensures r.Some? ==> Spells(r.value, ts[i])
  {
    if i < |ts| && ts[i].kind == IntLit then Some(ExprIntLit(ts[i]))
    else if i < |ts| && ts[i].kind == Ident then Some(ExprIdent(ts[i]))
    else None
  }

  /** A statement at `i`: nothing when neither form's lookahead matches;
      once a form is chosen, each missing piece is its own fatal error. */
  function StmtAt(ts: seq<Token>, i: nat): (r: Result<Option<Parsed>, ParseError>)
    requires i < |ts|
    ensures r.Ok? && r.value.Some? ==>
              && r.value.value.next == i + 5 <= |ts|
              && StmtSpells(r.value.value.stmt, ts[i..i + 5])
  {
    if ts[i].kind == Exit && KindAt(ts, i + 1) == Some(LParen) then
      match ExprAt(ts, i + 2)
      case None => Err(InvalidExpression)
      case Some(e) =>
        if KindAt(ts, i + 3) != Some(RParen) then Err(ExpectedCloseParen)
        else if KindAt(ts, i + 4) != Some(Semi) then Err(ExpectedSemicolon)
        else Ok(Some(Parsed(StmtExit(e), i + 5)))
    else if VarAhead(ts, i) then
      match ExprAt(ts, i + 3)
      case None => Err(InvalidExpression)
      case Some(e) =>
        if KindAt(ts, i + 4) != Some(Semi) then Err(ExpectedSemicolon)
        else Ok(Some(Parsed(StmtVar(ts[i + 1], e), i + 5)))
    else Ok(None)
  }

  /** When the parser reads no statement, and which error it reports for
      each way a committed form can break off. */
  lemma StmtAtOutcomes(ts: seq<Token>, i: nat)
    requires i < |ts|
    ensures StmtAt(ts, i) == Ok(None) <==> !ExitAhead(ts, i) && !VarAhead(ts, i)
    ensures StmtAt(ts, i) == Err(InvalidExpression) <==>
              || (ExitAhead(ts, i) && !IsExprKind(KindAt(ts, i + 2)))
              || (VarAhead(ts, i) && !IsExprKind(KindAt(ts, i + 3)))
    ensures StmtAt(ts, i) == Err(ExpectedCloseParen) <==>
              ExitAhead(ts, i) && IsExprKind(KindAt(ts, i + 2)) && KindAt(ts, i + 3) != Some(RParen)
    ensures StmtAt(ts, i) == Err(ExpectedSemicolon) <==>
              || (ExitAhead(ts, i) && IsExprKind(KindAt(ts, i + 2)) && KindAt(ts, i + 3) == Some(RParen)
                  && KindAt(ts, i + 4) != Some(Semi))
              || (VarAhead(ts, i) && IsExprKind(KindAt(ts, i + 3)) && KindAt(ts, i + 4) != Some(Semi))
    ensures StmtAt(ts, i) != Err(InvalidStatement)
  {
  }

  /** Whenever the five tokens at `i` spell a statement, that statement is
      what the parser reads there. */
  lemma StmtAtComplete(ts: seq<Token>, i: nat, stmt: NodeStmt)
    requires i + 5 <= |ts| && StmtSpells(stmt, ts[i..i + 5])
    ensures StmtAt(ts, i) == Ok(Some(Parsed(stmt, i + 5)))
  {
    var w := ts[i..i + 5];
    assert w[0] == ts[i] && w[1] == ts[i + 1] && w[2] == ts[i + 2] && w[3] == ts[i + 3] && w[4] == ts[i + 4];
  }

  /** The statements of `ts[i..]`: a statement must match wherever a token remains. */
  function ProgFrom(ts: seq<Token>, i: nat): (r: Result<seq<NodeStmt>, ParseError>)
    requires i <= |ts|
    ensures r.Ok? ==> |ts| - i == 5 * |r.value|
    decreases |ts| - i
  {
    if i == |ts| then Ok([])
    else
      match StmtAt(ts, i)
      case Err(e) => Err(e)
      case Ok(None) => Err(InvalidStatement)
      case Ok(Some(p)) => Prepend([p.stmt], ProgFrom(ts, p.next))
  }

  /** The whole token sequence as a program. */
  function Parse(ts: seq<Token>): (r: Result<NodeProg, ParseError>)
    ensures r.Ok? ==> |ts| == 5 * |r.value.stmts|
  {
    match ProgFrom(ts, 0)
    case Ok(stmts) => Ok(NodeProg(stmts))
    case Err(e) => Err(e)
  }

  /** What the parser accepts is grammatical: the tokens left are exactly
      the accepted statements, spelled in source order. */
  lemma {:induction false} ProgFromSound(ts: seq<Token>, i: nat)
    requires i <= |ts|
    ensures ProgFrom(ts, i).Ok? ==> ProgSpells(ProgFrom(ts, i).value, ts[i..])
    decreases |ts| - i
  {
    if i < |ts| && StmtAt(ts, i).Ok? && StmtAt(ts, i).value.Some? {
      var p := StmtAt(ts, i).value.value;
      ProgFromSound(ts, p.next);
      if ProgFrom(ts, p.next).Ok? {
        var stmts := ProgFrom(ts, i).value;
        assert stmts[0] == p.stmt && stmts[1..] == ProgFrom(ts, p.next).value;
        assert ts[i..][..5] == ts[i..i + 5] && ts[i..][5..] == ts[p.next..];
      }
    }
  }

  /** Every grammatical token sequence is parsed into the statements it spells. */
  lemma {:induction false} ProgFromComplete(ts: seq<Token>, i: nat, stmts: seq<NodeStmt>)
    requires i <= |ts| && ProgSpells(stmts, ts[i..])
    ensures ProgFrom(ts, i) == Ok(stmts)
    decreases |ts| - i
  {
    if stmts != [] {
      assert ts[i..][..5] == ts[i..i + 5] && ts[i..][5..] == ts[i + 5..];
      StmtAtComplete(ts, i, stmts[0]);
      ProgFromComplete(ts, i + 5, stmts[1..]);
      assert [stmts[0]] + stmts[1..] == stmts;
    } else {
      assert |ts[i..]| == 0;
    }
  }

  /** Parsing succeeds with `prog` exactly when the tokens spell `prog`. */
  lemma ParseCharacterised(ts: seq<Token>, prog: NodeProg)
    ensures Parse(ts) == Ok(prog) <==> ProgSpells(prog.stmts, ts)
  {
    assert ts[0..] == ts;
    ProgFromSound(ts, 0);
    if ProgSpells(prog.stmts, ts) {
      ProgFromComplete(ts, 0, prog.stmts);
    }
  }

  /** Where a statement stops the parse at `i`: a remaining token that starts
      neither form is the fatal "invalid statement", and a statement that
      breaks off ends the parse with its own error. */
  lemma ProgFromStops(ts: seq<Token>, i: nat)
    requires i < |ts|
    ensures !ExitAhead(ts, i) && !VarAhead(ts, i) ==> ProgFrom(ts, i) == Err(InvalidStatement)
    ensures StmtAt(ts, i).Err? ==> ProgFrom(ts, i) == Err(StmtAt(ts, i).error)
  {
    StmtAtOutcomes(ts, i);
  }

  lemma WindowSplit(ts: seq<Token>, i: nat, j: nat)
    requires i + 5 <= j <= |ts|
    ensures ts[i..j][..5] == ts[i..i + 5] && ts[i..j][5..] == ts[i + 5..j]
  {
  }

  /** The first statement spelled at `i` is read there and kept ahead of the
      rest of the parse. */
  lemma ProgFromStep(ts: seq<Token>, i: nat, j: nat, stmts: seq<NodeStmt>)
    requires i <= j <= |ts| && stmts != [] && ProgSpells(stmts, ts[i..j])
    ensures i + 5 <= j && ProgSpells(stmts[1..], ts[i + 5..j])
    ensures ProgFrom(ts, i) == Prepend([stmts[0]], ProgFrom(ts, i + 5))
  {
    WindowSplit(ts, i, j);
    StmtAtComplete(ts, i, stmts[0]);
  }

  /** Statements spelled in `ts[i..j]` are kept, in order, ahead of whatever
      the tokens from `j` on parse to, be it more statements or an error. */
  lemma {:induction false} ProgFromPrefix(ts: seq<Token>, i: nat, j: nat, stmts: seq<NodeStmt>)
    requires i <= j <= |ts| && ProgSpells(stmts, ts[i..j])
    ensures ProgFrom(ts, i) == Prepend(stmts, ProgFrom(ts, j))
    decreases |stmts|
  {
    if stmts == [] {
      assert |ts[i..j]| == 0;
      PrependNothing(ProgFrom(ts, i));
    } else {
      assert [stmts[0]] + stmts[1..] == stmts;
      ProgFromStep(ts, i, j, stmts);
      ProgFromPrefix(ts, i + 5, j, stmts[1..]);
      PrependTwice([stmts[0]], stmts[1..], ProgFrom(ts, j));
    }
  }

  /** The first error decides the parse. After any grammatical run of
      statements, the end of the tokens is the program read so far; a token
      that starts neither form is "invalid statement"; a statement that
      breaks off reports its own error. */
  lemma ParseFirstError(ts: seq<Token>, stmts: seq<NodeStmt>)
    requires 5 * |stmts| <= |ts| && ProgSpells(stmts, ts[..5 * |stmts|])
    ensures 5 * |stmts| == |ts| ==> Parse(ts) == Ok(NodeProg(stmts))
    ensures 5 * |stmts| < |ts| && !ExitAhead(ts, 5 * |stmts|) && !VarAhead(ts, 5 * |stmts|) ==>
              Parse(ts) == Err(InvalidStatement)
    ensures 5 * |stmts| < |ts| && StmtAt(ts, 5 * |stmts|).Err? ==>
              Parse(ts) == Err(StmtAt(ts, 5 * |stmts|).error)
  {
    var j := 5 * |stmts|;
    assert ts[0..j] == ts[..j];
    ProgFromPrefix(ts, 0, j, stmts);
    assert ProgFrom(ts, 0) == Prepend(stmts, ProgFrom(ts, j));
    if j == |ts| {
      assert ProgFrom(ts, j) == Ok([]);
      assert stmts + [] == stmts;
    } else {
      ProgFromStops(ts, j);
    }
  }

  /** The compiler's parser object: a token vector and a cursor into it. */
  class Parser {
    const tokens: seq<Token>
    var index: nat

    ghost predicate Valid()
      reads this
    {
      index <= |tokens|
    }

    constructor(tokens: seq<Token>)
      ensures this.tokens == tokens && index == 0 && Valid()
    {
      this.tokens := tokens;
      index := 0;
    }

    /** The token `offset` places ahead of the cursor, if any. */
    function Peek(offset: nat): (r: Option<Token>)
      reads this
      ensures r.None? <==> index + offset >= |tokens|
      ensures r.Some? ==> r.value == tokens[index + offset] && KindAt(tokens, index + offset) == Some(r.value.kind)
    {
      if index + offset >= |tokens| then None else Some(tokens[index + offset])
    }

    method Consume() returns (t: Token)
      requires index < |tokens|
      modifies this
      ensures index == old(index) + 1 && t == tokens[old(index)]
    {
      t := tokens[index];
      index := index + 1;
    }

    /** Reads one expression token, or consumes nothing. */
    method ParseExpr() returns (r: Option<NodeExpr>)
      requires Valid()
      modifies this
      ensures Valid()
      ensures r == ExprAt(tokens, old(index))
      ensures index == old(index) + (if r.Some? then 1 else 0)
    {
      if Peek(0).Some? && Peek(0).value.kind == IntLit {
        var t := Consume();
        r := Some(ExprIntLit(t));
      } else if Peek(0).Some? && Peek(0).value.kind == Ident {
        var t := Consume();
        r := Some(ExprIdent(t));
      } else {
        r := None;
      }
    }

    /** Reads one statement. Called only while a token remains. */
    method ParseStmt() returns (r: Result<Option<NodeStmt>, ParseError>)
      requires Valid() && index < |tokens|
      modifies this
      ensures Valid()
      ensures var spec := StmtAt(tokens, old(index));
              && (r.Err? <==> spec.Err?)
              && (r.Err? ==> r.error == spec.error)
              && (r.Ok? ==> (r.value.Some? <==> spec.value.Some?))
              && (r == Ok(None) ==> index == old(index))
              && (r.Ok? && r.value.Some? ==> r.value.value == spec.value.value.stmt && index == spec.value.value.next)
    {
      if Peek(0).value.kind == Exit && Peek(1).Some? && Peek(1).value.kind == LParen {
        var _ := Consume();
        var _ := Consume();
        var expr := ParseExpr();
        if expr.None? {
          return Err(InvalidExpression);
        }
        if Peek(0).Some? && Peek(0).value.kind == RParen {
          var _ := Consume();
        } else {
          return Err(ExpectedCloseParen);
        }
        if Peek(0).Some? && Peek(0).value.kind == Semi {
          var _ := Consume();
        } else {
          return Err(ExpectedSemicolon);
        }
        r := Ok(Some(StmtExit(expr.value)));
      } else if Peek(0).Some? && Peek(0).value.kind == Var
             && Peek(1).Some? && Peek(1).value.kind == Ident
             && Peek(2).Some? && Peek(2).value.kind == Eq {
        var _ := Consume();
        var ident := Consume();
        var _ := Consume();
        var expr := ParseExpr();
        if expr.None? {
          return Err(InvalidExpression);
        }
        if Peek(0).Some? && Peek(0).value.kind == Semi {
          var _ := Consume();
        } else {
          return Err(ExpectedSemicolon);
        }
        r := Ok(Some(StmtVar(ident, expr.value)));
      } else {
        r := Ok(None);
      }
    }

    /** Reads statements until no token remains; stops at the first error. */
    method ParseProg() returns (r: Result<NodeProg, ParseError>)
      requires Valid()
      modifies this
      ensures Valid()
      ensures r.Ok? <==> ProgFrom(tokens, old(index)).Ok?
      ensures r.Ok? ==> r.value.stmts == ProgFrom(tokens, old(index)).value && index == |tokens|
      ensures r.Err? ==> r.error == ProgFrom(tokens, old(index)).error
    {
      var stmts: seq<NodeStmt> := [];
      ghost var start := index;
      PrependNothing(ProgFrom(tokens, index));
      while Peek(0).Some?
        invariant Valid()
        invariant ProgFrom(tokens, start) == Prepend(stmts, ProgFrom(tokens, index))
        decreases |tokens| - index
      {
        ghost var i := index;
        var stmt := ParseStmt();
        if stmt.Err? {
          return Err(stmt.error);
        }
        if stmt.value.None? {
          return Err(InvalidStatement);
        }
        PrependTwice(stmts, [stmt.value.value], ProgFrom(tokens, index));
        stmts := stmts + [stmt.value.value];
      }
      assert stmts + [] == stmts;
      r := Ok(NodeProg(stmts));
    }
  }
}
