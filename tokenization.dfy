/** The tokenizer: a single pass over the source text that turns it into a
    sequence of tokens, each carrying its kind, the line it starts on, and
    (for identifiers and integer literals only) its text. */
module Tokenization {
  import opened Wrappers

  datatype TokenType =
    | Exit | IntLit | Semi | LParen | RParen | Ident | Var | Eq
    | Star | FSlash | Plus | Minus | LCurly | RCurly | If | Elif | Else

  datatype Token = Token(kind: TokenType, line: int, value: Option<string>)

  /** The only fatal tokenizer error: an unrecognised character, reported with its line. */
  datatype LexError = IncorrectSyntax(line: int)

  /** Display name of a token kind, as used in diagnostics: keywords and
      punctuators are quoted, the two kinds with a payload are described. */
  function ToString(t: TokenType): (r: string)
    ensures |r| >= 3
    ensures r[0] == '\'' <==> t != IntLit && t != Ident
    ensures r[0] == '\'' ==> r[|r| - 1] == '\''
  {
    match t
    case Exit => "'exit'"
    case IntLit => "int literal"
    case Semi => "';'"
    case LParen => "'('"
    case RParen => "')'"
    case Ident => "identifier"
    case Var => "'var'"
    case Eq => "'='"
    case Star => "'*'"
    case FSlash => "'/'"
    case Plus => "'+'"
    case Minus => "'-'"
    case LCurly => "'{'"
    case RCurly => "'}'"
    case If => "'if'"
    case Elif => "'elif'"
    case Else => "'else'"
  }

  /** Distinct kinds have distinct display names. */
  lemma ToStringInjective(a: TokenType, b: TokenType)
    requires ToString(a) == ToString(b)
    ensures a == b
  {
  }

  predicate IsBinaryOperator(t: TokenType)
  {
    t == Plus || t == Minus || t == Star || t == FSlash
  }

  /** Precedence of a binary-operator token; no precedence for any other kind. */
  function BinPrec(t: TokenType): (r: Option<int>)
    ensures r.Some? <==> IsBinaryOperator(t)
    ensures r == Some(0) <==> t == Plus || t == Minus
    ensures r == Some(1) <==> t == Star || t == FSlash
  {
    match t
    case Plus | Minus => Some(0)
    case Star | FSlash => Some(1)
    case _ => None
  }

  // ASCII character classes (the locale-independent reading of the C library's).

  predicate IsAlpha(c: char) { 'a' <= c <= 'z' || 'A' <= c <= 'Z' }

  predicate IsDigit(c: char) { '0' <= c <= '9' }

  predicate IsAlnum(c: char) { IsAlpha(c) || IsDigit(c) }

  predicate IsSpace(c: char)
  {
    c == ' ' || c == '\t' || c == '\n' || c == '\U{B}' || c == '\U{C}' || c == '\r'
  }

  const Keywords: set<string> := {"exit", "var", "if", "elif", "else"}

  /** The token for a maximal alphanumeric run `w`: a keyword without
      payload, or an identifier carrying `w`. */
  function Word(w: string, line: int): (t: Token)
    ensures t.line == line
    ensures t.kind == Ident <==> w !in Keywords
    ensures t.kind == Ident ==> t.value == Some(w)
    ensures t.kind != Ident ==> t.value.None? && ToString(t.kind) == "'" + w + "'"
  {
    if w == "exit" then Token(Exit, line, None)
    else if w == "var" then Token(Var, line, None)
    else if w == "if" then Token(If, line, None)
    else if w == "elif" then Token(Elif, line, None)
    else if w == "else" then Token(Else, line, None)
    else Token(Ident, line, Some(w))
  }

  /** The kind of a one-character punctuator. */
  function Punctuator(c: char): (r: Option<TokenType>)
    ensures r.Some? <==> c in "();=*/+-{}"
    ensures r.Some? ==> ToString(r.value) == ['\'', c, '\'']
  {
    if c == '(' then Some(LParen)
    else if c == ')' then Some(RParen)
    else if c == ';' then Some(Semi)
    else if c == '=' then Some(Eq)
    else if c == '*' then Some(Star)
    else if c == '/' then Some(FSlash)
    else if c == '+' then Some(Plus)
    else if c == '-' then Some(Minus)
    else if c == '{' then Some(LCurly)
    else if c == '}' then Some(RCurly)
    else None
  }

  /** End of the maximal run of alphanumerics starting at `i`. */
  function AlnumEnd(s: string, i: nat): (j: nat)
    requires i <= |s|
    ensures i <= j <= |s|
    ensures forall k | i <= k < j :: IsAlnum(s[k])
    ensures j == |s| || !IsAlnum(s[j])
    decreases |s| - i
  {
    if i < |s| && IsAlnum(s[i]) then AlnumEnd(s, i + 1) else i
  }

  /** End of the maximal run of digits starting at `i`. */
  function DigitEnd(s: string, i: nat): (j: nat)
    requires i <= |s|
    ensures i <= j <= |s|
    ensures forall k | i <= k < j :: IsDigit(s[k])
    ensures j == |s| || !IsDigit(s[j])
    decreases |s| - i
  {
    if i < |s| && IsDigit(s[i]) then DigitEnd(s, i + 1) else i
  }

  /** Where a line comment whose body starts at `i` stops: at the next
      newline (which is left for the main loop), or at the end of input. */
  function LineEnd(s: string, i: nat): (j: nat)
    requires i <= |s|
    ensures i <= j <= |s|
    ensures forall k | i <= k < j :: s[k] != '\n'
    ensures j == |s| || s[j] == '\n'
    decreases |s| - i
  {
    if i < |s| && s[i] != '\n' then LineEnd(s, i + 1) else i
  }

  /** `*;` starts at position `k`. */
  predicate CloserAt(s: string, k: nat)
  {
    k + 1 < |s| && s[k] == '*' && s[k + 1] == ';'
  }

  /** Where a block comment whose body starts at `i` stops: just past the
      first `*;`, or at the end of input when there is none. */
  function BlockEnd(s: string, i: nat): (j: nat)
    requires i <= |s|
    ensures i <= j <= |s|
    ensures j == |s| || (i + 2 <= j && CloserAt(s, j - 2))
    ensures forall k | i <= k < j - 2 :: !CloserAt(s, k)
    decreases |s| - i
  {
    if i >= |s| then |s|
    else if CloserAt(s, i) then i + 2
    else BlockEnd(s, i + 1)
  }

  predicate OpensLineComment(s: string, i: nat)
  {
    i + 1 < |s| && s[i] == ';' && s[i + 1] == ';'
  }

  predicate OpensBlockComment(s: string, i: nat)
  {
    i + 1 < |s| && s[i] == ';' && s[i + 1] == '*'
  }

  /** Characters the tokenizer accepts at the start of a lexeme. */
  predicate Recognised(c: char)
  {
    IsAlnum(c) || Punctuator(c).Some? || IsSpace(c)
  }

  /** Only identifiers and integer literals carry text; a literal's text is
      a non-empty run of digits; an identifier's is a non-keyword word that
      starts with a letter. */
  predicate WellFormed(t: Token)
  {
    && (t.value.Some? <==> t.kind == IntLit || t.kind == Ident)
    && (t.kind == IntLit ==>
          |t.value.value| > 0 && forall k | 0 <= k < |t.value.value| :: IsDigit(t.value.value[k]))
    && (t.kind == Ident ==>
          && |t.value.value| > 0 && IsAlpha(t.value.value[0])
          && (forall k | 0 <= k < |t.value.value| :: IsAlnum(t.value.value[k]))
          && t.value.value !in Keywords)
  }

  /** What one iteration of the tokenizer's main loop produces: at most one
      token, the position after what it consumed, and the line counter. */
  datatype Scanned = Scanned(token: Option<Token>, next: nat, line: int)

  /** One iteration of the main loop at position `i` on line `line`. */
  function Step(s: string, i: nat, line: int): (r: Result<Scanned, LexError>)
    requires i < |s|
    ensures r.Err? <==> !Recognised(s[i])
    ensures r.Err? ==> r.error == IncorrectSyntax(line)
    ensures r.Ok? ==> i < r.value.next <= |s|
    ensures r.Ok? ==> r.value.line == if s[i] == '\n' then line + 1 else line
    ensures r.Ok? && r.value.token.Some? ==>
              r.value.token.value.line == line && WellFormed(r.value.token.value)
  {
    var c := s[i];
    if IsAlpha(c) then
      var j := AlnumEnd(s, i + 1);
      Ok(Scanned(Some(Word(s[i..j], line)), j, line))
    else if IsDigit(c) then
      var j := DigitEnd(s, i + 1);
      Ok(Scanned(Some(Token(IntLit, line, Some(s[i..j]))), j, line))
    else if OpensLineComment(s, i) then
      Ok(Scanned(None, LineEnd(s, i + 2), line))
    else if OpensBlockComment(s, i) then
      Ok(Scanned(None, BlockEnd(s, i + 2), line))
    else if Punctuator(c).Some? then
      Ok(Scanned(Some(Token(Punctuator(c).value, line, None)), i + 1, line))
    else if c == '\n' then
      Ok(Scanned(None, i + 1, line + 1))
    else if IsSpace(c) then
      Ok(Scanned(None, i + 1, line))
    else
      Err(IncorrectSyntax(line))
  }

  /** A letter starts a maximal alphanumeric run, which becomes a keyword or
      an identifier token (digits never start a word). */
  lemma StepWord(s: string, i: nat, line: int)
    requires i < |s| && IsAlpha(s[i])
    ensures var r := Step(s, i, line);
            && r.Ok? && r.value.token == Some(Word(s[i..r.value.next], line))
            && r.value.next == AlnumEnd(s, i + 1) && r.value.line == line
            && (forall k | i <= k < r.value.next :: IsAlnum(s[k]))
            && (r.value.next == |s| || !IsAlnum(s[r.value.next]))
  {
  }

  /** A digit starts a maximal run of digits, which becomes one literal
      token carrying exactly those digits. */
  lemma StepLiteral(s: string, i: nat, line: int)
    requires i < |s| && IsDigit(s[i])
    ensures var r := Step(s, i, line);
            && r.Ok? && r.value.token == Some(Token(IntLit, line, Some(s[i..r.value.next])))
            && r.value.next == DigitEnd(s, i + 1) && r.value.line == line
            && (forall k | i <= k < r.value.next :: IsDigit(s[k]))
            && (r.value.next == |s| || !IsDigit(s[r.value.next]))
  {
  }

  /** `;;` emits nothing and runs up to, not including, the next newline. */
  lemma StepLineComment(s: string, i: nat, line: int)
    requires OpensLineComment(s, i)
    ensures var r := Step(s, i, line);
            && r.Ok? && r.value.token.None? && r.value.line == line
            && r.value.next == LineEnd(s, i + 2)
            && (forall k | i + 2 <= k < r.value.next :: s[k] != '\n')
            && (r.value.next == |s| || s[r.value.next] == '\n')
  {
  }

  /** `;*` emits nothing and runs through the first `*;` after it, or to the
      end of input; newlines inside it leave the line counter alone. */
  lemma StepBlockComment(s: string, i: nat, line: int)
    requires OpensBlockComment(s, i)
    ensures var r := Step(s, i, line);
            && r.Ok? && r.value.token.None? && r.value.line == line
            && r.value.next == BlockEnd(s, i + 2)
            && (forall k | i + 2 <= k < r.value.next - 2 :: !CloserAt(s, k))
            && (r.value.next == |s| || (i + 4 <= r.value.next && CloserAt(s, r.value.next - 2)))
  {
  }

  /** A punctuator that does not open a comment is one token of one character. */
  lemma StepPunctuator(s: string, i: nat, line: int)
    requires i < |s| && Punctuator(s[i]).Some?
    requires !OpensLineComment(s, i) && !OpensBlockComment(s, i)
    ensures Step(s, i, line) == Ok(Scanned(Some(Token(Punctuator(s[i]).value, line, None)), i + 1, line))
  {
  }

  /** Whitespace is dropped one character at a time. */
  lemma StepSpace(s: string, i: nat, line: int)
    requires i < |s| && IsSpace(s[i])
    ensures var r := Step(s, i, line);
            && r.Ok? && r.value.token.None? && r.value.next == i + 1
            && r.value.line == if s[i] == '\n' then line + 1 else line
  {
  }

  function Emitted(t: Option<Token>): seq<Token>
  {
    if t.Some? then [t.value] else []
  }

  /** The tokens of `s[i..]` when scanning starts on line `line`. */
  function Lex(s: string, i: nat, line: int): (r: Result<seq<Token>, LexError>)
    requires i <= |s|
    ensures r.Ok? ==> |r.value| <= |s| - i
    decreases |s| - i
  {
    if i == |s| then Ok([])
    else
      match Step(s, i, line)
      case Err(e) => Err(e)
      case Ok(sc) => Prepend(Emitted(sc.token), Lex(s, sc.next, sc.line))
  }

  /** One more step of the scan, as the tokenizer's loop takes it: the
      tokens emitted so far grow by what the step emits. */
  lemma LexAdvance(s: string, start: nat, i: nat, line: int, before: seq<Token>, emitted: seq<Token>)
    requires start <= i < |s| && Step(s, i, line).Ok?
    requires Lex(s, start, 1) == Prepend(before, Lex(s, i, line))
    requires emitted == Emitted(Step(s, i, line).value.token)
    ensures Lex(s, start, 1) ==
              Prepend(before + emitted, Lex(s, Step(s, i, line).value.next, Step(s, i, line).value.line))
  {
    var sc := Step(s, i, line).value;
    PrependTwice(before, emitted, Lex(s, sc.next, sc.line));
  }

  /** Tokens of a whole source text; numbering starts at line 1. */
  function Tokenize(s: string): (r: Result<seq<Token>, LexError>)
    ensures r.Ok? ==> |r.value| <= |s|
  {
    Lex(s, 0, 1)
  }

  /** Number of newlines in `s[i..]`. */
  function Newlines(s: string, i: nat): nat
    requires i <= |s|
    decreases |s| - i
  {
    if i == |s| then 0 else (if s[i] == '\n' then 1 else 0) + Newlines(s, i + 1)
  }

  lemma {:induction false} NewlinesAntitone(s: string, i: nat, j: nat)
    requires i <= j <= |s|
    ensures Newlines(s, j) <= Newlines(s, i)
    decreases j - i
  {
    if i < j {
      NewlinesAntitone(s, i + 1, j);
    }
  }

  /** Every token the tokenizer emits is well formed: only identifiers and
      literals carry text, and that text is the lexeme. */
  lemma {:induction false} LexWellFormed(s: string, i: nat, line: int)
    requires i <= |s|
    ensures Lex(s, i, line).Ok? ==>
              forall k | 0 <= k < |Lex(s, i, line).value| :: WellFormed(Lex(s, i, line).value[k])
    decreases |s| - i
  {
    if i < |s| && Step(s, i, line).Ok? {
      var sc := Step(s, i, line).value;
      LexWellFormed(s, sc.next, sc.line);
    }
  }

  /** Line numbers start at the given line and grow only by newlines in
      the input; an error is reported on such a line too. */
  lemma {:induction false} LexLines(s: string, i: nat, line: int)
    requires i <= |s|
    ensures Lex(s, i, line).Ok? ==>
              forall k | 0 <= k < |Lex(s, i, line).value| ::
                line <= Lex(s, i, line).value[k].line <= line + Newlines(s, i)
    ensures Lex(s, i, line).Err? ==>
              line <= Lex(s, i, line).error.line <= line + Newlines(s, i)
    decreases |s| - i
  {
    if i < |s| && Step(s, i, line).Ok? {
      var sc := Step(s, i, line).value;
      LexLines(s, sc.next, sc.line);
      NewlinesAntitone(s, i + 1, sc.next);
      assert sc.line + Newlines(s, sc.next) <= line + Newlines(s, i);
      if Lex(s, i, line).Ok? {
        var rest := Lex(s, sc.next, sc.line).value;
        var ts, e := Lex(s, i, line).value, Emitted(sc.token);
        assert ts == e + rest;
        forall k | 0 <= k < |ts| ensures line <= ts[k].line <= line + Newlines(s, i) {
          if k >= |e| {
            assert ts[k] == rest[k - |e|];
          }
        }
      }
    }
  }

  /** Line numbers never decrease along the token sequence. */
  lemma {:induction false} LexLinesOrdered(s: string, i: nat, line: int)
    requires i <= |s|
    ensures Lex(s, i, line).Ok? ==>
              forall a, b | 0 <= a <= b < |Lex(s, i, line).value| ::
                Lex(s, i, line).value[a].line <= Lex(s, i, line).value[b].line
    decreases |s| - i
  {
    if i < |s| && Step(s, i, line).Ok? && Lex(s, i, line).Ok? {
      var sc := Step(s, i, line).value;
      LexLines(s, sc.next, sc.line);
      LexLinesOrdered(s, sc.next, sc.line);
      var rest := Lex(s, sc.next, sc.line).value;
      var ts := Lex(s, i, line).value;
      var e := Emitted(sc.token);
      assert ts == e + rest;
      forall a, b | 0 <= a <= b < |ts| ensures ts[a].line <= ts[b].line {
        if b < |e| {
          assert a == b;
        } else if a < |e| {
          assert ts[a].line == line && ts[b] == rest[b - |e|];
        } else {
          assert ts[a] == rest[a - |e|] && ts[b] == rest[b - |e|];
        }
      }
    }
  }

  /** Tokens of the source as a whole are on lines 1 and up, in order. */
  lemma TokenizeLines(s: string)
    ensures Tokenize(s).Ok? ==>
              forall k | 0 <= k < |Tokenize(s).value| :: 1 <= Tokenize(s).value[k].line
    ensures Tokenize(s).Ok? ==>
              forall a, b | 0 <= a <= b < |Tokenize(s).value| ::
                Tokenize(s).value[a].line <= Tokenize(s).value[b].line
  {
    LexLines(s, 0, 1);
    LexLinesOrdered(s, 0, 1);
  }

  /** A step that emits a token prepends it to the rest of the scan. */
  lemma LexCons(s: string, i: nat, line: int, t: Token, next: nat, rest: seq<Token>)
    requires i < |s| && Step(s, i, line) == Ok(Scanned(Some(t), next, line))
    requires next <= |s| && Lex(s, next, line) == Ok(rest)
    ensures Lex(s, i, line) == Ok([t] + rest)
  {
  }

  /** A step that emits nothing leaves the rest of the scan as it is. */
  lemma LexSkip(s: string, i: nat, line: int, next: nat, line2: int, rest: seq<Token>)
    requires i < |s| && Step(s, i, line) == Ok(Scanned(None, next, line2))
    requires next <= |s| && Lex(s, next, line2) == Ok(rest)
    ensures Lex(s, i, line) == Ok(rest)
  {
    assert [] + rest == rest;
  }

  /** A word that runs to the end of the input is the last token. */
  lemma LexFinalWord(s: string, i: nat, line: int)
    requires i < |s| && IsAlpha(s[i])
    requires forall k | i < k < |s| :: IsAlnum(s[k])
    ensures Lex(s, i, line) == Ok([Word(s[i..], line)])
  {
    StepWord(s, i, line);
    assert AlnumEnd(s, i + 1) == |s|;
    assert s[i..|s|] == s[i..];
    assert [Word(s[i..], line)] + [] == [Word(s[i..], line)];
  }

  /** Newlines inside a block comment do not advance the line counter. */
  lemma BlockCommentKeepsLine()
    ensures Tokenize(";*\n*;exit") == Ok([Token(Exit, 1, None)])
  {
    var s := ";*\n*;exit";
    assert Lex(s, 5, 1) == Ok([Token(Exit, 1, None)]) by {
      LexFinalWord(s, 5, 1);
      assert s[5..] == "exit";
    }
    assert BlockEnd(s, 2) == 5 by {
      assert !CloserAt(s, 2) && CloserAt(s, 3);
    }
    StepBlockComment(s, 0, 1);
    LexSkip(s, 0, 1, 5, 1, [Token(Exit, 1, None)]);
  }

  /** A newline outside a comment advances the line counter. */
  lemma NewlineAdvancesLine()
    ensures Tokenize("\nexit") == Ok([Token(Exit, 2, None)])
  {
    var s := "\nexit";
    assert Lex(s, 1, 2) == Ok([Token(Exit, 2, None)]) by {
      LexFinalWord(s, 1, 2);
      assert s[1..] == "exit";
    }
    StepSpace(s, 0, 1);
    LexSkip(s, 0, 1, 1, 2, [Token(Exit, 2, None)]);
  }

  /** A digit run as an `exit` argument: the text `exit(d);`. */
  function ExitSource(d: string): string
  {
    "exit(" + d + ");"
  }

  predicate IsDigits(d: string)
  {
    |d| > 0 && forall k | 0 <= k < |d| :: IsDigit(d[k])
  }

  /** `s` reads `exit(d);`, character by character. */
  predicate ExitShaped(s: string, d: string)
  {
    && |s| == |d| + 7 && s[..4] == "exit" && s[4] == '(' && s[5..5 + |d|] == d
    && s[5 + |d|] == ')' && s[6 + |d|] == ';'
  }

  lemma ExitSourceShaped(d: string)
    ensures ExitShaped(ExitSource(d), d)
  {
    var s := ExitSource(d);
    assert s == "exit(" + d + ");";
  }

  /** `exit(d);` is the five tokens of an exit statement, all on line 1,
      the literal carrying exactly the digits `d`. */
  lemma TokenizeExitSource(d: string)
    requires IsDigits(d)
    ensures Tokenize(ExitSource(d)) == Ok([Token(Exit, 1, None), Token(LParen, 1, None),
                                            Token(IntLit, 1, Some(d)), Token(RParen, 1, None),
                                            Token(Semi, 1, None)])
  {
    ExitSourceShaped(d);
    LexExitShaped(ExitSource(d), d);
  }

  lemma LexExitShaped(s: string, d: string)
    requires IsDigits(d) && ExitShaped(s, d)
    ensures Lex(s, 0, 1) == Ok([Token(Exit, 1, None), Token(LParen, 1, None),
                                Token(IntLit, 1, Some(d)), Token(RParen, 1, None),
                                Token(Semi, 1, None)])
  {
    var ex, rest := Token(Exit, 1, None), [Token(LParen, 1, None), Token(IntLit, 1, Some(d)),
                                           Token(RParen, 1, None), Token(Semi, 1, None)];
    StepExitKeyword(s, d);
    LexExitArgument(s, d);
    LexCons(s, 0, 1, ex, 4, rest);
    assert [ex] + rest == [ex, rest[0], rest[1], rest[2], rest[3]];
  }

  lemma StepExitKeyword(s: string, d: string)
    requires ExitShaped(s, d)
    ensures Step(s, 0, 1) == Ok(Scanned(Some(Token(Exit, 1, None)), 4, 1))
  {
    assert s[0] == 'e' && s[1] == 'x' && s[2] == 'i' && s[3] == 't' by {
      assert s[..4] == "exit";
    }
    assert AlnumEnd(s, 1) == 4;
    assert s[0..4] == s[..4];
    StepWord(s, 0, 1);
  }

  lemma LexExitArgument(s: string, d: string)
    requires IsDigits(d) && ExitShaped(s, d)
    ensures Lex(s, 4, 1) == Ok([Token(LParen, 1, None), Token(IntLit, 1, Some(d)),
                                Token(RParen, 1, None), Token(Semi, 1, None)])
  {
    var lp, rest := Token(LParen, 1, None), [Token(IntLit, 1, Some(d)), Token(RParen, 1, None), Token(Semi, 1, None)];
    LexLiteralCloser(s, d);
    StepPunctuator(s, 4, 1);
    LexCons(s, 4, 1, lp, 5, rest);
    assert [lp] + rest == [lp, rest[0], rest[1], rest[2]];
  }

  lemma LexLiteralCloser(s: string, d: string)
    requires IsDigits(d) && ExitShaped(s, d)
    ensures Lex(s, 5, 1) == Ok([Token(IntLit, 1, Some(d)), Token(RParen, 1, None), Token(Semi, 1, None)])
  {
    var n := |d|;
    var lit, rest := Token(IntLit, 1, Some(d)), [Token(RParen, 1, None), Token(Semi, 1, None)];
    DigitsEnd(s, d);
    LexCloser(s, d);
    StepLiteral(s, 5, 1);
    LexCons(s, 5, 1, lit, 5 + n, rest);
    assert [lit] + rest == [lit, rest[0], rest[1]];
  }

  lemma DigitsEnd(s: string, d: string)
    requires IsDigits(d) && ExitShaped(s, d)
    ensures IsDigit(s[5]) && DigitEnd(s, 6) == 5 + |d| && s[5..5 + |d|] == d
  {
    var n := |d|;
    assert forall k | 5 <= k < 5 + n :: IsDigit(s[k]) by {
      forall k | 5 <= k < 5 + n ensures IsDigit(s[k]) {
        assert s[5..5 + n][k - 5] == s[k];
      }
    }
    assert !IsDigit(s[5 + n]);
  }

  lemma LexCloser(s: string, d: string)
    requires ExitShaped(s, d)
    ensures Lex(s, 5 + |d|, 1) == Ok([Token(RParen, 1, None), Token(Semi, 1, None)])
  {
    var n := |d|;
    var rp, semi := Token(RParen, 1, None), Token(Semi, 1, None);
    assert Lex(s, 7 + n, 1) == Ok([]);
    StepPunctuator(s, 6 + n, 1);
    LexCons(s, 6 + n, 1, semi, 7 + n, []);
    assert [semi] + [] == [semi];
    StepPunctuator(s, 5 + n, 1);
    LexCons(s, 5 + n, 1, rp, 6 + n, [semi]);
    assert [rp] + [semi] == [rp, semi];
  }

  /** The compiler's scanner: a cursor over the source text. */
  class Tokenizer {
    const src: string
    var index: nat

    constructor(src: string)
      ensures this.src == src && index == 0
    {
      this.src := src;
      index := 0;
    }

    /** The character `offset` places ahead of the cursor, if any. */
    function Peek(offset: nat): (r: Option<char>)
      reads this
      ensures r.Some? <==> index + offset < |src|
      ensures r.Some? ==> r.value == src[index + offset]
    {
      if index + offset >= |src| then None else Some(src[index + offset])
    }

    method Consume() returns (c: char)
      requires index < |src|
      modifies this
      ensures index == old(index) + 1 && c == src[old(index)]
    {
      c := src[index];
      index := index + 1;
    }

    /** The rest of a word whose first character is a letter: the maximal
        alphanumeric run, consumed. */
    method ScanWord() returns (buf: string)
      requires index < |src| && IsAlpha(src[index])
      modifies this
      ensures index == AlnumEnd(src, old(index) + 1) && buf == src[old(index)..index]
    {
      ghost var i := index;
      var ch := Consume();
      buf := [ch];
      while Peek(0).Some? && IsAlnum(Peek(0).value)
        invariant i < index <= |src| && buf == src[i..index]
        invariant AlnumEnd(src, index) == AlnumEnd(src, i + 1)
        decreases |src| - index
      {
        ch := Consume();
        buf := buf + [ch];
      }
    }

    /** The maximal run of digits at the cursor, consumed. */
    method ScanLiteral() returns (buf: string)
      requires index < |src| && IsDigit(src[index])
      modifies this
      ensures index == DigitEnd(src, old(index) + 1) && buf == src[old(index)..index]
    {
      ghost var i := index;
      var ch := Consume();
      buf := [ch];
      while Peek(0).Some? && IsDigit(Peek(0).value)
        invariant i < index <= |src| && buf == src[i..index]
        invariant DigitEnd(src, index) == DigitEnd(src, i + 1)
        decreases |src| - index
      {
        ch := Consume();
        buf := buf + [ch];
      }
    }

    /** Consumes `;;` and everything up to, not including, the next newline. */
    method SkipLineComment()
      requires OpensLineComment(src, index)
      modifies this
      ensures index == LineEnd(src, old(index) + 2)
    {
      ghost var i := index;
      var _ := Consume();
      var _ := Consume();
      while Peek(0).Some? && Peek(0).value != '\n'
        invariant i + 2 <= index <= |src|
        invariant LineEnd(src, index) == LineEnd(src, i + 2)
        decreases |src| - index
      {
        var _ := Consume();
      }
    }

    /** Consumes `;*` and everything through the next `*;`, or the rest of
        the input when the comment is not closed. */
    method SkipBlockComment()
      requires OpensBlockComment(src, index)
      modifies this
      ensures index == BlockEnd(src, old(index) + 2)
    {
      ghost var i := index;
      var _ := Consume();
      var _ := Consume();
      while Peek(0).Some?
        invariant i + 2 <= index <= |src|
        invariant BlockEnd(src, index) == BlockEnd(src, i + 2)
        decreases |src| - index
      {
        if Peek(0).value == '*' && Peek(1).Some? && Peek(1).value == ';' {
          break;
        }
        var _ := Consume();
      }
      if Peek(0).Some? {
        var _ := Consume();
      }
      if Peek(0).Some? {
        var _ := Consume();
      }
    }

    /** The token for a scanned word: a keyword, or else an identifier
        carrying the word. */
    static method Classify(buf: string, lineCount: int) returns (tok: Token)
      ensures tok == Word(buf, lineCount)
    {
      if buf == "exit" {
        tok := Token(Exit, lineCount, None);
      } else if buf == "var" {
        tok := Token(Var, lineCount, None);
      } else if buf == "if" {
        tok := Token(If, lineCount, None);
      } else if buf == "elif" {
        tok := Token(Elif, lineCount, None);
      } else if buf == "else" {
        tok := Token(Else, lineCount, None);
      } else {
        tok := Token(Ident, lineCount, Some(buf));
      }
    }

    /** One iteration of the main loop's dispatch on the character at the
        cursor: consumes one lexeme, comment or whitespace character and
        reports what it emits and the line counter after it. */
    method ScanLexeme(lineCount: int) returns (r: Result<Scanned, LexError>)
      requires index < |src|
      modifies this
      ensures r == Step(src, old(index), lineCount)
      ensures r.Ok? ==> index == r.value.next
    {
      ghost var i := index;
      var c := Peek(0).value;
      if IsAlpha(c) {
        var buf := ScanWord();
        var tok := Classify(buf, lineCount);
        StepWord(src, i, lineCount);
        r := Ok(Scanned(Some(tok), index, lineCount));
      } else if IsDigit(c) {
        var buf := ScanLiteral();
        StepLiteral(src, i, lineCount);
        r := Ok(Scanned(Some(Token(IntLit, lineCount, Some(buf))), index, lineCount));
      } else if c == ';' && Peek(1).Some? && Peek(1).value == ';' {
        SkipLineComment();
        StepLineComment(src, i, lineCount);
        r := Ok(Scanned(None, index, lineCount));
      } else if c == ';' && Peek(1).Some? && Peek(1).value == '*' {
        SkipBlockComment();
        StepBlockComment(src, i, lineCount);
        r := Ok(Scanned(None, index, lineCount));
      } else if Punctuator(c).Some? {
        var _ := Consume();
        StepPunctuator(src, i, lineCount);
        r := Ok(Scanned(Some(Token(Punctuator(c).value, lineCount, None)), index, lineCount));
      } else if c == '\n' {
        var _ := Consume();
        StepSpace(src, i, lineCount);
        r := Ok(Scanned(None, index, lineCount + 1));
      } else if IsSpace(c) {
        var _ := Consume();
        StepSpace(src, i, lineCount);
        r := Ok(Scanned(None, index, lineCount));
      } else {
        r := Err(IncorrectSyntax(lineCount));
      }
    }

    /** Scans the rest of the source; on success the cursor is reset. */
    method Tokenize() returns (r: Result<seq<Token>, LexError>)
      requires index <= |src|
      modifies this
      ensures r == Lex(src, old(index), 1)
      ensures r.Ok? ==> index == 0
    {
      var tokens: seq<Token> := [];
      var lineCount := 1;
      ghost var start := index;
      PrependNothing(Lex(src, index, lineCount));
      while Peek(0).Some?
        invariant index <= |src|
        invariant Lex(src, start, 1) == Prepend(tokens, Lex(src, index, lineCount))
        decreases |src| - index
      {
        ghost var i, line0 := index, lineCount;
        var scanned := ScanLexeme(lineCount);
        if scanned.Err? {
          r := Err(scanned.error);
          return;
        }
        LexAdvance(src, start, i, line0, tokens, Emitted(scanned.value.token));
        tokens := tokens + Emitted(scanned.value.token);
        lineCount := scanned.value.line;
      }
      assert tokens + [] == tokens;
      index := 0;
      r := Ok(tokens);
    }
  }
}
