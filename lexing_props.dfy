/** What the scanner guarantees: the invariant every loop iteration keeps
    (no two arithmetic operators in a row, tokens in source order, positions
    in range), the effect of each kind of lexeme, and worked inputs. */
module LexingProps {
  import opened Tokens
  import opened Lexing

  /** `a` comes strictly before `b` in the source. */
  predicate Precedes(a: Token, b: Token) {
    a.line < b.line || (a.line == b.line && a.column < b.column)
  }

  ghost predicate InSourceOrder(ts: seq<Token>) {
    forall i, j :: 0 <= i < j < |ts| ==> Precedes(ts[i], ts[j])
  }

  ghost predicate NoAdjacentArith(ts: seq<Token>) {
    forall i, j :: 0 <= i < j < |ts| && j == i + 1 ==> !(IsArith(ts[i].kind) && IsArith(ts[j].kind))
  }

  function LastOf(ts: seq<Token>): Option<Token> {
    if ts == [] then None else Some(ts[|ts| - 1])
  }

  /** The loop invariant of the scanner: `previous_token` is the last emitted
      token, emitted tokens are in order, lie before the scan point and never
      put two arithmetic operators side by side, and every character yields at
      most one token or error. */
  ghost predicate Inv(code: string, s: Scan) {
    && s.lineStart <= s.pos <= |code|
    && s.line >= 1
    && s.prev == LastOf(s.tokens)
    && NoAdjacentArith(s.tokens)
    && InSourceOrder(s.tokens)
    && (forall t :: t in s.tokens ==>
          1 <= t.line && (t.line < s.line || (t.line == s.line && t.column < s.pos - s.lineStart)))
    && |s.tokens| + |s.errors| <= s.pos
  }

  lemma StartInv(code: string)
    ensures Inv(code, Start)
  {
  }

  lemma StepKeepsInv(code: string, s: Scan)
    requires Inv(code, s) && s.pos < |code|
    ensures Inv(code, Step(code, s))
  {
    var t := Step(code, s);
    var m := NextLexeme(code, s.pos);
    var n := s.pos + m.len;
    match m.cls
    case Newline =>
      assert t == s.(pos := n, line := s.line + 1, lineStart := n);
    case Skip =>
      assert t == s.(pos := n);
    case Mismatch =>
      assert t == s.(pos := n, errors := s.errors + [BadChar(s.line, s.pos - s.lineStart, code[s.pos])]);
    case Pattern(_) =>
      if |t.tokens| > |s.tokens| {
        var tok := t.tokens[|t.tokens| - 1];
        assert t == s.(pos := n, prev := Some(tok), tokens := s.tokens + [tok]);
        assert tok.line == s.line && tok.column == s.pos - s.lineStart;
        assert !(s.prev.Some? && IsArith(s.prev.value.kind) && IsArith(tok.kind));
        AppendKeepsOrder(s.tokens, tok, s.line, s.pos - s.lineStart);
        AppendKeepsSeparation(s.tokens, tok);
      } else {
        assert t.tokens == s.tokens && t.prev == s.prev && t.line == s.line && t.lineStart == s.lineStart;
        assert |t.errors| == |s.errors| + 1 && t.pos == n;
      }
  }

  /** Appending a token that is not an arithmetic operator after one keeps
      the list free of adjacent arithmetic operators. */
  lemma AppendKeepsSeparation(ts: seq<Token>, tok: Token)
    requires NoAdjacentArith(ts)
    requires !(LastOf(ts).Some? && IsArith(LastOf(ts).value.kind) && IsArith(tok.kind))
    ensures NoAdjacentArith(ts + [tok])
  {
    var us := ts + [tok];
    forall i, j | 0 <= i < j < |us| && j == i + 1
      ensures !(IsArith(us[i].kind) && IsArith(us[j].kind))
    {
      if j < |ts| {
        assert us[i] == ts[i] && us[j] == ts[j];
      }
    }
  }

  /** Appending a token placed after every token so far keeps the order. */
  lemma AppendKeepsOrder(ts: seq<Token>, tok: Token, line: nat, column: nat)
    requires InSourceOrder(ts)
    requires forall t :: t in ts ==> t.line < line || (t.line == line && t.column < column)
    requires tok.line == line && tok.column == column
    ensures InSourceOrder(ts + [tok])
  {
    var us := ts + [tok];
    forall i, j | 0 <= i < j < |us|
      ensures Precedes(us[i], us[j])
    {
      if j < |ts| {
        assert us[i] == ts[i] && us[j] == ts[j];
      } else {
        assert us[i] in ts;
      }
    }
  }

  lemma {:induction false} RunKeepsInv(code: string, s: Scan)
    requires Inv(code, s)
    ensures Inv(code, RunFrom(code, s))
    decreases |code| - s.pos
  {
    if s.pos < |code| {
      StepKeepsInv(code, s);
      RunKeepsInv(code, Step(code, s));
    }
  }

  /** The scan always ends and its tokens are well formed: in source order,
      lines from 1, no arithmetic operator directly after another, and at
      most one token or error per input character. */
  lemma TokenizeWellFormed(code: string)
    ensures var (ts, es) := Tokenize(code);
      && NoAdjacentArith(ts)
      && InSourceOrder(ts)
      && (forall t :: t in ts ==> t.line >= 1)
      && |ts| + |es| <= |code|
  {
    StartInv(code);
    RunKeepsInv(code, Start);
  }

  /** A newline produces nothing, adds one to the line counter and moves the
      column origin just past itself, so the next lexeme is at column 0. */
  lemma NewlineStep(code: string, s: Scan)
    requires s.lineStart <= s.pos < |code| && code[s.pos] == '\n'
    ensures Step(code, s) == s.(pos := s.pos + 1, line := s.line + 1, lineStart := s.pos + 1)
    ensures Step(code, s).pos - Step(code, s).lineStart == 0
  {
  }

  /** A space or a tab produces nothing and changes nothing else. */
  lemma BlankStep(code: string, s: Scan)
    requires s.lineStart <= s.pos < |code| && (code[s.pos] == ' ' || code[s.pos] == '\t')
    ensures Step(code, s) == s.(pos := s.pos + 1)
  {
  }

  /** A character no pattern recognises appends exactly one error carrying
      its line, column and the character, produces no token, and the scan
      resumes at the next character. */
  lemma MismatchStep(code: string, s: Scan)
    requires s.lineStart <= s.pos < |code|
    requires NextLexeme(code, s.pos).cls == Mismatch
    ensures Step(code, s) == s.(pos := s.pos + 1,
                                errors := s.errors + [BadChar(s.line, s.pos - s.lineStart, code[s.pos])])
  {
  }

  /** A single-character operator or punctuation mark is one token of its
      kind, unless it is an arithmetic operator right after an emitted one. */
  lemma OperatorStep(code: string, s: Scan, k: Kind)
    requires s.lineStart <= s.pos < |code| && OperatorKind(code[s.pos]) == Some(k)
    requires !(s.prev.Some? && IsArith(s.prev.value.kind) && IsArith(k))
    ensures var tok := Token(k, Text([code[s.pos]]), s.line, s.pos - s.lineStart);
      Step(code, s) == s.(pos := s.pos + 1, prev := Some(tok), tokens := s.tokens + [tok])
  {
    assert NextLexeme(code, s.pos) == Lexeme(Pattern(k), 1);
    assert code[s.pos .. s.pos + 1] == [code[s.pos]];
  }

  /** Two `=` in a row are one EQ token of length 2 (EQ is not arithmetic,
      so it is never dropped). */
  lemma EqualsStep(code: string, s: Scan)
    requires s.lineStart <= s.pos && s.pos + 1 < |code| && code[s.pos] == '=' && code[s.pos + 1] == '='
    ensures var tok := Token(EQ, Text(code[s.pos .. s.pos + 2]), s.line, s.pos - s.lineStart);
      Step(code, s) == s.(pos := s.pos + 2, prev := Some(tok), tokens := s.tokens + [tok])
  {
    assert NextLexeme(code, s.pos) == Lexeme(Pattern(EQ), 2);
  }

  /** An arithmetic operator right after an emitted arithmetic operator is
      dropped and recorded as an error; the previous token stays. */
  lemma AdjacentOperatorStep(code: string, s: Scan)
    requires s.lineStart <= s.pos < |code|
    requires s.prev.Some? && IsArith(s.prev.value.kind)
    requires OperatorKind(code[s.pos]).Some? && IsArith(OperatorKind(code[s.pos]).value)
    ensures Step(code, s) == s.(pos := s.pos + 1,
                                errors := s.errors + [AdjacentOps(s.line, s.pos - s.lineStart,
                                                                  s.prev.value.value, Text([code[s.pos]]))])
  {
    assert code[s.pos .. s.pos + 1] == [code[s.pos]];
  }

  /** A letter or `_` takes the whole word run; the word is a keyword exactly
      when the whole text is in the keyword table, and an identifier otherwise. */
  lemma WordStep(code: string, s: Scan)
    requires s.lineStart <= s.pos < |code| && IsWordStart(code[s.pos])
    ensures var w := code[s.pos .. s.pos + 1 + WordFrom(code, s.pos + 1)];
      Step(code, s) == s.(pos := s.pos + |w|, prev := Some(Token(ClassifyWord(w), Text(w), s.line, s.pos - s.lineStart)),
                          tokens := s.tokens + [Token(ClassifyWord(w), Text(w), s.line, s.pos - s.lineStart)])
  {
    var m := NextLexeme(code, s.pos);
    assert m == Lexeme(Pattern(ID), 1 + WordFrom(code, s.pos + 1));

  }

  /** A digit takes the whole digit run, and the token's value is the
      integer that run denotes. */
  lemma NumberStep(code: string, s: Scan)
    requires s.lineStart <= s.pos < |code| && IsDigit(code[s.pos])
    ensures var d := code[s.pos .. s.pos + DigitsFrom(code, s.pos)];
      (forall j :: 0 <= j < |d| ==> IsDigit(d[j])) &&
      Step(code, s) == s.(pos := s.pos + |d|, prev := Some(Token(NUM, Number(DigitsValue(d)), s.line, s.pos - s.lineStart)),
                          tokens := s.tokens + [Token(NUM, Number(DigitsValue(d)), s.line, s.pos - s.lineStart)])
  {
    assert NextLexeme(code, s.pos) == Lexeme(Pattern(NUM), DigitsFrom(code, s.pos));
  }

  /** Only the exact keyword spellings are reclassified. */
  lemma KeywordsAreWholeWords()
    ensures ClassifyWord("int") == INT && ClassifyWord("def") == DEF && ClassifyWord("print") == PRINT
    ensures ClassifyWord("define") == ID && ClassifyWord("int2") == ID && ClassifyWord("Int") == ID
  {
  }

  /** The scan from a state at the end of the input is that state. */
  lemma RunAtEnd(code: string, s: Scan)
    requires s.lineStart <= s.pos == |code|
    ensures RunFrom(code, s) == s
  {
  }

  /** The scan from a state inside the input is the scan after one step. */
  lemma RunStep(code: string, s: Scan)
    requires s.lineStart <= s.pos < |code|
    ensures RunFrom(code, s) == RunFrom(code, Step(code, s))
  {
  }

  // ------------------------------------------------------------ numbers

  /** The decimal digits of `n`, most significant first, no leading zero. */
  function Decimal(n: nat): (d: string)
    ensures |d| >= 1 && forall j :: 0 <= j < |d| ==> IsDigit(d[j])
  {
    var last := ('0' as int + n % 10) as char;
    if n < 10 then [last] else Decimal(n / 10) + [last]
  }

  /** Reading back the decimal digits of a number gives that number. */
  lemma {:induction false} DigitsValueOfDecimal(n: nat)
    ensures DigitsValue(Decimal(n)) == n
  {
    var d := Decimal(n);
    assert d[..|d| - 1] == if n < 10 then [] else Decimal(n / 10);
    if n >= 10 {
      DigitsValueOfDecimal(n / 10);
    }
  }

  /** Leading zeros do not change the value: `007` denotes 7. */
  lemma {:induction false} LeadingZero(d: string)
    requires forall j :: 0 <= j < |d| ==> IsDigit(d[j])
    ensures DigitsValue(['0'] + d) == DigitsValue(d)
  {
    var z := ['0'] + d;
    if d != [] {
      assert z[..|z| - 1] == ['0'] + d[..|d| - 1];
      assert z[|z| - 1] == d[|d| - 1];
      LeadingZero(d[..|d| - 1]);
    } else {
      assert z[..|z| - 1] == [];
    }
  }

  // ------------------------------------------------------------ lines and columns

  /** The line of position `i`: one more than the newlines before it. */
  function LineOf(code: string, i: nat): (n: nat)
    requires i <= |code|
    ensures n >= 1
  {
    if i == 0 then 1 else LineOf(code, i - 1) + (if code[i - 1] == '\n' then 1 else 0)
  }

  /** The start of the line holding position `i`: just past the last newline
      before `i`, or 0 when there is none. */
  function LineStartOf(code: string, i: nat): (j: nat)
    requires i <= |code|
    ensures j <= i && (j == 0 || code[j - 1] == '\n')
    ensures forall k :: j <= k < i ==> code[k] != '\n'
  {
    if i == 0 then 0 else if code[i - 1] == '\n' then i else LineStartOf(code, i - 1)
  }

  /** The scanner's `line_num` and `line_start` are those of its position. */
  ghost predicate Tracks(code: string, s: Scan) {
    s.pos <= |code| && s.line == LineOf(code, s.pos) && s.lineStart == LineStartOf(code, s.pos)
  }

  lemma {:induction false} NoNewlineKeepsLine(code: string, i: nat, j: nat)
    requires i <= j <= |code|
    requires forall k :: i <= k < j ==> code[k] != '\n'
    ensures LineOf(code, j) == LineOf(code, i) && LineStartOf(code, j) == LineStartOf(code, i)
    decreases j
  {
    if i < j {
      NoNewlineKeepsLine(code, i, j - 1);
    }
  }

  /** Past its first character, a lexeme holds only `=` and word characters. */
  lemma LexemeInterior(code: string, i: nat)
    requires i < |code|
    ensures var m := NextLexeme(code, i);
      forall k :: i < k < i + m.len ==> code[k] == '=' || IsWordChar(code[k])
  {
    NextLexemeSpec(code, i);
  }

  /** Only a newline lexeme holds a newline, and it is that one character. */
  lemma NewlineOnlyInNewline(code: string, i: nat)
    requires i < |code|
    ensures var m := NextLexeme(code, i);
      && (m.cls == Newline ==> code[i] == '\n' && m.len == 1)
      && (m.cls != Newline ==> forall k :: i <= k < i + m.len ==> code[k] != '\n')
  {
    NextLexemeSpec(code, i);
    LexemeInterior(code, i);
  }

  /** How one iteration moves the position and the line counters: only a
      newline touches `line_num` and `line_start`. */
  lemma StepLines(code: string, s: Scan)
    requires s.lineStart <= s.pos < |code|
    ensures var m, t := NextLexeme(code, s.pos), Step(code, s);
      && t.pos == s.pos + m.len
      && (m.cls == Newline ==> t.line == s.line + 1 && t.lineStart == t.pos)
      && (m.cls != Newline ==> t.line == s.line && t.lineStart == s.lineStart)
  {
    var m := NextLexeme(code, s.pos);
    match m.cls
    case Newline =>
    case Skip =>
    case Mismatch =>
    case Pattern(_) =>
  }

  /** Every loop iteration keeps `line_num` and `line_start` in step with the
      scan position. */
  lemma StepTracks(code: string, s: Scan)
    requires Tracks(code, s) && s.pos < |code|
    ensures Tracks(code, Step(code, s))
  {
    StepLines(code, s);
    NewlineOnlyInNewline(code, s.pos);
    LexemeTracks(code, s, NextLexeme(code, s.pos), Step(code, s));
  }

  /** The line bookkeeping of one lexeme, apart from the rest of the step. */
  lemma LexemeTracks(code: string, s: Scan, m: Lexeme, t: Scan)
    requires Tracks(code, s) && s.pos < |code| && s.pos + m.len <= |code| && t.pos == s.pos + m.len
    requires m.cls == Newline ==> code[s.pos] == '\n' && m.len == 1 && t.line == s.line + 1 && t.lineStart == t.pos
    requires m.cls != Newline ==> t.line == s.line && t.lineStart == s.lineStart
    requires m.cls != Newline ==> forall k :: s.pos <= k < s.pos + m.len ==> code[k] != '\n'
    ensures Tracks(code, t)
  {
    if m.cls != Newline {
      NoNewlineKeepsLine(code, s.pos, t.pos);
    }
  }

  /** From any tracking state at or before an unrecognised character, the
      scan reports it with its own line and column. */
  lemma {:induction false} BadCharReported(code: string, s: Scan, i: nat)
    requires Tracks(code, s) && s.pos <= i < |code| && Unrecognised(code[i])
    ensures BadChar(LineOf(code, i), i - LineStartOf(code, i), code[i]) in RunFrom(code, s).errors
    decreases |code| - s.pos
  {
    var t := Step(code, s);
    StepTracks(code, s);
    assert RunFrom(code, s) == RunFrom(code, t);
    if s.pos == i {
      NextLexemeSpec(code, i);
      MismatchStep(code, s);
      var e := BadChar(LineOf(code, i), i - LineStartOf(code, i), code[i]);
      assert t.errors[|t.errors| - 1] == e;
      assert RunFrom(code, t).errors[|t.errors| - 1] == e;
    } else {
      LexemeInterior(code, s.pos);
      BadCharReported(code, t, i);
    }
  }

  /** An input with an unrecognised character has a lexical error for it,
      carrying the line and column of that character. */
  lemma UnrecognisedCharReported(code: string, i: nat)
    requires i < |code| && Unrecognised(code[i])
    ensures BadChar(LineOf(code, i), i - LineStartOf(code, i), code[i]) in Tokenize(code).1
  {
    BadCharReported(code, Start, i);
  }

  // Worked inputs.

  /** `==` is one EQ token, never two ASSIGN tokens. */
  lemma DoubleEqualsIsEq(code: string)
    requires |code| == 2 && code[0] == '=' && code[1] == '='
    ensures Tokenize(code) == ([Token(EQ, Text(code), 1, 0)], [])
  {
    var eq := Token(EQ, Text(code), 1, 0);
    var s1 := Scan(2, 1, 0, Some(eq), [eq], []);
    EqualsStep(code, Start);
    assert code[0..2] == code;
    assert Step(code, Start) == s1;
    RunStep(code, Start);
    RunAtEnd(code, s1);
  }

  /** `12ab` is NUM 12 followed by ID `ab`. */
  lemma DigitsBeforeWord(code: string)
    requires code == "12ab"
    ensures Tokenize(code) == ([Token(NUM, Number(12), 1, 0), Token(ID, Text("ab"), 1, 2)], [])
  {
    var num := Token(NUM, Number(12), 1, 0);
    var id := Token(ID, Text("ab"), 1, 2);
    var s1 := Scan(2, 1, 0, Some(num), [num], []);
    var s2 := Scan(4, 1, 0, Some(id), [num, id], []);
    assert Step(code, Start) == s1 by {
      assert DigitsFrom(code, 2) == 0;
      assert DigitsFrom(code, 0) == 2;
      assert code[0..2] == "12";
      assert DigitsValue("12") == 12 by { assert "12"[..1] == "1"; assert "1"[..0] == ""; }
      NumberStep(code, Start);
    }
    assert Step(code, s1) == s2 by {
      assert WordFrom(code, 4) == 0;
      assert WordFrom(code, 3) == 1;
      assert code[2..4] == "ab";
      assert ClassifyWord("ab") == ID;
      WordStep(code, s1);
    }
    RunStep(code, Start);
    RunStep(code, s1);
    RunAtEnd(code, s2);
  }

  /** `+++` keeps the first PLUS and records two errors. */
  lemma TriplePlus(code: string)
    requires code == "+++"
    ensures Tokenize(code) == ([Token(PLUS, Text("+"), 1, 0)],
                               [AdjacentOps(1, 1, Text("+"), Text("+")), AdjacentOps(1, 2, Text("+"), Text("+"))])
  {
    var plus := Token(PLUS, Text("+"), 1, 0);
    var e1 := AdjacentOps(1, 1, Text("+"), Text("+"));
    var e2 := AdjacentOps(1, 2, Text("+"), Text("+"));
    var s1 := Scan(1, 1, 0, Some(plus), [plus], []);
    var s2 := Scan(2, 1, 0, Some(plus), [plus], [e1]);
    var s3 := Scan(3, 1, 0, Some(plus), [plus], [e1, e2]);
    OperatorStep(code, Start, PLUS);
    assert Step(code, Start) == s1;
    AdjacentOperatorStep(code, s1);
    assert Step(code, s1) == s2;
    AdjacentOperatorStep(code, s2);
    assert Step(code, s2) == s3;
    RunStep(code, Start);
    RunStep(code, s1);
    RunStep(code, s2);
    RunAtEnd(code, s3);
  }

  /** Adjacency is measured against the last emitted token: `+ +` is rejected too. */
  lemma SpacedPlus(code: string)
    requires code == "+ +"
    ensures Tokenize(code) == ([Token(PLUS, Text("+"), 1, 0)], [AdjacentOps(1, 2, Text("+"), Text("+"))])
  {
    var plus := Token(PLUS, Text("+"), 1, 0);
    var e := AdjacentOps(1, 2, Text("+"), Text("+"));
    var s1 := Scan(1, 1, 0, Some(plus), [plus], []);
    var s2 := Scan(2, 1, 0, Some(plus), [plus], []);
    var s3 := Scan(3, 1, 0, Some(plus), [plus], [e]);
    OperatorStep(code, Start, PLUS);
    assert Step(code, Start) == s1;
    BlankStep(code, s1);
    assert Step(code, s1) == s2;
    AdjacentOperatorStep(code, s2);
    assert Step(code, s2) == s3;
    RunStep(code, Start);
    RunStep(code, s1);
    RunStep(code, s2);
    RunAtEnd(code, s3);
  }

  /** A newline starts line 2 at column 0; an unknown character is reported
      at its own position and scanning goes on. */
  lemma LinesColumnsAndBadChar(code: string)
    requires code == "x\n@y"
    ensures Tokenize(code) == ([Token(ID, Text("x"), 1, 0), Token(ID, Text("y"), 2, 1)], [BadChar(2, 0, '@')])
  {
    var x := Token(ID, Text("x"), 1, 0);
    var y := Token(ID, Text("y"), 2, 1);
    var e := BadChar(2, 0, '@');
    var s1 := Scan(1, 1, 0, Some(x), [x], []);
    var s2 := Scan(2, 2, 2, Some(x), [x], []);
    var s3 := Scan(3, 2, 2, Some(x), [x], [e]);
    var s4 := Scan(4, 2, 2, Some(y), [x, y], [e]);
    assert WordFrom(code, 1) == 0;
    assert code[0..1] == "x";
    WordStep(code, Start);
    assert Step(code, Start) == s1;
    NewlineStep(code, s1);
    assert Step(code, s1) == s2;
    MismatchStep(code, s2);
    assert Step(code, s2) == s3;
    assert WordFrom(code, 4) == 0;
    assert code[3..4] == "y";
    WordStep(code, s3);
    assert Step(code, s3) == s4;
    RunStep(code, Start);
    RunStep(code, s1);
    RunStep(code, s2);
    RunStep(code, s3);
    RunAtEnd(code, s4);
  }
}
