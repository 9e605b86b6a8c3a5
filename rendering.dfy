/** Writing tokens back as text and scanning that text again: joining the
    literal texts of a scan's tokens with single spaces and scanning the
    result gives, with no lexical error, the same kinds and values again.
    The scanner's classification depends only on a token's own text, except
    for the two context rules (keyword lookup and the adjacent-operator
    check), and both come out the same on the re-scan. */
module Rendering {
  import opened Tokens
  import opened Lexing
  import opened LexingProps

  /** The literal text of a token: the matched text, or the decimal digits
      of a NUM's value. The text of a token the scanner can emit is never
      empty and holds no blank and no newline, so a single space separates
      it from the next one. */
  function Spelling(tok: Token): (w: string)
    ensures Spellable(tok) ==> |w| >= 1 && forall j :: 0 <= j < |w| ==> w[j] != ' ' && w[j] != '\n'
  {
    match tok.value
    case Text(w) => w
    case Number(n) => Decimal(n)
  }

  /** The literal texts of `ts`, joined with single spaces. */
  function Render(ts: seq<Token>): string {
    if ts == [] then []
    else if |ts| == 1 then Spelling(ts[0])
    else Spelling(ts[0]) + " " + Render(ts[1..])
  }

  /** A token the scanner can emit: its text and kind agree with one of the
      token patterns, a word being classified by the keyword table. */
  ghost predicate Spellable(tok: Token) {
    match tok.value
    case Number(_) => tok.kind == NUM
    case Text(w) =>
      || (w == "==" && tok.kind == EQ)
      || (w == "=" && tok.kind == ASSIGN)
      || (|w| == 1 && OperatorKind(w[0]) == Some(tok.kind))
      || (|w| >= 1 && IsWordStart(w[0]) && (forall j :: 1 <= j < |w| ==> IsWordChar(w[j]))
          && tok.kind == ClassifyWord(w))
  }

  /** Two token lists with the same kinds and values, position by position
      (lines and columns may differ). */
  ghost predicate SameLexemes(a: seq<Token>, b: seq<Token>) {
    |a| == |b| && forall j :: 0 <= j < |a| ==> a[j].kind == b[j].kind && a[j].value == b[j].value
  }

  /** Every token one iteration emits is spellable. */
  lemma StepSpellable(code: string, s: Scan)
    requires s.lineStart <= s.pos < |code|
    requires forall j :: 0 <= j < |s.tokens| ==> Spellable(s.tokens[j])
    ensures var t := Step(code, s);
      forall j :: 0 <= j < |t.tokens| ==> Spellable(t.tokens[j])
  {
    var m := NextLexeme(code, s.pos);
    NextLexemeSpec(code, s.pos);
    var text := code[s.pos .. s.pos + m.len];
    if m.cls == Pattern(ID) {
      assert forall j :: 1 <= j < |text| ==> text[j] == code[s.pos + 1 + (j - 1)];
    } else if m.cls == Pattern(EQ) {
      assert text == "==";
    } else if m.cls == Pattern(ASSIGN) {
      assert text == "=";
    }
  }

  /** The whole scan from a state whose tokens are spellable emits only
      spellable tokens. */
  lemma {:induction false} RunSpellable(code: string, s: Scan)
    requires s.lineStart <= s.pos <= |code|
    requires forall j :: 0 <= j < |s.tokens| ==> Spellable(s.tokens[j])
    ensures var t := RunFrom(code, s);
      forall j :: 0 <= j < |t.tokens| ==> Spellable(t.tokens[j])
    decreases |code| - s.pos
  {
    if s.pos < |code| {
      assert RunFrom(code, s) == RunFrom(code, Step(code, s));
      StepSpellable(code, s);
      RunSpellable(code, Step(code, s));
    }
  }

  /** The text `w` lies at `i` and is followed by a space or by the end. */
  ghost predicate TextAt(code: string, i: nat, w: string) {
    i + |w| <= |code| && code[i .. i + |w|] == w && (i + |w| == |code| || code[i + |w|] == ' ')
  }

  /** A run of digits followed by a space or the end is one NUM lexeme. */
  lemma NumberLexeme(code: string, i: nat, w: string)
    requires TextAt(code, i, w) && |w| >= 1 && forall j :: 0 <= j < |w| ==> IsDigit(w[j])
    ensures NextLexeme(code, i) == Lexeme(Pattern(NUM), |w|)
  {
    assert forall j :: 0 <= j < |w| ==> code[i + j] == w[j];
  }

  /** A word followed by a space or the end is one ID lexeme. */
  lemma WordLexeme(code: string, i: nat, w: string)
    requires TextAt(code, i, w) && |w| >= 1 && IsWordStart(w[0])
    requires forall j :: 1 <= j < |w| ==> IsWordChar(w[j])
    ensures NextLexeme(code, i) == Lexeme(Pattern(ID), |w|)
  {
    assert forall j :: 0 <= j < |w| ==> code[i + j] == w[j];
  }

  /** The text of a spellable token, followed by a space or the end, is
      matched as one lexeme of its whole length, by the pattern its kind
      comes from. */
  lemma SpellingLexeme(code: string, i: nat, tok: Token)
    requires Spellable(tok) && TextAt(code, i, Spelling(tok))
    ensures i < |code|
    ensures var m := NextLexeme(code, i);
      && m.cls.Pattern? && m.len == |Spelling(tok)|
      && (m.cls.kind == NUM <==> tok.value.Number?)
      && (if m.cls.kind == ID then ClassifyWord(Spelling(tok)) else m.cls.kind) == tok.kind
  {
    var w := Spelling(tok);
    assert code[i] == w[0];
    match tok.value
    case Number(n) =>
      NumberLexeme(code, i, w);
    case Text(_) =>
      if IsWordStart(w[0]) {
        WordLexeme(code, i, w);
      } else if w == "==" {
        assert code[i + 1] == '=';
      } else if w == "=" {
        assert i + 1 == |code| || code[i + 1] == ' ';
      } else {
        assert OperatorKind(w[0]) == Some(tok.kind);
      }
  }

  /** Scanning the text of a spellable token, followed by a space or by the
      end of the input, emits one token of the same kind and value and
      reports nothing, unless it is an arithmetic operator after one. */
  lemma StepOverSpelling(code: string, s: Scan, tok: Token)
    requires Spellable(tok) && s.lineStart <= s.pos && TextAt(code, s.pos, Spelling(tok))
    requires !(s.prev.Some? && IsArith(s.prev.value.kind) && IsArith(tok.kind))
    ensures var t := Step(code, s);
      && t.pos == s.pos + |Spelling(tok)|
      && t.lineStart == s.lineStart
      && t.errors == s.errors
      && |t.tokens| == |s.tokens| + 1
      && t.prev == Some(t.tokens[|s.tokens|])
      && t.tokens[|s.tokens|].kind == tok.kind
      && t.tokens[|s.tokens|].value == tok.value
  {
    SpellingLexeme(code, s.pos, tok);
    var w := Spelling(tok);
    assert code[s.pos .. s.pos + NextLexeme(code, s.pos).len] == w;
    if tok.value.Number? {
      DigitsValueOfDecimal(tok.value.n);
    }
  }

  /** A space between two texts is skipped and changes nothing else. */
  lemma SkipSeparator(code: string, s: Scan)
    requires s.lineStart <= s.pos < |code| && code[s.pos] == ' '
    ensures Step(code, s) == s.(pos := s.pos + 1)
  {
    BlankStep(code, s);
  }

  /** The rendering of a non-empty list starts with the first token's text,
      followed by the end or by a space and the rendering of the rest. */
  lemma RenderedHead(code: string, i: nat, ts: seq<Token>)
    requires i <= |code| && code[i..] == Render(ts) && ts != []
    ensures TextAt(code, i, Spelling(ts[0]))
    ensures |ts| == 1 ==> i + |Spelling(ts[0])| == |code|
    ensures |ts| > 1 ==> i + |Spelling(ts[0])| < |code| && code[i + |Spelling(ts[0])| + 1..] == Render(ts[1..])
  {
    var w := Spelling(ts[0]);
    assert code[i..][..|w|] == w;
    if |ts| > 1 {
      assert code[i..][|w|] == ' ';
      assert code[i..][|w| + 1..] == Render(ts[1..]);
    }
  }

  /** A matching head and matching tails make matching lists. */
  lemma ConsLexemes(us: seq<Token>, n: nat, ts: seq<Token>)
    requires n < |us| && ts != []
    requires us[n].kind == ts[0].kind && us[n].value == ts[0].value
    requires SameLexemes(us[n + 1..], ts[1..])
    ensures SameLexemes(us[n..], ts)
  {
    assert forall j :: 1 <= j < |ts| ==> us[n..][j] == us[n + 1..][j - 1];
  }

  /** The rest of the input from the scan point is the rendering of `ts`:
      spellable tokens with no arithmetic operator after another, the first
      one included, measured against the previous token. */
  ghost predicate Renders(code: string, s: Scan, ts: seq<Token>) {
    && s.lineStart <= s.pos <= |code| && code[s.pos..] == Render(ts)
    && (forall j :: 0 <= j < |ts| ==> Spellable(ts[j]))
    && NoAdjacentArith(ts)
    && (ts != [] && s.prev.Some? && IsArith(s.prev.value.kind) ==> !IsArith(ts[0].kind))
  }

  /** After the first text and its separating space, with a previous
      token of the first token's kind, the rest renders the other tokens. */
  lemma RendersTail(code: string, s: Scan, t: Scan, ts: seq<Token>)
    requires Renders(code, s, ts) && |ts| > 1
    requires t.lineStart <= t.pos == s.pos + |Spelling(ts[0])| + 1
    requires t.prev.Some? && t.prev.value.kind == ts[0].kind
    ensures Renders(code, t, ts[1..])
  {
    RenderedHead(code, s.pos, ts);
    assert !(IsArith(ts[0].kind) && IsArith(ts[1].kind));
    assert forall j :: 0 <= j < |ts| - 1 ==> ts[1..][j] == ts[j + 1];
  }

  /** The first token's text is scanned to a token of the same kind and
      value; then the scan is at the end, or the separating space is skipped
      and the rest of the input renders the remaining tokens. */
  lemma HeadStep(code: string, s: Scan, ts: seq<Token>)
    requires Renders(code, s, ts) && ts != []
    ensures s.pos < |code|
    ensures var t := Step(code, s);
      && t.errors == s.errors && |t.tokens| == |s.tokens| + 1
      && t.tokens[|s.tokens|].kind == ts[0].kind && t.tokens[|s.tokens|].value == ts[0].value
      && (|ts| == 1 ==> t.pos == |code|)
      && (|ts| > 1 ==> t.lineStart <= t.pos < |code| && Step(code, t) == t.(pos := t.pos + 1)
                       && Renders(code, Step(code, t), ts[1..]))
  {
    RenderedHead(code, s.pos, ts);
    StepOverSpelling(code, s, ts[0]);
    var t := Step(code, s);
    if |ts| > 1 {
      SkipSeparator(code, t);
      RendersTail(code, s, t.(pos := t.pos + 1), ts);
    }
  }

  /** Scanning the rendering of `ts` adds exactly tokens of the same kinds
      and values, and no error. */
  lemma {:induction false} ScanRendering(code: string, s: Scan, ts: seq<Token>)
    requires Renders(code, s, ts)
    ensures s.lineStart <= s.pos <= |code|
    ensures var t := RunFrom(code, s);
      t.errors == s.errors && SameLexemes(t.tokens[|s.tokens|..], ts)
    decreases |ts|
  {
    if ts == [] {
      return;
    }
    HeadStep(code, s, ts);
    var t1 := Step(code, s);
    var n := |s.tokens|;
    assert RunFrom(code, s) == RunFrom(code, t1);
    if |ts| == 1 {
      assert t1.tokens[n..] == [t1.tokens[n]];
    } else {
      var t2 := Step(code, t1);
      assert RunFrom(code, t1) == RunFrom(code, t2);
      ScanRendering(code, t2, ts[1..]);
      ConsLexemes(RunFrom(code, t2).tokens, n, ts);
    }
  }

  /** The round trip: scanning the tokens of any input, written back as
      their texts joined by single spaces, reports no error and gives the
      same kinds and values in the same order. */
  lemma TokenizeRoundTrip(code: string)
    ensures var ts := Tokenize(code).0;
      var r := Tokenize(Render(ts));
      r.1 == [] && SameLexemes(r.0, ts)
  {
    var ts := Tokenize(code).0;
    assert ts == RunFrom(code, Start).tokens;
    RunSpellable(code, Start);
    TokenizeWellFormed(code);
    ScanRendering(Render(ts), Start, ts);
  }
}
