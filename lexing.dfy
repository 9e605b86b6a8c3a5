/** The scanner's rules as pure functions: which lexeme the ordered pattern
    alternation of lexer.py:25-47 picks at a position, what one iteration of
    the scanning loop of lexer.py:57-82 does with it, and the whole scan. The
    imperative loop itself is `Lexer.Lex`, proved equal to `Tokenize`. */
module Lexing {
  import opened Tokens

  // ASCII character classes standing for the patterns' \d, [A-Za-z_] and \w.
  predicate IsDigit(c: char) { '0' <= c <= '9' }
  predicate IsWordStart(c: char) { ('A' <= c <= 'Z') || ('a' <= c <= 'z') || c == '_' }
  predicate IsWordChar(c: char) { IsWordStart(c) || IsDigit(c) }

  /** Length of the maximal run of digits starting at `i`. */
  function DigitsFrom(code: string, i: nat): (n: nat)
    requires i <= |code|
    ensures i + n <= |code|
    ensures forall j :: i <= j < i + n ==> IsDigit(code[j])
    ensures i + n == |code| || !IsDigit(code[i + n])
    decreases |code| - i
  {
    if i < |code| && IsDigit(code[i]) then 1 + DigitsFrom(code, i + 1) else 0
  }

  /** Length of the maximal run of word characters starting at `i`. */
  function WordFrom(code: string, i: nat): (n: nat)
    requires i <= |code|
    ensures i + n <= |code|
    ensures forall j :: i <= j < i + n ==> IsWordChar(code[j])
    ensures i + n == |code| || !IsWordChar(code[i + n])
    decreases |code| - i
  {
    if i < |code| && IsWordChar(code[i]) then 1 + WordFrom(code, i + 1) else 0
  }

  function Pow10(n: nat): (p: nat)
    ensures p >= 1
  {
    if n == 0 then 1 else 10 * Pow10(n - 1)
  }

  /** The integer denoted by a string of decimal digits (Python's int()):
      it is below 10 to the power of the number of digits. */
  function DigitsValue(s: string): (v: nat)
    requires forall j :: 0 <= j < |s| ==> IsDigit(s[j])
    ensures v < Pow10(|s|)
  {
    if s == [] then 0
    else
      var last := s[|s| - 1];
      assert IsDigit(last);
      DigitsValue(s[..|s| - 1]) * 10 + (last as int - '0' as int)
  }

  /** The single-character operators and punctuation, in table order. None
      of them is a character that an earlier alternative already takes, and
      exactly `+ - * /` are arithmetic. */
  function OperatorKind(c: char): (k: Option<Kind>)
    ensures k.Some? ==> c != '=' && !IsWordChar(c) && c != '\n' && c != ' ' && c != '\t'
    ensures k.Some? ==> (IsArith(k.value) <==> c == '+' || c == '-' || c == '*' || c == '/')
  {
    match c
    case '+' => Some(PLUS)
    case '-' => Some(MINUS)
    case '*' => Some(TIMES)
    case '/' => Some(DIVIDE)
    case '<' => Some(LT)
    case '>' => Some(GT)
    case '(' => Some(LPAREN)
    case ')' => Some(RPAREN)
    case '{' => Some(LBRACE)
    case '}' => Some(RBRACE)
    case ',' => Some(COMMA)
    case ';' => Some(SEMICOLON)
    case _ => None
  }

  /** A character no alternative before the catch-all accepts. */
  predicate Unrecognised(c: char) {
    c != '=' && !IsDigit(c) && !IsWordStart(c) && OperatorKind(c).None? && c != '\n' && c != ' ' && c != '\t'
  }

  /** What a match of the alternation is: a token pattern (NUM and ID before
      keyword lookup), a newline, blank space, or an unrecognised character. */
  datatype Class = Pattern(kind: Kind) | Newline | Skip | Mismatch

  datatype Lexeme = Lexeme(cls: Class, len: nat)

  /** The lexeme the alternation matches at `i`: the FIRST alternative that
      matches wins, so `==` is tried before `=`, digits before words, and the
      catch-all comes last. */
  function NextLexeme(code: string, i: nat): (m: Lexeme)
    requires i < |code|
    ensures 1 <= m.len <= |code| - i
    ensures m.cls == Pattern(NUM) ==> m.len == DigitsFrom(code, i)
  {
    var c := code[i];
    if c == '=' then
      if i + 1 < |code| && code[i + 1] == '=' then Lexeme(Pattern(EQ), 2) else Lexeme(Pattern(ASSIGN), 1)
    else if IsDigit(c) then Lexeme(Pattern(NUM), DigitsFrom(code, i))
    else if IsWordStart(c) then Lexeme(Pattern(ID), 1 + WordFrom(code, i + 1))
    else if OperatorKind(c).Some? then Lexeme(Pattern(OperatorKind(c).value), 1)
    else if c == '\n' then Lexeme(Newline, 1)
    else if c == ' ' || c == '\t' then Lexeme(Skip, 1)
    else Lexeme(Mismatch, 1)
  }

  /** Which alternative wins, by the character at `i`: `==` only when two
      `=` follow each other, a digit always starts a number, a letter or `_`
      always starts a word, an operator character is its one-character
      token, the catch-all takes exactly the unrecognised characters, and
      how much each lexeme consumes. */
  lemma NextLexemeSpec(code: string, i: nat)
    requires i < |code|
    ensures var m := NextLexeme(code, i);
      && (m.cls == Pattern(EQ) <==> code[i] == '=' && i + 1 < |code| && code[i + 1] == '=')
      && (m.cls == Pattern(ASSIGN) <==> code[i] == '=' && !(i + 1 < |code| && code[i + 1] == '='))
      && (m.cls == Pattern(NUM) <==> IsDigit(code[i]))
      && (m.cls == Pattern(ID) <==> IsWordStart(code[i]))
      && (m.cls == Pattern(ID) ==> m.len == 1 + WordFrom(code, i + 1))
      && (m.cls.Pattern? && m.cls.kind != NUM && m.cls.kind != ID && m.cls.kind != EQ ==> m.len == 1)
      && (m.cls == Newline <==> code[i] == '\n')
      && (m.cls == Skip <==> code[i] == ' ' || code[i] == '\t')
      && (OperatorKind(code[i]).Some? ==> m == Lexeme(Pattern(OperatorKind(code[i]).value), 1))
      && (m.cls == Mismatch <==> Unrecognised(code[i]))
      && (!m.cls.Pattern? ==> m.len == 1)
  {
  }

  /** Lexical errors, in the order they are discovered. */
  datatype LexError =
    | BadChar(line: nat, column: nat, ch: char)
    | AdjacentOps(line: nat, column: nat, first: Value, second: Value)

  /** The loop state of lexer(): the scan position, `line_num`, `line_start`,
      `previous_token` and the two growing lists. */
  datatype Scan = Scan(pos: nat, line: nat, lineStart: nat, prev: Option<Token>,
                       tokens: seq<Token>, errors: seq<LexError>)

  const Start := Scan(0, 1, 0, None, [], [])

  /** One iteration of the scanning loop: classify the lexeme at `pos`, then
      skip it, record an error, or emit a token. An arithmetic operator right
      after another one is reported and dropped; any other token is appended
      and becomes the previous token. */
  function Step(code: string, s: Scan): (t: Scan)
    requires s.lineStart <= s.pos < |code|
    ensures s.pos < t.pos <= |code| && t.lineStart <= t.pos
  {
    var m := NextLexeme(code, s.pos);
    var text := code[s.pos .. s.pos + m.len];
    var column := s.pos - s.lineStart;
    var next := s.(pos := s.pos + m.len);
    match m.cls
    case Newline => next.(line := s.line + 1, lineStart := s.pos + m.len)
    case Skip => next
    case Mismatch => next.(errors := s.errors + [BadChar(s.line, column, code[s.pos])])
    case Pattern(k) =>
      var kind := if k == ID then ClassifyWord(text) else k;
      var value := if k == NUM then Number(DigitsValue(text)) else Text(text);
      if s.prev.Some? && IsArith(s.prev.value.kind) && IsArith(kind) then
        next.(errors := s.errors + [AdjacentOps(s.line, column, s.prev.value.value, value)])
      else
        var tok := Token(kind, value, s.line, column);
        next.(prev := Some(tok), tokens := s.tokens + [tok])
  }

  /** The rest of the scan from state `s` to the end of the input. It only
      appends: what was emitted or reported before stays, in place, and at
      most one item is added per remaining character. */
  function RunFrom(code: string, s: Scan): (t: Scan)
    requires s.lineStart <= s.pos <= |code|
    ensures t.pos == |code|
    ensures s.tokens <= t.tokens && s.errors <= t.errors
    ensures |t.tokens| + |t.errors| <= |s.tokens| + |s.errors| + (|code| - s.pos)
    decreases |code| - s.pos
  {
    if s.pos == |code| then s
    else
      StepAppends(code, s);
      RunFrom(code, Step(code, s))
  }

  /** One iteration only appends, and at most one item. */
  lemma StepAppends(code: string, s: Scan)
    requires s.lineStart <= s.pos < |code|
    ensures var t := Step(code, s);
      && s.tokens <= t.tokens && s.errors <= t.errors
      && |t.tokens| + |t.errors| <= |s.tokens| + |s.errors| + 1
  {
    match NextLexeme(code, s.pos).cls
    case Newline =>
    case Skip =>
    case Mismatch =>
    case Pattern(_) =>
  }

  /** The scanner: the tokens and the errors of the whole input, at most
      one of either per input character. */
  function Tokenize(code: string): (r: (seq<Token>, seq<LexError>))
    ensures |r.0| + |r.1| <= |code|
  {
    var t := RunFrom(code, Start);
    (t.tokens, t.errors)
  }
}
