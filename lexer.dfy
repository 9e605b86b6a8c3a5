/** The scanning loop of lexer() (lexer.py:49-87): one pass over the input,
    updating `line_num`, `line_start` and `previous_token` and appending to
    the token and error lists in place. */
module Lexer {
  import opened Tokens
  import opened Lexing
  import LexingProps

  method Lex(code: string) returns (tokens: seq<Token>, errors: seq<LexError>)
    ensures (tokens, errors) == Tokenize(code)
    ensures LexingProps.NoAdjacentArith(tokens)
    ensures LexingProps.InSourceOrder(tokens)
    ensures forall t :: t in tokens ==> t.line >= 1
    ensures |tokens| + |errors| <= |code|
  {
    var lineNum: nat, lineStart: nat := 1, 0;
    tokens, errors := [], [];
    var previous: Option<Token> := None;
    var pos: nat := 0;
    while pos < |code|
      invariant lineStart <= pos <= |code|
      invariant RunFrom(code, Scan(pos, lineNum, lineStart, previous, tokens, errors)) == RunFrom(code, Start)
      decreases |code| - pos
    {
      LexingProps.RunStep(code, Scan(pos, lineNum, lineStart, previous, tokens, errors));
      pos, lineNum, lineStart, previous, tokens, errors :=
        Advance(code, pos, lineNum, lineStart, previous, tokens, errors);
    }
    LexingProps.TokenizeWellFormed(code);
  }

  /** The body of the scanning loop (lexer.py:57-82): match the alternation
      at `pos`, then count a line, skip, report a bad character, report an
      arithmetic operator that follows another, or append a token. */
  method Advance(code: string, pos: nat, lineNum: nat, lineStart: nat, previous: Option<Token>,
                 tokens: seq<Token>, errors: seq<LexError>)
    returns (pos': nat, lineNum': nat, lineStart': nat, previous': Option<Token>,
             tokens': seq<Token>, errors': seq<LexError>)
    requires lineStart <= pos < |code|
    ensures Scan(pos', lineNum', lineStart', previous', tokens', errors')
         == Step(code, Scan(pos, lineNum, lineStart, previous, tokens, errors))
  {
    var m := NextLexeme(code, pos);
    pos', lineNum', lineStart', previous', tokens', errors' :=
      pos + m.len, lineNum, lineStart, previous, tokens, errors;
    var text := code[pos .. pos'];
    var column := pos - lineStart;
    match m.cls {
      case Pattern(k) =>
        var kind := if k == ID then ClassifyWord(text) else k;
        var value := if k == NUM then Number(DigitsValue(text)) else Text(text);
        if previous.Some? && IsArith(previous.value.kind) && IsArith(kind) {
          errors' := errors + [AdjacentOps(lineNum, column, previous.value.value, value)];
        } else {
          previous' := Some(Token(kind, value, lineNum, column));
          tokens' := tokens + [previous'.value];
        }
      case Newline =>
        lineStart' := pos';
        lineNum' := lineNum + 1;
      case Skip =>
      case Mismatch =>
        errors' := errors + [BadChar(lineNum, column, code[pos])];
    }
  }
}
