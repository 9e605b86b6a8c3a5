/** Tokens of the LSI language: the closed set of token kinds, the keyword
    table and the Token record produced by the scanner (lexer.py:5-23). */
module Tokens {

  datatype Option<+T> = None | Some(value: T)

  /** The token kinds; there is no end-of-input kind, the end is cursor exhaustion. */
  datatype Kind =
    | DEF | INT | RETURN | IF | ELSE | PRINT
    | ID | NUM
    | PLUS | MINUS | TIMES | DIVIDE | ASSIGN | EQ | LT | GT
    | LPAREN | RPAREN | LBRACE | RBRACE | COMMA | SEMICOLON

  /** A token's value: the integer of a NUM lexeme, the matched text otherwise. */
  datatype Value = Text(text: string) | Number(n: nat)

  /** `line` counts from 1, `column` is the offset from the start of the line. */
  datatype Token = Token(kind: Kind, value: Value, line: nat, column: nat)

  /** The four arithmetic operators that may not follow one another. */
  predicate IsArith(k: Kind) {
    k == PLUS || k == MINUS || k == TIMES || k == DIVIDE
  }

  /** The reserved words and the kinds they are reclassified to. */
  const Keywords: map<string, Kind> :=
    map["def" := DEF, "int" := INT, "return" := RETURN,
        "if" := IF, "else" := ELSE, "print" := PRINT]

  /** The kind of an identifier-shaped lexeme: exact lookup in the keyword
      table. A word is never a number or an arithmetic operator. */
  function ClassifyWord(w: string): (k: Kind)
    ensures k != NUM && !IsArith(k)
  {
    if w in Keywords then Keywords[w] else ID
  }

  /** A word stays an identifier exactly when it is not a reserved word (no
      reserved word maps to ID); a reserved word gets the kind the table gives. */
  lemma ClassifyWordSpec(w: string)
    ensures ClassifyWord(w) == ID <==> w !in Keywords
    ensures w in Keywords ==> ClassifyWord(w) == Keywords[w]
  {
  }
}
