/** The recursive-descent recogniser of parser.py as pure functions over an
    explicit parser state: the cursor and the two flat, global name tables.
    Each method of the Parser class (parser.py:27-201) is one function here,
    with `DeclRest` and `FDefTail` splitting off parts of stmt and fdef; each
    `while` loop a tail-recursive function (a `...Rest` helper, or StmtList
    itself for the loop of stmtlist), and each raised
    exception a `Fail` carrying the state at the point of the raise. A
    dereference of the missing current token past the end of the input
    (Python's AttributeError, caught by parse) is `EndOfInput`. The class
    `Parsing.Parser` is proved to compute exactly these functions. */
module Grammar {
  import opened Tokens

  datatype ParseError =
      /** A `match`/dispatch site saw `found`; `expected` lists what it
          wanted ([k] for match(k), empty for "unexpected token"). */
    | SyntaxError(expected: seq<Kind>, found: Kind, line: nat, column: nat)
    | UndeclaredVar(name: Value, line: nat, column: nat)
    | UndeclaredFunc(name: Value, line: nat, column: nat)
      /** The current token was needed but the cursor is past the last token. */
    | EndOfInput

  datatype Outcome = Success | Failure(error: ParseError)

  /** The mutable part of a Parser: `current_token_index`, `symbol_table`
      and `function_table` (the current token is a function of the index). */
  datatype PState = PState(pos: nat, vars: set<Value>, funcs: set<Value>)

  const Init := PState(0, {}, {})

  /** The result of a recognition step: success or the first error, with the
      state reached. Failure-compatible, so `:-` propagates the first error. */
  datatype Res = Ok(st: PState) | Fail(error: ParseError, st: PState) {
    predicate IsFailure() { Fail? }
    function PropagateFailure(): Res requires Fail? { this }
    function Extract(): PState requires Ok? { st }
    function Out(): Outcome { if Ok? then Success else Failure(error) }
  }

  /** `current_token`: the token under the cursor, None past the end. */
  function Cur(toks: seq<Token>, pos: nat): Option<Token> {
    if pos < |toks| then Some(toks[pos]) else None
  }

  /** `lookahead()`: the token after the current one, None if there is none. */
  function Peek(toks: seq<Token>, pos: nat): (r: Option<Token>)
    // the token the cursor will be on after one advance
    ensures r == Cur(toks, pos + 1)
    // a lookahead token exists only when a current token does
    ensures r.Some? ==> Cur(toks, pos).Some?
  {
    if pos + 1 < |toks| then Some(toks[pos + 1]) else None
  }

  /** There is a current token and it is of kind `k`. */
  predicate At(toks: seq<Token>, pos: nat, k: Kind) {
    pos < |toks| && toks[pos].kind == k
  }

  /** The kinds that start a statement (the loop test of stmtlist). */
  const StmtStart: set<Kind> := {INT, ID, PRINT, RETURN, IF, LBRACE, SEMICOLON}

  /** A step never moves the cursor backwards or past the end, and the tables
      only grow. */
  predicate Extends(toks: seq<Token>, s: PState, r: Res) {
    s.pos <= r.st.pos <= |toks| && s.vars <= r.st.vars && s.funcs <= r.st.funcs
  }

  /** Every error points at the cursor where it was raised: end of input is
      reported only at the end; a syntax error names the kind, line and
      column of the token under the cursor, which is not one it expected;
      an undeclared name is the value of the token under the cursor and is
      missing from its table at that moment. */
  predicate Localized(toks: seq<Token>, r: Res) {
    r.Fail? ==>
      match r.error
      case EndOfInput => r.st.pos == |toks|
      case SyntaxError(expected, found, line, column) =>
        r.st.pos < |toks| && toks[r.st.pos].kind == found && found !in expected
        && toks[r.st.pos].line == line && toks[r.st.pos].column == column
      case UndeclaredVar(name, line, column) =>
        r.st.pos < |toks| && toks[r.st.pos].value == name && name !in r.st.vars
        && toks[r.st.pos].line == line && toks[r.st.pos].column == column
      case UndeclaredFunc(name, line, column) =>
        r.st.pos < |toks| && toks[r.st.pos].value == name && name !in r.st.funcs
        && toks[r.st.pos].line == line && toks[r.st.pos].column == column
  }

  predicate Sound(toks: seq<Token>, s: PState, r: Res) {
    Extends(toks, s, r) && Localized(toks, r)
  }

  /** The step changes neither table (the expression rules only read them). */
  predicate KeepsTables(s: PState, r: Res) {
    r.st.vars == s.vars && r.st.funcs == s.funcs
  }

  /** Every ID token in toks[i..j] names a declared variable. */
  ghost predicate IdsDeclared(toks: seq<Token>, i: nat, j: nat, vars: set<Value>) {
    j <= |toks| && forall k :: i <= k < j && toks[k].kind == ID ==> toks[k].value in vars
  }

  function UnexpectedAt(toks: seq<Token>, s: PState): Res
    requires s.pos < |toks|
  {
    Fail(SyntaxError([], toks[s.pos].kind, toks[s.pos].line, toks[s.pos].column), s)
  }

  /** match(k) (parser.py:197-201): consume the current token if it has kind
      `k`, otherwise fail without moving. */
  function Match(toks: seq<Token>, s: PState, k: Kind): (r: Res)
    requires s.pos <= |toks|
    ensures r.Ok? <==> At(toks, s.pos, k)
    ensures r.st == if r.Ok? then s.(pos := s.pos + 1) else s
    ensures Localized(toks, r)
    ensures r.Fail? && r.error.SyntaxError? ==> r.error.expected == [k]
  {
    if At(toks, s.pos, k) then Ok(s.(pos := s.pos + 1))
    else if s.pos < |toks| then Fail(SyntaxError([k], toks[s.pos].kind, toks[s.pos].line, toks[s.pos].column), s)
    else Fail(EndOfInput, s)
  }

  // ---------------------------------------------------------------- expressions

  /** expr (parser.py:165-169): NumExpr { (LT|GT|EQ) NumExpr } */
  function Expr(toks: seq<Token>, s: PState): (r: Res)
    requires s.pos <= |toks|
    ensures Sound(toks, s, r) && KeepsTables(s, r)
    ensures r.Ok? ==> r.st.pos > s.pos && IdsDeclared(toks, s.pos, r.st.pos, s.vars)
  {
    var s1 :- NumExpr(toks, s);
    ExprRest(toks, s1)
  }

  /** The loop of expr. */
  function ExprRest(toks: seq<Token>, s: PState): (r: Res)
    requires s.pos <= |toks|
    ensures Sound(toks, s, r) && KeepsTables(s, r)
    ensures r.Ok? ==> IdsDeclared(toks, s.pos, r.st.pos, s.vars)
    decreases |toks| - s.pos
  {
    if At(toks, s.pos, LT) || At(toks, s.pos, GT) || At(toks, s.pos, EQ) then
      var s1 := Match(toks, s, toks[s.pos].kind).st;  // cannot fail
      var s2 :- NumExpr(toks, s1);
      ExprRest(toks, s2)
    else Ok(s)
  }

  /** numexpr (parser.py:171-175): Term { (PLUS|MINUS) Term } */
  function NumExpr(toks: seq<Token>, s: PState): (r: Res)
    requires s.pos <= |toks|
    ensures Sound(toks, s, r) && KeepsTables(s, r)
    ensures r.Ok? ==> r.st.pos > s.pos && IdsDeclared(toks, s.pos, r.st.pos, s.vars)
    decreases |toks| - s.pos, 3
  {
    var s1 :- Term(toks, s);
    NumExprRest(toks, s1)
  }

  /** The loop of numexpr. */
  function NumExprRest(toks: seq<Token>, s: PState): (r: Res)
    requires s.pos <= |toks|
    ensures Sound(toks, s, r) && KeepsTables(s, r)
    ensures r.Ok? ==> IdsDeclared(toks, s.pos, r.st.pos, s.vars)
    decreases |toks| - s.pos, 2
  {
    if At(toks, s.pos, PLUS) || At(toks, s.pos, MINUS) then
      var s1 := Match(toks, s, toks[s.pos].kind).st;  // cannot fail
      var s2 :- Term(toks, s1);
      NumExprRest(toks, s2)
    else Ok(s)
  }

  /** term (parser.py:177-181): Factor { (TIMES|DIVIDE) Factor } */
  function Term(toks: seq<Token>, s: PState): (r: Res)
    requires s.pos <= |toks|
    ensures Sound(toks, s, r) && KeepsTables(s, r)
    ensures r.Ok? ==> r.st.pos > s.pos && IdsDeclared(toks, s.pos, r.st.pos, s.vars)
    decreases |toks| - s.pos, 2
  {
    var s1 :- Factor(toks, s);
    TermRest(toks, s1)
  }

  /** The loop of term. */
  function TermRest(toks: seq<Token>, s: PState): (r: Res)
    requires s.pos <= |toks|
    ensures Sound(toks, s, r) && KeepsTables(s, r)
    ensures r.Ok? ==> IdsDeclared(toks, s.pos, r.st.pos, s.vars)
    decreases |toks| - s.pos, 1
  {
    if At(toks, s.pos, TIMES) || At(toks, s.pos, DIVIDE) then
      var s1 := Match(toks, s, toks[s.pos].kind).st;  // cannot fail
      var s2 :- Factor(toks, s1);
      TermRest(toks, s2)
    else Ok(s)
  }

  /** factor (parser.py:183-195): NUM | LPAREN NumExpr RPAREN | ID, where the
      ID must already be a declared variable. */
  function Factor(toks: seq<Token>, s: PState): (r: Res)
    requires s.pos <= |toks|
    ensures Sound(toks, s, r) && KeepsTables(s, r)
    ensures r.Ok? ==> r.st.pos > s.pos && IdsDeclared(toks, s.pos, r.st.pos, s.vars)
    decreases |toks| - s.pos, 1
  {
    if s.pos == |toks| then Fail(EndOfInput, s)
    else
      var t := toks[s.pos];
      if t.kind == NUM then Match(toks, s, NUM)
      else if t.kind == LPAREN then
        var s1 := Match(toks, s, LPAREN).st;  // cannot fail
        var s2 :- NumExpr(toks, s1);
        Match(toks, s2, RPAREN)
      else if t.kind == ID then
        if t.value !in s.vars then Fail(UndeclaredVar(t.value, t.line, t.column), s)
        else Match(toks, s, ID)
      else UnexpectedAt(toks, s)
  }

  // ---------------------------------------------------------------- calls

  /** fcall (parser.py:121-128): the callee must already be in the function
      table; then ID LPAREN args RPAREN. */
  function FCall(toks: seq<Token>, s: PState): (r: Res)
    requires s.pos <= |toks|
    ensures Sound(toks, s, r) && KeepsTables(s, r)
    ensures r.Ok? ==> r.st.pos > s.pos && toks[s.pos].value in s.funcs
                      && IdsDeclared(toks, s.pos + 1, r.st.pos, s.vars)
  {
    if s.pos == |toks| then Fail(EndOfInput, s)
    else
      var t := toks[s.pos];
      if t.value !in s.funcs then Fail(UndeclaredFunc(t.value, t.line, t.column), s)
      else
        var s1 :- Match(toks, s, ID);
        var s2 :- Match(toks, s1, LPAREN);
        var s3 :- ParListCall(toks, s2);
        Match(toks, s3, RPAREN)
  }

  /** parlistcall (parser.py:130-141): empty, or declared IDs separated by commas. */
  function ParListCall(toks: seq<Token>, s: PState): (r: Res)
    requires s.pos <= |toks|
    ensures Sound(toks, s, r) && KeepsTables(s, r)
    ensures r.Ok? ==> IdsDeclared(toks, s.pos, r.st.pos, s.vars)
  {
    if s.pos == |toks| then Fail(EndOfInput, s)
    else if toks[s.pos].kind == ID then
      if toks[s.pos].value !in s.vars then
        Fail(UndeclaredVar(toks[s.pos].value, toks[s.pos].line, toks[s.pos].column), s)
      else
        var s1 := Match(toks, s, ID).st;  // cannot fail
        ArgsRest(toks, s1)
    else Ok(s)
  }

  /** The loop of parlistcall. After a comma the current token's value is
      looked up BEFORE its kind is checked, so a non-ID there is reported as
      an undeclared variable. */
  function ArgsRest(toks: seq<Token>, s: PState): (r: Res)
    requires s.pos <= |toks|
    ensures Sound(toks, s, r) && KeepsTables(s, r)
    ensures r.Ok? ==> IdsDeclared(toks, s.pos, r.st.pos, s.vars)
    decreases |toks| - s.pos
  {
    if At(toks, s.pos, COMMA) then
      var s1 := Match(toks, s, COMMA).st;  // cannot fail
      if s1.pos == |toks| then Fail(EndOfInput, s1)
      else if toks[s1.pos].value !in s1.vars then
        Fail(UndeclaredVar(toks[s1.pos].value, toks[s1.pos].line, toks[s1.pos].column), s1)
      else
        var s2 :- Match(toks, s1, ID);
        ArgsRest(toks, s2)
    else Ok(s)
  }

  // ---------------------------------------------------------------- statements

  /** atribstmt (parser.py:109-119): ID ASSIGN, then a call when the next two
      tokens are ID LPAREN and an expression otherwise; the target is then
      (re)inserted into the variable table. */
  function AtribStmt(toks: seq<Token>, s: PState): (r: Res)
    requires s.pos <= |toks|
    ensures Sound(toks, s, r)
    ensures r.Ok? ==> r.st.pos > s.pos && toks[s.pos].value in r.st.vars
  {
    var s1 :- Match(toks, s, ID);
    var s2 :- Match(toks, s1, ASSIGN);
    if s2.pos == |toks| then Fail(EndOfInput, s2)
    else
      var isCall := toks[s2.pos].kind == ID && Peek(toks, s2.pos).Some? && Peek(toks, s2.pos).value.kind == LPAREN;
      var s3 :- if isCall then FCall(toks, s2) else Expr(toks, s2);
      Ok(s3.(vars := s3.vars + {toks[s.pos].value}))
  }

  /** printstmt (parser.py:148-150): PRINT Expr */
  function PrintStmt(toks: seq<Token>, s: PState): (r: Res)
    requires s.pos <= |toks|
    ensures Sound(toks, s, r) && KeepsTables(s, r)
    ensures r.Ok? ==> r.st.pos > s.pos
  {
    var s1 :- Match(toks, s, PRINT);
    Expr(toks, s1)
  }

  /** returnstmt (parser.py:152-153): RETURN */
  function ReturnStmt(toks: seq<Token>, s: PState): (r: Res)
    requires s.pos <= |toks|
    ensures Sound(toks, s, r) && KeepsTables(s, r)
    ensures r.Ok? ==> r.st.pos == s.pos + 1
  {
    Match(toks, s, RETURN)
  }

  /** stmtlist (parser.py:69-71): statements while the current token can
      start one. */
  function StmtList(toks: seq<Token>, s: PState): (r: Res)
    requires s.pos <= |toks|
    ensures Sound(toks, s, r)
    ensures r.Ok? ==> r.st.pos == |toks| || toks[r.st.pos].kind !in StmtStart
    decreases |toks| - s.pos, 2
  {
    if s.pos < |toks| && toks[s.pos].kind in StmtStart then
      var s1 :- Stmt(toks, s);
      StmtList(toks, s1)
    else Ok(s)
  }

  /** stmt (parser.py:73-107): dispatch on the current token. `int ID`
      inserts the name before any initializer is parsed; a statement that
      starts with an ID needs that ID declared. */
  function Stmt(toks: seq<Token>, s: PState): (r: Res)
    requires s.pos <= |toks|
    ensures Sound(toks, s, r)
    ensures r.Ok? ==> r.st.pos > s.pos
    decreases |toks| - s.pos, 1
  {
    if s.pos == |toks| then Fail(EndOfInput, s)
    else
      var t := toks[s.pos];
      match t.kind
      case INT =>
        var s1 := Match(toks, s, INT).st;  // cannot fail
        var s2 :- Match(toks, s1, ID);
        DeclRest(toks, s2.(vars := s2.vars + {toks[s1.pos].value}))
      case ID =>
        if t.value !in s.vars then Fail(UndeclaredVar(t.value, t.line, t.column), s)
        else
          var s1 :- AtribStmt(toks, s);
          Match(toks, s1, SEMICOLON)
      case PRINT =>
        var s1 :- PrintStmt(toks, s);
        Match(toks, s1, SEMICOLON)
      case RETURN =>
        var s1 :- ReturnStmt(toks, s);
        Match(toks, s1, SEMICOLON)
      case IF => IfStmt(toks, s)
      case LBRACE =>
        var s1 := Match(toks, s, LBRACE).st;  // cannot fail
        var s2 :- StmtList(toks, s1);
        Match(toks, s2, RBRACE)
      case SEMICOLON => Match(toks, s, SEMICOLON)
      case _ => UnexpectedAt(toks, s)
  }

  /** The part of a declaration after the name has been inserted: `;`, or
      `=` followed by an expression and `;`. */
  function DeclRest(toks: seq<Token>, s: PState): (r: Res)
    requires s.pos <= |toks|
    ensures Sound(toks, s, r)
    ensures r.Ok? ==> r.st.pos > s.pos
  {
    if s.pos == |toks| then Fail(EndOfInput, s)
    else if toks[s.pos].kind == SEMICOLON then Match(toks, s, SEMICOLON)
    else if toks[s.pos].kind == ASSIGN then
      var s1 := Match(toks, s, ASSIGN).st;  // cannot fail
      var s2 :- Expr(toks, s1);
      Match(toks, s2, SEMICOLON)
    else
      Fail(SyntaxError([SEMICOLON, ASSIGN], toks[s.pos].kind, toks[s.pos].line, toks[s.pos].column), s)
  }

  /** ifstmt (parser.py:155-163): IF LPAREN Expr RPAREN Stmt [ELSE Stmt] */
  function IfStmt(toks: seq<Token>, s: PState): (r: Res)
    requires s.pos <= |toks|
    ensures Sound(toks, s, r)
    ensures r.Ok? ==> r.st.pos > s.pos
    decreases |toks| - s.pos, 0
  {
    var s1 :- Match(toks, s, IF);
    var s2 :- Match(toks, s1, LPAREN);
    var s3 :- Expr(toks, s2);
    var s4 :- Match(toks, s3, RPAREN);
    var s5 :- Stmt(toks, s4);
    if At(toks, s5.pos, ELSE) then
      var s6 := Match(toks, s5, ELSE).st;  // cannot fail
      Stmt(toks, s6)
    else Ok(s5)
  }

  // ---------------------------------------------------------------- functions

  /** Every parameter name consumed from `i` up to the cursor of `st` is in
      the variable table of `st`. */
  ghost predicate ParamsDeclared(toks: seq<Token>, i: nat, st: PState) {
    st.pos <= |toks| && forall k :: i <= k < st.pos && toks[k].kind == ID ==> toks[k].value in st.vars
  }

  /** parlist (parser.py:54-67): empty, or `int ID {, int ID}`; each
      parameter goes into the one global variable table. */
  function ParList(toks: seq<Token>, s: PState): (r: Res)
    requires s.pos <= |toks|
    ensures Sound(toks, s, r) && r.st.funcs == s.funcs
    ensures r.Ok? ==> ParamsDeclared(toks, s.pos, r.st)
  {
    if s.pos == |toks| then Fail(EndOfInput, s)
    else if toks[s.pos].kind == INT then
      var s1 := Match(toks, s, INT).st;  // cannot fail
      var s2 :- Match(toks, s1, ID);
      ParamsRest(toks, s2.(vars := s2.vars + {toks[s1.pos].value}))
    else Ok(s)
  }

  /** The loop of parlist. */
  function ParamsRest(toks: seq<Token>, s: PState): (r: Res)
    requires s.pos <= |toks|
    ensures Sound(toks, s, r) && r.st.funcs == s.funcs
    ensures r.Ok? ==> ParamsDeclared(toks, s.pos, r.st)
    decreases |toks| - s.pos
  {
    if At(toks, s.pos, COMMA) then
      var s1 := Match(toks, s, COMMA).st;  // cannot fail
      var s2 :- Match(toks, s1, INT);
      var s3 :- Match(toks, s2, ID);
      ParamsRest(toks, s3.(vars := s3.vars + {toks[s2.pos].value}))
    else Ok(s)
  }

  /** fdef (parser.py:42-52): the name enters the function table right after
      the header ID, before the parameters and the body are parsed. */
  function FDef(toks: seq<Token>, s: PState): (r: Res)
    requires s.pos <= |toks|
    ensures Sound(toks, s, r)
    ensures r.Ok? ==> r.st.pos > s.pos && s.pos + 1 < |toks| && toks[s.pos + 1].value in r.st.funcs
  {
    var s1 :- Match(toks, s, DEF);
    if s1.pos == |toks| then Fail(EndOfInput, s1)
    else
      var name := toks[s1.pos].value;
      var s2 :- Match(toks, s1, ID);
      FDefTail(toks, s2.(funcs := s2.funcs + {name}))
  }

  /** The part of fdef after the name: LPAREN ParList RPAREN LBRACE StmtList RBRACE */
  function FDefTail(toks: seq<Token>, s: PState): (r: Res)
    requires s.pos <= |toks|
    ensures Sound(toks, s, r)
    ensures r.Ok? ==> r.st.pos > s.pos
  {
    var s1 :- Match(toks, s, LPAREN);
    var s2 :- ParList(toks, s1);
    var s3 :- Match(toks, s2, RPAREN);
    var s4 :- Match(toks, s3, LBRACE);
    var s5 :- StmtList(toks, s4);
    Match(toks, s5, RBRACE)
  }

  /** flist (parser.py:37-40): one definition, then more while the current
      token is DEF. */
  function FList(toks: seq<Token>, s: PState): (r: Res)
    requires s.pos <= |toks|
    ensures Sound(toks, s, r)
    ensures r.Ok? ==> r.st.pos > s.pos && !At(toks, r.st.pos, DEF)
  {
    var s1 :- FDef(toks, s);
    FListRest(toks, s1)
  }

  /** The loop of flist. */
  function FListRest(toks: seq<Token>, s: PState): (r: Res)
    requires s.pos <= |toks|
    ensures Sound(toks, s, r)
    ensures r.Ok? ==> !At(toks, r.st.pos, DEF)
    decreases |toks| - s.pos
  {
    if At(toks, s.pos, DEF) then
      var s1 :- FDef(toks, s);
      FListRest(toks, s1)
    else Ok(s)
  }

  /** main (parser.py:27-35): the first token alone decides: DEF starts a
      function list, INT exactly one statement, anything else is an error.
      (The source's 'EOF' branch cannot be taken: there is no such kind.) */
  function Program(toks: seq<Token>, s: PState): (r: Res)
    requires s.pos <= |toks|
    ensures Sound(toks, s, r)
  {
    if s.pos == |toks| then Fail(EndOfInput, s)
    else if toks[s.pos].kind == DEF then FList(toks, s)
    else if toks[s.pos].kind == INT then Stmt(toks, s)
    else UnexpectedAt(toks, s)
  }

  /** parse (parser.py:20-25) on a fresh parser: empty tables, cursor at the
      first token. An empty token list is an error, never an acceptance. */
  function Parse(toks: seq<Token>): (r: Res)
    ensures Sound(toks, Init, r)
    ensures toks == [] ==> r == Fail(EndOfInput, Init)
  {
    Program(toks, Init)
  }
}
