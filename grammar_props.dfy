/** Properties of the recogniser: declared-before-use for variables and
    functions, the insertion points of the two tables, the call-versus-
    expression choice, the top-level dispatch, and worked token lists. */
module GrammarProps {
  import opened Tokens
  import opened Grammar

  // ------------------------------------------------------------ declared before use

  /** A statement that starts with an undeclared ID fails at once, naming it. */
  lemma UndeclaredAssignmentTarget(toks: seq<Token>, s: PState)
    requires s.pos < |toks| && toks[s.pos].kind == ID && toks[s.pos].value !in s.vars
    ensures Stmt(toks, s) == Fail(UndeclaredVar(toks[s.pos].value, toks[s.pos].line, toks[s.pos].column), s)
  {
  }

  /** An undeclared ID used as a factor fails at once, naming it. */
  lemma UndeclaredFactor(toks: seq<Token>, s: PState)
    requires s.pos < |toks| && toks[s.pos].kind == ID && toks[s.pos].value !in s.vars
    ensures Factor(toks, s) == Fail(UndeclaredVar(toks[s.pos].value, toks[s.pos].line, toks[s.pos].column), s)
  {
  }

  /** An undeclared ID as the first call argument fails at once, naming it. */
  lemma UndeclaredArgument(toks: seq<Token>, s: PState)
    requires s.pos < |toks| && toks[s.pos].kind == ID && toks[s.pos].value !in s.vars
    ensures ParListCall(toks, s) == Fail(UndeclaredVar(toks[s.pos].value, toks[s.pos].line, toks[s.pos].column), s)
  {
  }

  /** After a comma in a call, the next token's value is looked up before its
      kind is checked: whatever it is, if its value is not a declared
      variable the error is an undeclared variable. */
  lemma UndeclaredLaterArgument(toks: seq<Token>, s: PState)
    requires s.pos + 1 < |toks| && toks[s.pos].kind == COMMA && toks[s.pos + 1].value !in s.vars
    ensures ArgsRest(toks, s) == Fail(UndeclaredVar(toks[s.pos + 1].value, toks[s.pos + 1].line, toks[s.pos + 1].column),
                                      s.(pos := s.pos + 1))
  {
  }

  /** A call to a name not in the function table fails at once, naming it. */
  lemma UndeclaredCallee(toks: seq<Token>, s: PState)
    requires s.pos < |toks| && toks[s.pos].value !in s.funcs
    ensures FCall(toks, s) == Fail(UndeclaredFunc(toks[s.pos].value, toks[s.pos].line, toks[s.pos].column), s)
  {
  }

  // ------------------------------------------------------------ building blocks

  /** One declared ID or one number, followed by anything that cannot continue
      an expression, is a whole expression. */
  lemma SingleOperand(toks: seq<Token>, s: PState)
    requires s.pos < |toks|
    requires toks[s.pos].kind == NUM || (toks[s.pos].kind == ID && toks[s.pos].value in s.vars)
    requires s.pos + 1 < |toks| ==> toks[s.pos + 1].kind !in {TIMES, DIVIDE, PLUS, MINUS, LT, GT, EQ}
    ensures Expr(toks, s) == Ok(s.(pos := s.pos + 1))
  {
    var s1 := s.(pos := s.pos + 1);
    assert Factor(toks, s) == Ok(s1);
    assert TermRest(toks, s1) == Ok(s1);
    assert Term(toks, s) == Ok(s1);
    assert NumExprRest(toks, s1) == Ok(s1);
    assert NumExpr(toks, s) == Ok(s1);
    assert ExprRest(toks, s1) == Ok(s1);
  }

  /** `int x = x;` is accepted: the name is inserted before the initializer
      is parsed, whatever the table held before. */
  lemma SelfInitialisation(toks: seq<Token>, s: PState)
    requires s.pos + 5 <= |toks|
    requires toks[s.pos].kind == INT && toks[s.pos + 1].kind == ID && toks[s.pos + 2].kind == ASSIGN
    requires toks[s.pos + 3].kind == ID && toks[s.pos + 3].value == toks[s.pos + 1].value
    requires toks[s.pos + 4].kind == SEMICOLON
    ensures Stmt(toks, s) == Ok(PState(s.pos + 5, s.vars + {toks[s.pos + 1].value}, s.funcs))
  {
    var s2 := s.(pos := s.pos + 2);
    var s3 := PState(s.pos + 3, s.vars + {toks[s.pos + 1].value}, s.funcs);
    assert Match(toks, s, INT) == Ok(s.(pos := s.pos + 1));
    assert Match(toks, s.(pos := s.pos + 1), ID) == Ok(s2);
    assert Match(toks, s2.(vars := s3.vars), ASSIGN) == Ok(s3);
    SingleOperand(toks, s3);
    assert Match(toks, s3.(pos := s.pos + 4), SEMICOLON) == Ok(s3.(pos := s.pos + 5));
  }

  /** A function's name enters the function table right after its header ID,
      before the parameter list and the body are parsed; this is what makes
      self-calls legal. */
  lemma FunctionNameBeforeBody(toks: seq<Token>, s: PState)
    requires s.pos + 1 < |toks| && toks[s.pos].kind == DEF && toks[s.pos + 1].kind == ID
    ensures FDef(toks, s) == FDefTail(toks, PState(s.pos + 2, s.vars, s.funcs + {toks[s.pos + 1].value}))
  {
  }

  /** Parameters go into the one global variable table. */
  lemma ParametersAreGlobal(toks: seq<Token>, s: PState)
    requires s.pos + 2 < |toks| && toks[s.pos].kind == INT && toks[s.pos + 1].kind == ID
    requires !At(toks, s.pos + 2, COMMA)
    ensures ParList(toks, s) == Ok(PState(s.pos + 2, s.vars + {toks[s.pos + 1].value}, s.funcs))
  {
  }

  /** The right-hand side of `ID = ...` is a call exactly when it starts with
      ID LPAREN, and an expression otherwise; either way the target is in the
      variable table afterwards. */
  lemma CallOrExpression(toks: seq<Token>, s: PState)
    requires s.pos + 2 < |toks| && toks[s.pos].kind == ID && toks[s.pos + 1].kind == ASSIGN
    ensures var rhs := PState(s.pos + 2, s.vars, s.funcs);
      var r := if toks[s.pos + 2].kind == ID && At(toks, s.pos + 3, LPAREN) then FCall(toks, rhs) else Expr(toks, rhs);
      AtribStmt(toks, s) == if r.Fail? then r else Ok(r.st.(vars := r.st.vars + {toks[s.pos].value}))
  {
    assert Match(toks, s, ID) == Ok(s.(pos := s.pos + 1));
    assert Match(toks, s.(pos := s.pos + 1), ASSIGN) == Ok(s.(pos := s.pos + 2));
  }

  // ------------------------------------------------------------ top level

  /** The first token alone decides: DEF parses a function list, INT exactly
      one statement, any other token is a syntax error naming it. */
  lemma TopLevelDispatch(toks: seq<Token>)
    requires |toks| > 0
    ensures toks[0].kind == DEF ==> Parse(toks) == FList(toks, Init)
    ensures toks[0].kind == INT ==> Parse(toks) == Stmt(toks, Init)
    ensures toks[0].kind !in {DEF, INT} ==>
              Parse(toks) == Fail(SyntaxError([], toks[0].kind, toks[0].line, toks[0].column), Init)
  {
  }

  // ------------------------------------------------------------ worked token lists

  /** A token of kind `k` with text `w`; positions do not matter to acceptance. */
  function Tk(k: Kind, w: string): Token {
    Token(k, Text(w), 1, 0)
  }

  /** Success does not require consuming the input: after the one top-level
      statement, anything at all may follow. */
  lemma StatementThenAnything(toks: seq<Token>, rest: seq<Token>)
    requires toks == [Tk(INT, "int"), Tk(ID, "x"), Tk(SEMICOLON, ";")] + rest
    ensures Parse(toks) == Ok(PState(3, {Text("x")}, {}))
  {
    assert toks[0].kind == INT && toks[1].kind == ID && toks[2].kind == SEMICOLON;
  }

  /** `y = 1;` at top level is rejected by the first-token dispatch, before
      any declaration check. */
  lemma TopLevelAssignment(toks: seq<Token>)
    requires toks == [Token(ID, Text("y"), 1, 0), Tk(ASSIGN, "="), Token(NUM, Number(1), 1, 4), Tk(SEMICOLON, ";")]
    ensures Parse(toks) == Fail(SyntaxError([], ID, 1, 0), Init)
  {
    assert toks[0].kind == ID;
  }

  /** `int x ;` declares x and nothing else. */
  lemma Declaration(toks: seq<Token>, s: PState)
    requires s.pos + 3 <= |toks|
    requires toks[s.pos].kind == INT && toks[s.pos + 1].kind == ID && toks[s.pos + 2].kind == SEMICOLON
    ensures Stmt(toks, s) == Ok(PState(s.pos + 3, s.vars + {toks[s.pos + 1].value}, s.funcs))
  {
    var s1 := s.(pos := s.pos + 1);
    assert Match(toks, s, INT) == Ok(s1);
    assert Match(toks, s1, ID) == Ok(s.(pos := s.pos + 2));
    var s3 := PState(s.pos + 2, s.vars + {toks[s.pos + 1].value}, s.funcs);
    assert Match(toks, s3, SEMICOLON) == Ok(s3.(pos := s.pos + 3));
  }

  /** `x = g ( args ) ;` with x declared, g in the function table and the
      arguments a declared variable list of length zero or one. */
  lemma CallAssignment(toks: seq<Token>, s: PState, args: nat)
    requires args <= 1 && s.pos + 6 + args <= |toks|
    requires toks[s.pos].kind == ID && toks[s.pos].value in s.vars && toks[s.pos + 1].kind == ASSIGN
    requires toks[s.pos + 2].kind == ID && toks[s.pos + 2].value in s.funcs && toks[s.pos + 3].kind == LPAREN
    requires args == 1 ==> toks[s.pos + 4].kind == ID && toks[s.pos + 4].value in s.vars
    requires args == 0 ==> toks[s.pos + 4].kind != ID
    requires toks[s.pos + 4 + args].kind == RPAREN && toks[s.pos + 5 + args].kind == SEMICOLON
    ensures Stmt(toks, s) == Ok(s.(pos := s.pos + 6 + args))
  {
    var s1, s2, s3, s4 := s.(pos := s.pos + 1), s.(pos := s.pos + 2), s.(pos := s.pos + 3), s.(pos := s.pos + 4);
    var s5, s6 := s.(pos := s.pos + 4 + args), s.(pos := s.pos + 5 + args);
    assert Match(toks, s, ID) == Ok(s1);
    assert Match(toks, s1, ASSIGN) == Ok(s2);
    assert Match(toks, s2, ID) == Ok(s3);
    assert Match(toks, s3, LPAREN) == Ok(s4);
    CallArguments(toks, s4, args);
    assert Match(toks, s5, RPAREN) == Ok(s6);
    assert FCall(toks, s2) == Ok(s6);
    assert s6.(vars := s6.vars + {toks[s.pos].value}) == s6;
    assert AtribStmt(toks, s) == Ok(s6);
    assert Match(toks, s6, SEMICOLON) == Ok(s.(pos := s.pos + 6 + args));
  }

  /** A call's argument list of zero or one declared variables. */
  lemma CallArguments(toks: seq<Token>, s: PState, args: nat)
    requires args <= 1 && s.pos + args < |toks|
    requires args == 1 ==> toks[s.pos].kind == ID && toks[s.pos].value in s.vars
    requires args == 0 ==> toks[s.pos].kind != ID
    requires toks[s.pos + args].kind == RPAREN
    ensures ParListCall(toks, s) == Ok(s.(pos := s.pos + args))
  {
    if args == 1 {
      assert ArgsRest(toks, s.(pos := s.pos + 1)) == Ok(s.(pos := s.pos + 1));
    }
  }


  /** The part of a definition after its name: `( params ) { body }`, given
      what the parameter list and the body parse to. */
  lemma DefinitionTail(toks: seq<Token>, s: PState, p: PState, e: PState)
    requires s.pos < |toks| && toks[s.pos].kind == LPAREN
    requires ParList(toks, s.(pos := s.pos + 1)) == Ok(p)
    requires p.pos + 1 < |toks| && toks[p.pos].kind == RPAREN && toks[p.pos + 1].kind == LBRACE
    requires StmtList(toks, p.(pos := p.pos + 2)) == Ok(e)
    requires e.pos < |toks| && toks[e.pos].kind == RBRACE
    ensures FDefTail(toks, s) == Ok(e.(pos := e.pos + 1))
  {
    var s1, p1, p2 := s.(pos := s.pos + 1), p.(pos := p.pos + 1), p.(pos := p.pos + 2);
    assert RBRACE !in StmtStart;
    assert Match(toks, s, LPAREN) == Ok(s1);
    assert Match(toks, p, RPAREN) == Ok(p1);
    assert Match(toks, p1, LBRACE) == Ok(p2);
    assert Match(toks, e, RBRACE) == Ok(e.(pos := e.pos + 1));
  }

  /** A statement list takes one statement when the next token can start one. */
  lemma StmtListStep(toks: seq<Token>, s: PState, t: PState)
    requires s.pos < |toks| && toks[s.pos].kind in StmtStart
    requires Stmt(toks, s) == Ok(t)
    ensures StmtList(toks, s) == StmtList(toks, t)
  {
  }

  /** A statement list ends, successfully, at a token that cannot start a statement. */
  lemma StmtListStop(toks: seq<Token>, s: PState)
    requires s.pos < |toks| && toks[s.pos].kind !in StmtStart
    ensures StmtList(toks, s) == Ok(s)
  {
  }

  /** `def f ( ) { int x ; x = f ( ) ; }`, with any names f and x. */
  predicate SelfCallProgram(toks: seq<Token>) {
    15 <= |toks|
    && toks[0].kind == DEF && toks[1].kind == ID && toks[2].kind == LPAREN && toks[3].kind == RPAREN
    && toks[4].kind == LBRACE && toks[5].kind == INT && toks[6].kind == ID && toks[7].kind == SEMICOLON
    && toks[8].kind == ID && toks[9].kind == ASSIGN && toks[10].kind == ID && toks[11].kind == LPAREN
    && toks[12].kind == RPAREN && toks[13].kind == SEMICOLON && toks[14].kind == RBRACE
    && toks[8].value == toks[6].value && toks[10].value == toks[1].value
  }

  /** A function may call itself: the program is accepted, because f is in
      the table before its body is parsed. */
  lemma SelfCall(toks: seq<Token>)
    requires SelfCallProgram(toks) && !At(toks, 15, DEF)
    ensures Parse(toks) == Ok(PState(15, {toks[6].value}, {toks[1].value}))
  {
    var fs := {toks[1].value};
    var vs := {toks[6].value};
    var s2 := PState(2, {}, fs);
    FunctionNameBeforeBody(toks, Init);
    assert PState(2, Init.vars, Init.funcs + {toks[1].value}) == s2;
    assert ParList(toks, s2.(pos := 3)) == Ok(s2.(pos := 3));
    SelfCallBody(toks, s2.(pos := 5));
    DefinitionTail(toks, s2, s2.(pos := 3), PState(14, vs, fs));
    assert FDef(toks, Init) == Ok(PState(15, vs, fs));
    assert FListRest(toks, PState(15, vs, fs)) == Ok(PState(15, vs, fs));
    assert FList(toks, Init) == Ok(PState(15, vs, fs));
    assert Program(toks, Init) == FList(toks, Init);
  }

  /** The body of SelfCall's function: `int x ; x = f ( ) ; }`. */
  lemma SelfCallBody(toks: seq<Token>, s: PState)
    requires SelfCallProgram(toks)
    requires s == PState(5, {}, {toks[1].value})
    ensures StmtList(toks, s) == Ok(PState(14, {toks[6].value}, {toks[1].value}))
  {
    var fs := {toks[1].value};
    var vs := {toks[6].value};
    Declaration(toks, s);
    assert {} + {toks[6].value} == vs;
    CallAssignment(toks, PState(8, vs, fs), 0);
    StmtListStep(toks, s, PState(8, vs, fs));
    StmtListStep(toks, PState(8, vs, fs), PState(14, vs, fs));
    assert StmtList(toks, PState(14, vs, fs)) == Ok(PState(14, vs, fs));
  }

  /** `def f ( ) { int x ; x = g ( ...`, with g a name other than f. */
  predicate ForwardCallProgram(toks: seq<Token>) {
    12 <= |toks|
    && toks[0].kind == DEF && toks[1].kind == ID && toks[2].kind == LPAREN && toks[3].kind == RPAREN
    && toks[4].kind == LBRACE && toks[5].kind == INT && toks[6].kind == ID && toks[7].kind == SEMICOLON
    && toks[8].kind == ID && toks[9].kind == ASSIGN && toks[10].kind == ID && toks[11].kind == LPAREN
    && toks[8].value == toks[6].value && toks[10].value != toks[1].value
  }

  /** A function cannot call one defined after it: the call fails naming g,
      whatever follows, even if g is defined later. */
  lemma NoForwardCall(toks: seq<Token>)
    requires ForwardCallProgram(toks)
    ensures Parse(toks).Fail?
    ensures Parse(toks).error == UndeclaredFunc(toks[10].value, toks[10].line, toks[10].column)
  {
    var fs := {toks[1].value};
    var vs := {toks[6].value};
    var s2 := PState(2, {}, fs);
    var err := UndeclaredFunc(toks[10].value, toks[10].line, toks[10].column);
    FunctionNameBeforeBody(toks, Init);
    assert PState(2, Init.vars, Init.funcs + {toks[1].value}) == s2;
    assert ParList(toks, s2.(pos := 3)) == Ok(s2.(pos := 3));
    Declaration(toks, s2.(pos := 5));
    assert {} + {toks[6].value} == vs;
    var s8 := PState(8, vs, fs);
    UndeclaredCallee(toks, s8.(pos := 10));
    assert Stmt(toks, s8).Fail? && Stmt(toks, s8).error == err;
    StmtListStep(toks, s2.(pos := 5), s8);
    assert StmtList(toks, s2.(pos := 5)).Fail? && StmtList(toks, s2.(pos := 5)).error == err;
    assert FDefTail(toks, s2).Fail? && FDefTail(toks, s2).error == err;
    assert FList(toks, Init).Fail? && FList(toks, Init).error == err;
    assert Program(toks, Init) == FList(toks, Init);
  }

  /** `def f ( int a ) { return ; } def g ( ) { int b ; b = f ( a ) ; }`,
      with any names f, a, g and b. */
  predicate FlatScopeProgram(toks: seq<Token>) {
    26 <= |toks|
    && toks[0].kind == DEF && toks[1].kind == ID && toks[2].kind == LPAREN && toks[3].kind == INT
    && toks[4].kind == ID && toks[5].kind == RPAREN && toks[6].kind == LBRACE && toks[7].kind == RETURN
    && toks[8].kind == SEMICOLON && toks[9].kind == RBRACE
    && toks[10].kind == DEF && toks[11].kind == ID && toks[12].kind == LPAREN && toks[13].kind == RPAREN
    && toks[14].kind == LBRACE && toks[15].kind == INT && toks[16].kind == ID && toks[17].kind == SEMICOLON
    && toks[18].kind == ID && toks[19].kind == ASSIGN && toks[20].kind == ID && toks[21].kind == LPAREN
    && toks[22].kind == ID && toks[23].kind == RPAREN && toks[24].kind == SEMICOLON && toks[25].kind == RBRACE
    && toks[18].value == toks[16].value && toks[20].value == toks[1].value && toks[22].value == toks[4].value
  }

  /** There is one flat variable table: the parameter a of f is still
      declared inside g, so the program is accepted. */
  lemma FlatScope(toks: seq<Token>)
    requires FlatScopeProgram(toks) && !At(toks, 26, DEF)
    ensures Parse(toks) == Ok(PState(26, {toks[4].value, toks[16].value}, {toks[1].value, toks[11].value}))
  {
    var a, b, f, g := toks[4].value, toks[16].value, toks[1].value, toks[11].value;
    FlatScopeFirst(toks);
    var s10 := PState(10, {a}, {f});
    FunctionNameBeforeBody(toks, s10);
    var s12 := PState(12, {a}, {f, g});
    assert PState(12, s10.vars, s10.funcs + {g}) == s12;
    assert ParList(toks, s12.(pos := 13)) == Ok(s12.(pos := 13));
    FlatScopeSecondBody(toks, s12.(pos := 15));
    assert {a} + {b} == {a, b};
    DefinitionTail(toks, s12, s12.(pos := 13), PState(25, {a, b}, {f, g}));
    var s26 := PState(26, {a, b}, {f, g});
    assert FDef(toks, s10) == Ok(s26);
    assert FListRest(toks, s26) == Ok(s26);
    assert FListRest(toks, s10) == Ok(s26);
    assert Program(toks, Init) == FList(toks, Init);
  }

  /** The first definition of FlatScope: `def f ( int a ) { return ; }`. */
  lemma FlatScopeFirst(toks: seq<Token>)
    requires FlatScopeProgram(toks)
    ensures FDef(toks, Init) == Ok(PState(10, {toks[4].value}, {toks[1].value}))
  {
    var a, f := toks[4].value, toks[1].value;
    var s2 := PState(2, {}, {f});
    FunctionNameBeforeBody(toks, Init);
    assert PState(2, Init.vars, Init.funcs + {f}) == s2;
    ParametersAreGlobal(toks, s2.(pos := 3));
    assert {} + {a} == {a};
    var s7 := PState(7, {a}, {f});
    assert Match(toks, s7, RETURN) == Ok(s7.(pos := 8));
    assert Stmt(toks, s7) == Ok(s7.(pos := 9));
    StmtListStep(toks, s7, s7.(pos := 9));
    assert StmtList(toks, s7.(pos := 9)) == Ok(s7.(pos := 9));
    DefinitionTail(toks, s2, PState(5, {a}, {f}), s7.(pos := 9));
  }

  /** The body of FlatScope's second definition: `int b ; b = f ( a ) ; }`. */
  lemma FlatScopeSecondBody(toks: seq<Token>, s: PState)
    requires FlatScopeProgram(toks)
    requires s == PState(15, {toks[4].value}, {toks[1].value, toks[11].value})
    ensures StmtList(toks, s) == Ok(PState(25, s.vars + {toks[16].value}, s.funcs))
  {
    var s18 := PState(18, s.vars + {toks[16].value}, s.funcs);
    Declaration(toks, s);
    StmtListStep(toks, s, s18);
    CallThenClose(toks, s18);
  }

  /** `x = g ( y ) ; }` as the rest of a statement list, with x and y
      declared and g in the function table. */
  lemma CallThenClose(toks: seq<Token>, s: PState)
    requires s.pos + 8 <= |toks|
    requires toks[s.pos].kind == ID && toks[s.pos].value in s.vars && toks[s.pos + 1].kind == ASSIGN
    requires toks[s.pos + 2].kind == ID && toks[s.pos + 2].value in s.funcs && toks[s.pos + 3].kind == LPAREN
    requires toks[s.pos + 4].kind == ID && toks[s.pos + 4].value in s.vars
    requires toks[s.pos + 5].kind == RPAREN && toks[s.pos + 6].kind == SEMICOLON && toks[s.pos + 7].kind == RBRACE
    ensures StmtList(toks, s) == Ok(s.(pos := s.pos + 7))
  {
    var t := s.(pos := s.pos + 7);
    assert toks[s.pos].kind in StmtStart && toks[t.pos].kind !in StmtStart;
    CallAssignment(toks, s, 1);
    StmtListStop(toks, t);
    StmtListStep(toks, s, t);
  }

  /** A function list stops at the first non-DEF token after a definition,
      and whatever follows is never looked at. */
  lemma FunctionsThenAnything(toks: seq<Token>)
    requires 6 <= |toks| && toks[0].kind == DEF && toks[1].kind == ID
    requires toks[2].kind == LPAREN && toks[3].kind == RPAREN
    requires toks[4].kind == LBRACE && toks[5].kind == RBRACE
    requires !At(toks, 6, DEF)
    ensures Parse(toks) == Ok(PState(6, {}, {toks[1].value}))
  {
    var s2 := PState(2, {}, {toks[1].value});
    FunctionNameBeforeBody(toks, Init);
    EmptyBody(toks, s2);
    assert FDef(toks, Init) == Ok(s2.(pos := 6));
    assert FListRest(toks, s2.(pos := 6)) == Ok(s2.(pos := 6));
  }

  /** `( ) { }` after a function name parses to just past the closing brace. */
  lemma EmptyBody(toks: seq<Token>, s: PState)
    requires s.pos + 4 <= |toks|
    requires toks[s.pos].kind == LPAREN && toks[s.pos + 1].kind == RPAREN
    requires toks[s.pos + 2].kind == LBRACE && toks[s.pos + 3].kind == RBRACE
    ensures FDefTail(toks, s) == Ok(s.(pos := s.pos + 4))
  {
    var s1 := Match(toks, s, LPAREN).st;
    assert s1 == s.(pos := s.pos + 1);
    assert ParList(toks, s1) == Ok(s1);
    var s3 := Match(toks, s1, RPAREN).st;
    assert s3 == s.(pos := s.pos + 2);
    var s4 := Match(toks, s3, LBRACE).st;
    assert s4 == s.(pos := s.pos + 3);
    assert StmtList(toks, s4) == Ok(s4);
    assert Match(toks, s4, RBRACE) == Ok(s.(pos := s.pos + 4));
  }
}
