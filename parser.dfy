/** The Parser class of parser.py:5-201: a cursor over a token list that is
    fixed at construction, the current token, and two flat name tables that
    only grow. Every method updates the object in place as the source does
    and returns the first error instead of raising it; each is proved to
    leave the object in, and return the outcome of, the state the matching
    `Grammar` function computes. */
module Parsing {
  import opened Tokens
  import G = Grammar

  class Parser {
    const tokens: seq<Token>
    var index: nat                // current_token_index
    var current: Option<Token>    // current_token (None past the end)
    var symbols: set<Value>       // symbol_table: declared variables
    var functions: set<Value>     // function_table: declared functions

    ghost predicate Valid()
      reads this
    {
      index <= |tokens| && current == G.Cur(tokens, index)
    }

    function State(): G.PState
      reads this
    {
      G.PState(index, symbols, functions)
    }

    /** The object is in the state `r` reached and `o` is its outcome. */
    ghost predicate Reflects(o: G.Outcome, r: G.Res)
      reads this
    {
      o == r.Out() && State() == r.st
    }

    /** __init__ (parser.py:6-11): it reads tokens[0], so the list may not be empty. */
    constructor (tokens: seq<Token>)
      requires |tokens| > 0
      ensures Valid() && this.tokens == tokens && State() == G.Init
    {
      this.tokens := tokens;
      index := 0;
      current := Some(tokens[0]);
      symbols := {};
      functions := {};
    }

    /** advance (parser.py:13-18); its only caller, match, calls it on a token. */
    method Advance()
      requires Valid() && index < |tokens|
      modifies this
      ensures Valid() && index == old(index) + 1
      ensures symbols == old(symbols) && functions == old(functions)
    {
      index := index + 1;
      if index < |tokens| {
        current := Some(tokens[index]);
      } else {
        current := None;
      }
    }

    /** lookahead (parser.py:143-146): reads only, moves nothing. */
    method Lookahead() returns (t: Option<Token>)
      ensures t == G.Peek(tokens, index)
      ensures t.Some? <==> index + 1 < |tokens|
      ensures t.Some? ==> t.value == tokens[index + 1]
    {
      if index + 1 < |tokens| {
        return Some(tokens[index + 1]);
      }
      return None;
    }

    /** match (parser.py:197-201): advance exactly one token when the current
        one has kind `k`; otherwise fail and leave the cursor where it is. */
    method Match(k: Kind) returns (o: G.Outcome)
      requires Valid()
      modifies this
      ensures Valid() && Reflects(o, G.Match(tokens, old(State()), k))
      ensures o.Success? <==> old(current).Some? && old(current).value.kind == k
      ensures index == if o.Success? then old(index) + 1 else old(index)
      ensures symbols == old(symbols) && functions == old(functions)
    {
      if current.Some? && current.value.kind == k {
        Advance();
        o := G.Success;
      } else if current.Some? {
        o := G.Failure(G.SyntaxError([k], current.value.kind, current.value.line, current.value.column));
      } else {
        o := G.Failure(G.EndOfInput);
      }
    }

    /** parse (parser.py:20-25): run main and report its outcome. */
    method Parse() returns (o: G.Outcome)
      requires Valid()
      modifies this
      ensures Valid() && Reflects(o, G.Program(tokens, old(State())))
    {
      o := Program();
    }

    /** main (parser.py:27-35) */
    method Program() returns (o: G.Outcome)
      requires Valid()
      modifies this
      ensures Valid() && Reflects(o, G.Program(tokens, old(State())))
    {
      if current.None? {
        return G.Failure(G.EndOfInput);
      }
      var t := current.value;
      if t.kind == DEF {
        o := FList();
      } else if t.kind == INT {
        o := Stmt();
      } else {
        o := G.Failure(G.SyntaxError([], t.kind, t.line, t.column));
      }
    }

    /** flist (parser.py:37-40) */
    method FList() returns (o: G.Outcome)
      requires Valid()
      modifies this
      ensures Valid() && Reflects(o, G.FList(tokens, old(State())))
    {
      o := FDef();
      if o.Failure? {
        return;
      }
      while current.Some? && current.value.kind == DEF
        invariant Valid() && o == G.Success
        invariant G.FListRest(tokens, State()) == G.FList(tokens, old(State()))
        decreases |tokens| - index
      {
        o := FDef();
        if o.Failure? {
          return;
        }
      }
    }

    /** fdef (parser.py:42-52) */
    method FDef() returns (o: G.Outcome)
      requires Valid()
      modifies this
      ensures Valid() && Reflects(o, G.FDef(tokens, old(State())))
    {
      o := Match(DEF);
      if o.Failure? {
        return;
      }
      if current.None? {
        return G.Failure(G.EndOfInput);
      }
      var name := current.value.value;
      o := Match(ID);
      if o.Failure? {
        return;
      }
      functions := functions + {name};
      // from here on the method computes the tail of the definition
      assert G.FDef(tokens, old(State())) == G.FDefTail(tokens, State());
      o := Match(LPAREN);
      if o.Failure? {
        return;
      }
      o := ParList();
      if o.Failure? {
        return;
      }
      o := Match(RPAREN);
      if o.Failure? {
        return;
      }
      o := Match(LBRACE);
      if o.Failure? {
        return;
      }
      o := StmtList();
      if o.Failure? {
        return;
      }
      o := Match(RBRACE);
    }

    /** parlist (parser.py:54-67) */
    method ParList() returns (o: G.Outcome)
      requires Valid()
      modifies this
      ensures Valid() && Reflects(o, G.ParList(tokens, old(State())))
    {
      if current.None? {
        return G.Failure(G.EndOfInput);
      }
      o := G.Success;
      if current.value.kind == INT {
        o := Match(INT);
        var idToken := current;
        o := Match(ID);
        if o.Failure? {
          return;
        }
        symbols := symbols + {idToken.value.value};
        while current.Some? && current.value.kind == COMMA
          invariant Valid() && o == G.Success
          invariant G.ParamsRest(tokens, State()) == G.ParList(tokens, old(State()))
          decreases |tokens| - index
        {
          o := Match(COMMA);
          o := Match(INT);
          if o.Failure? {
            return;
          }
          idToken := current;
          o := Match(ID);
          if o.Failure? {
            return;
          }
          symbols := symbols + {idToken.value.value};
        }
      }
    }

    /** stmtlist (parser.py:69-71) */
    method StmtList() returns (o: G.Outcome)
      requires Valid()
      modifies this
      ensures Valid() && Reflects(o, G.StmtList(tokens, old(State())))
      decreases |tokens| - index, 2
    {
      o := G.Success;
      while current.Some? && current.value.kind in G.StmtStart
        invariant Valid() && o == G.Success && old(index) <= index
        invariant G.StmtList(tokens, State()) == G.StmtList(tokens, old(State()))
        decreases |tokens| - index
      {
        o := Stmt();
        if o.Failure? {
          return;
        }
      }
    }

    /** stmt (parser.py:73-107) */
    method Stmt() returns (o: G.Outcome)
      requires Valid()
      modifies this
      ensures Valid() && Reflects(o, G.Stmt(tokens, old(State())))
      decreases |tokens| - index, 1
    {
      if current.None? {
        return G.Failure(G.EndOfInput);
      }
      var t := current.value;
      match t.kind {
        case INT =>
          o := Match(INT);
          var idToken := current;
          o := Match(ID);
          if o.Failure? {
            return;
          }
          symbols := symbols + {idToken.value.value};
          o := DeclRest();
        case ID =>
          if t.value !in symbols {
            return G.Failure(G.UndeclaredVar(t.value, t.line, t.column));
          }
          o := AtribStmt();
          if o.Failure? {
            return;
          }
          o := Match(SEMICOLON);
        case PRINT =>
          o := PrintStmt();
          if o.Failure? {
            return;
          }
          o := Match(SEMICOLON);
        case RETURN =>
          o := ReturnStmt();
          if o.Failure? {
            return;
          }
          o := Match(SEMICOLON);
        case IF =>
          o := IfStmt();
        case LBRACE =>
          o := Match(LBRACE);
          o := StmtList();
          if o.Failure? {
            return;
          }
          o := Match(RBRACE);
        case SEMICOLON =>
          o := Match(SEMICOLON);
        case _ =>
          o := G.Failure(G.SyntaxError([], t.kind, t.line, t.column));
      }
    }

    /** The INT branch of stmt after the name is inserted (parser.py:79-86):
        `;`, or `=` Expr `;`, or an error naming both. */
    method DeclRest() returns (o: G.Outcome)
      requires Valid()
      modifies this
      ensures Valid() && Reflects(o, G.DeclRest(tokens, old(State())))
    {
      if current.None? {
        return G.Failure(G.EndOfInput);
      }
      if current.value.kind == SEMICOLON {
        o := Match(SEMICOLON);
      } else if current.value.kind == ASSIGN {
        o := Match(ASSIGN);
        o := Expr();
        if o.Failure? {
          return;
        }
        o := Match(SEMICOLON);
      } else {
        o := G.Failure(G.SyntaxError([SEMICOLON, ASSIGN], current.value.kind, current.value.line, current.value.column));
      }
    }

    /** atribstmt (parser.py:109-119) */
    method AtribStmt() returns (o: G.Outcome)
      requires Valid()
      modifies this
      ensures Valid() && Reflects(o, G.AtribStmt(tokens, old(State())))
    {
      var idToken := current;
      o := Match(ID);
      if o.Failure? {
        return;
      }
      o := Match(ASSIGN);
      if o.Failure? {
        return;
      }
      if current.None? {
        return G.Failure(G.EndOfInput);
      }
      var isCall := false;
      if current.value.kind == ID {
        var next := Lookahead();
        isCall := next.Some? && next.value.kind == LPAREN;
      }
      if isCall {
        o := FCall();
      } else {
        o := Expr();
      }
      if o.Failure? {
        return;
      }
      if idToken.value.value !in symbols {
        symbols := symbols + {idToken.value.value};
      }
    }

    /** fcall (parser.py:121-128) */
    method FCall() returns (o: G.Outcome)
      requires Valid()
      modifies this
      ensures Valid() && Reflects(o, G.FCall(tokens, old(State())))
    {
      if current.None? {
        return G.Failure(G.EndOfInput);
      }
      var callee := current.value;
      if callee.value !in functions {
        return G.Failure(G.UndeclaredFunc(callee.value, callee.line, callee.column));
      }
      o := Match(ID);
      if o.Failure? {
        return;
      }
      o := Match(LPAREN);
      if o.Failure? {
        return;
      }
      o := ParListCall();
      if o.Failure? {
        return;
      }
      o := Match(RPAREN);
    }

    /** parlistcall (parser.py:130-141) */
    method ParListCall() returns (o: G.Outcome)
      requires Valid()
      modifies this
      ensures Valid() && Reflects(o, G.ParListCall(tokens, old(State())))
    {
      if current.None? {
        return G.Failure(G.EndOfInput);
      }
      o := G.Success;
      if current.value.kind == ID {
        var arg := current.value;
        if arg.value !in symbols {
          return G.Failure(G.UndeclaredVar(arg.value, arg.line, arg.column));
        }
        o := Match(ID);
        while current.Some? && current.value.kind == COMMA
          invariant Valid() && o == G.Success
          invariant G.ArgsRest(tokens, State()) == G.ParListCall(tokens, old(State()))
          decreases |tokens| - index
        {
          o := Match(COMMA);
          if current.None? {
            return G.Failure(G.EndOfInput);
          }
          arg := current.value;
          if arg.value !in symbols {
            return G.Failure(G.UndeclaredVar(arg.value, arg.line, arg.column));
          }
          o := Match(ID);
          if o.Failure? {
            return;
          }
        }
      }
    }

    /** printstmt (parser.py:148-150) */
    method PrintStmt() returns (o: G.Outcome)
      requires Valid()
      modifies this
      ensures Valid() && Reflects(o, G.PrintStmt(tokens, old(State())))
    {
      o := Match(PRINT);
      if o.Failure? {
        return;
      }
      o := Expr();
    }

    /** returnstmt (parser.py:152-153) */
    method ReturnStmt() returns (o: G.Outcome)
      requires Valid()
      modifies this
      ensures Valid() && Reflects(o, G.ReturnStmt(tokens, old(State())))
    {
      o := Match(RETURN);
    }

    /** ifstmt (parser.py:155-163) */
    method IfStmt() returns (o: G.Outcome)
      requires Valid()
      modifies this
      ensures Valid() && Reflects(o, G.IfStmt(tokens, old(State())))
      decreases |tokens| - index, 0
    {
      o := Match(IF);
      if o.Failure? {
        return;
      }
      o := Match(LPAREN);
      if o.Failure? {
        return;
      }
      o := Expr();
      if o.Failure? {
        return;
      }
      o := Match(RPAREN);
      if o.Failure? {
        return;
      }
      o := Stmt();
      if o.Failure? {
        return;
      }
      if current.Some? && current.value.kind == ELSE {
        o := Match(ELSE);
        o := Stmt();
      }
    }

    /** expr (parser.py:165-169) */
    method Expr() returns (o: G.Outcome)
      requires Valid()
      modifies this
      ensures Valid() && Reflects(o, G.Expr(tokens, old(State())))
    {
      o := NumExpr();
      if o.Failure? {
        return;
      }
      while current.Some? && current.value.kind in {LT, GT, EQ}
        invariant Valid() && o == G.Success
        invariant G.ExprRest(tokens, State()) == G.Expr(tokens, old(State()))
        decreases |tokens| - index
      {
        o := Match(current.value.kind);
        o := NumExpr();
        if o.Failure? {
          return;
        }
      }
    }

    /** numexpr (parser.py:171-175) */
    method NumExpr() returns (o: G.Outcome)
      requires Valid()
      modifies this
      ensures Valid() && Reflects(o, G.NumExpr(tokens, old(State())))
      decreases |tokens| - index, 3
    {
      o := Term();
      if o.Failure? {
        return;
      }
      while current.Some? && current.value.kind in {PLUS, MINUS}
        invariant Valid() && o == G.Success && old(index) <= index
        invariant G.NumExprRest(tokens, State()) == G.NumExpr(tokens, old(State()))
        decreases |tokens| - index
      {
        o := Match(current.value.kind);
        o := Term();
        if o.Failure? {
          return;
        }
      }
    }

    /** term (parser.py:177-181) */
    method Term() returns (o: G.Outcome)
      requires Valid()
      modifies this
      ensures Valid() && Reflects(o, G.Term(tokens, old(State())))
      decreases |tokens| - index, 2
    {
      o := Factor();
      if o.Failure? {
        return;
      }
      while current.Some? && current.value.kind in {TIMES, DIVIDE}
        invariant Valid() && o == G.Success && old(index) <= index
        invariant G.TermRest(tokens, State()) == G.Term(tokens, old(State()))
        decreases |tokens| - index
      {
        o := Match(current.value.kind);
        o := Factor();
        if o.Failure? {
          return;
        }
      }
    }

    /** factor (parser.py:183-195) */
    method Factor() returns (o: G.Outcome)
      requires Valid()
      modifies this
      ensures Valid() && Reflects(o, G.Factor(tokens, old(State())))
      decreases |tokens| - index, 1
    {
      if current.None? {
        return G.Failure(G.EndOfInput);
      }
      var t := current.value;
      if t.kind == NUM {
        o := Match(NUM);
      } else if t.kind == LPAREN {
        o := Match(LPAREN);
        o := NumExpr();
        if o.Failure? {
          return;
        }
        o := Match(RPAREN);
      } else if t.kind == ID {
        if t.value !in symbols {
          return G.Failure(G.UndeclaredVar(t.value, t.line, t.column));
        }
        o := Match(ID);
      } else {
        o := G.Failure(G.SyntaxError([], t.kind, t.line, t.column));
      }
    }
  }
}
