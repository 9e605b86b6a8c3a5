# LSI lexer and recursive-descent recogniser, modelled in Dafny

The repository checks programs in LSI, a small C-like teaching language. A
program has function definitions, `int` variables, arithmetic and relational
expressions, `if`/`else`, `print` and `return`. The check runs in two stages:

1. `lexer(code)` in `lexer.py` scans the source text into tokens. It uses an
   ordered regular-expression alternation. It tracks line and column. It
   records lexical errors without stopping: an unknown character, and an
   arithmetic operator that directly follows another emitted one.
2. The `Parser` class in `parser.py` recognises the token list by recursive
   descent. It has a cursor and two flat, only-growing name tables, one for
   declared variables and one for declared functions. A variable or
   function used before it is declared is rejected.

The model has eight files:

| file | contents |
|---|---|
| `tokens.dfy` | the `Token` record, the closed set of token kinds, the keyword table |
| `lexing.dfy` | the scanner as pure functions: `NextLexeme` is the ordered alternation, `Step` one loop iteration, `Tokenize` the whole scan |
| `lexing_props.dfy` | the loop invariant and its preservation, the effect of each kind of lexeme, worked inputs |
| `rendering.dfy` | the round trip: the token texts joined by single spaces scan back to the same kinds and values, with no error |
| `lexer.dfy` | `Lexer.Lex`: the scanning loop as an imperative method over its five loop variables, proved equal to `Tokenize` |
| `grammar.dfy` | the recogniser as pure functions over an explicit parser state (cursor, variable table, function table); each Python `while` loop is a tail-recursive function (a `...Rest` helper, or `StmtList` itself for the statement loop); each raised exception is a `Fail` carrying the state where it was raised |
| `parser.dfy` | `Parsing.Parser`: the class with the source's mutable fields, each method proved to return the outcome, and reach the state, that the matching `Grammar` function computes |
| `grammar_props.dfy` | declared-before-use, where each table grows, the call-or-expression choice, the top-level dispatch, and worked token lists |

Python exceptions become a result value. The parser's `parse` method catches
every `Exception`. That includes the `AttributeError` raised when a method
reads `self.current_token.type` once the cursor is past the last token. The
model reports that case as the error `EndOfInput`.

Some behaviours of the code are easy to misread; the model follows the code:

- The scanner takes the first alternative that matches, not the longest
  match. `==` comes before `=`, and digits come before identifiers. So `12ab`
  is NUM 12 followed by ID `ab`.
- Parsing succeeds without consuming all tokens. After a function list, or
  after the single top-level statement, the remaining tokens are never
  examined. So `def f(int a){return;} int b; b = f(a);` is accepted.
- `main` accepts only DEF or INT as the first token, so `y = 1;` at top level
  is a syntax error.
- The `'EOF'` branch of `main` is dead, because the lexer never emits an EOF
  token.

## Model

| member | source | states |
|---|---|---|
| Tokens.ClassifyWord | lexer.py:65 | a word is never classified as a number or an arithmetic operator: it is ID or one of the keyword kinds |
| Tokens.ClassifyWordSpec | lexer.py:64-65 | a word stays ID exactly when its whole text is not a key of the keyword table; a reserved word gets the kind the table gives it |
| Lexing.DigitsFrom | lexer.py:28 | the digit run starting at i is maximal: all of it is digits, and it ends at the end of the input or at a non-digit |
| Lexing.WordFrom | lexer.py:29 | the word-character run starting at i is maximal in the same sense |
| Lexing.DigitsValue | lexer.py:62-63 | the value of a run of n digits is below 10^n; with `Decimal` (see `LexingProps.DigitsValueOfDecimal`) it is the integer the run denotes |
| Lexing.OperatorKind | lexer.py:30-41 | only a character that none of the earlier alternatives (`=`, digits, word characters) and none of the newline and blank alternatives can match is an operator or punctuation mark, and it is an arithmetic operator exactly for `+ - * /` |
| Lexing.NextLexeme | lexer.py:25-47 | the alternation always matches at least one character and never runs past the input; a NUM match is the whole digit run |
| Lexing.NextLexemeSpec | lexer.py:25-47 | the winning alternative follows from the first character(s): EQ exactly for `==`, ASSIGN exactly for a lone `=`, NUM exactly for a digit, ID exactly for a letter or `_`, NEWLINE exactly for `\n`, SKIP exactly for space or tab; an ID takes the whole word run; an operator character becomes the one-character token of its kind; MISMATCH takes exactly the unrecognised characters; newline, blank and mismatch lexemes have length 1, and so does every other lexeme except EQ, NUM and ID |
| Lexing.Step | lexer.py:57-82 | one iteration moves the scan strictly forward and stays inside the input |
| Lexing.StepAppends | lexer.py:57-82 | one iteration only appends to the token and error lists, and at most one item in all |
| Lexing.RunFrom | lexer.py:57-82 | the scan from any state runs to the end of the input; the tokens and errors it started with are prefixes of the final lists, and it adds at most one item per remaining character |
| Lexing.Tokenize | lexer.py:49-87 | the whole scan from the initial state; tokens and errors together number at most the input length |
| LexingProps.StartInv | lexer.py:50-55 | the initial loop state (line 1, column origin 0, no previous token, empty lists) satisfies the loop invariant |
| LexingProps.StepKeepsInv | lexer.py:57-82 | every loop iteration keeps the invariant: the previous token is the last emitted one; the emitted tokens are in source order, come before the scan point and never put two arithmetic operators side by side; there is at most one token or error per consumed character |
| LexingProps.AppendKeepsOrder | lexer.py:81-82 | appending a token that lies after every emitted token keeps the list in source order |
| LexingProps.AppendKeepsSeparation | lexer.py:76-82 | appending a token never puts two arithmetic operators side by side, provided it is not an arithmetic operator following one |
| LexingProps.RunKeepsInv | lexer.py:57-82 | the invariant holds at the end of the scan from any state that satisfies it |
| LexingProps.TokenizeWellFormed | lexer.py:49-87 | the scan of any input returns tokens in source order, with line at least 1, never two consecutive arithmetic operators, and at most one token or error per input character |
| LexingProps.NewlineStep | lexer.py:66-69 | a newline produces no token, adds exactly 1 to the line counter and moves the column origin, so the next lexeme is at column 0 |
| LexingProps.BlankStep | lexer.py:70-71 | a space or tab produces nothing and changes nothing but the position |
| LexingProps.MismatchStep | lexer.py:72-74 | an unrecognised character appends exactly one error carrying its line, column and character, produces no token, and scanning resumes at the next character |
| LexingProps.OperatorStep | lexer.py:81-82 | a one-character operator or punctuation mark that does not follow an arithmetic operator becomes one token of its kind and the new previous token |
| LexingProps.EqualsStep | lexer.py:26-27 | two `=` in a row are a single EQ token of length 2, never two ASSIGN tokens |
| LexingProps.AdjacentOperatorStep | lexer.py:76-79 | an arithmetic operator right after an emitted arithmetic operator is dropped and reported with both texts; the previous token stays |
| LexingProps.WordStep | lexer.py:64-65 | a letter or `_` takes the whole word run, and the token's kind is the keyword lookup of that whole text |
| LexingProps.NumberStep | lexer.py:62-63 | a digit takes the whole digit run, and the token's value is the integer the run denotes |
| LexingProps.KeywordsAreWholeWords | lexer.py:16-23 | `int`, `def` and `print` are keywords; `define`, `int2` and `Int` stay identifiers |
| LexingProps.DigitsValueOfDecimal | lexer.py:62-63 | the value read back from the decimal text of any n is n |
| LexingProps.LeadingZero | lexer.py:62-63 | a leading zero does not change the value: `007` denotes 7 |
| LexingProps.LineOf | lexer.py:66-68 | the line of a position is at least 1 |
| LexingProps.LineStartOf | lexer.py:66-67 | the start of the line holding a position is at or before it, just past a newline or at 0, with no newline between it and the position |
| LexingProps.NoNewlineKeepsLine | lexer.py:66-68 | a stretch without newlines keeps both the line and the start of the line |
| LexingProps.LexemeInterior | lexer.py:25-47 | past its first character a lexeme holds only `=` and word characters |
| LexingProps.NewlineOnlyInNewline | lexer.py:42 | only a newline lexeme holds a newline, and it is exactly that character |
| LexingProps.StepLines | lexer.py:57-69 | one iteration moves past exactly its lexeme; a newline adds 1 to the line and starts a new line there, and nothing else touches either counter |
| LexingProps.LexemeTracks | lexer.py:60-68 | a lexeme that moves the counters as a step does keeps them equal to the line and line start of the new position |
| LexingProps.StepTracks | lexer.py:57-82 | every iteration keeps `line_num` and `line_start` equal to the line and line start of the scan position |
| LexingProps.BadCharReported | lexer.py:72-73 | from any tracking state at or before an unrecognised character, the scan's final errors contain it with its own line and column |
| LexingProps.UnrecognisedCharReported | lexer.py:49-87 | every unrecognised character of any input is reported in the error list of the whole scan, with its line and column |
| Rendering.Spelling | lexer.py:59-63 | the literal text of a token the scanner can emit is never empty and holds no blank and no newline, so one space separates it from the next |
| Rendering.StepSpellable | lexer.py:57-82 | every token an iteration emits has a text and kind that agree with one of the token patterns, a word being classified by the keyword table |
| Rendering.RunSpellable | lexer.py:57-82 | every token of the whole scan is of that form |
| Rendering.SpellingLexeme | lexer.py:25-47 | the text of such a token, followed by a space or the end, is matched as one lexeme of its whole length, by the pattern its kind comes from |
| Rendering.StepOverSpelling | lexer.py:57-82 | scanning that text emits one token of the same kind and value, reports nothing, and makes it the previous token, unless it is an arithmetic operator after one |
| Rendering.HeadStep | lexer.py:57-82 | over a rendering, one token's text and its separating space are scanned to one token of the same kind and value, and the rest renders the remaining tokens |
| Rendering.ScanRendering | lexer.py:57-82 | scanning the rendering of such tokens, with no arithmetic operator after another, adds tokens of exactly the same kinds and values and no error |
| Rendering.TokenizeRoundTrip | lexer.py:49-87 | the tokens of any input, written back as their texts joined by single spaces (a NUM as its decimal digits), scan again with no error to the same kinds and values in the same order |
| LexingProps.DoubleEqualsIsEq | lexer.py:26-27 | the input `==` yields exactly one EQ token and no error |
| LexingProps.DigitsBeforeWord | lexer.py:28-29 | `12ab` yields NUM 12 at column 0, then ID `ab` at column 2 |
| LexingProps.TriplePlus | lexer.py:76-79 | `+++` yields one PLUS and two adjacency errors |
| LexingProps.SpacedPlus | lexer.py:76-79 | `+ +` is rejected too: adjacency is measured against the last emitted token, not the last character |
| LexingProps.LinesColumnsAndBadChar | lexer.py:60-74 | `x\n@y` yields `x` at line 1 column 0 and `y` at line 2 column 1, with one error for `@` at line 2 column 0 |
| Lexer.Lex | lexer.py:49-87 | the imperative loop returns exactly the tokens and errors of `Tokenize`; hence they are in source order, lines start at 1, no two arithmetic operators are adjacent, and there is at most one token or error per character |
| Lexer.Advance | lexer.py:57-82 | the loop body leaves its variables in the state that one `Step` of the scanner computes |
| Grammar.Peek | parser.py:143-146 | the lookahead is the token the cursor will be on after one advance, and it exists only when a current token does |
| Grammar.Match | parser.py:197-201 | match(k) succeeds exactly when the current token has kind k; it then advances by exactly one, and otherwise leaves the cursor unchanged and reports [k] against the token found, or end of input |
| Grammar.Expr | parser.py:165-169 | an expression never moves the cursor backwards and changes neither table; on success it consumes at least one token, and every ID it consumed is a declared variable; an error is raised at the cursor |
| Grammar.ExprRest | parser.py:167-169 | the relational loop keeps the tables; every ID it consumes is declared |
| Grammar.NumExpr | parser.py:171-175 | as Expr, for the additive level |
| Grammar.NumExprRest | parser.py:173-175 | the additive loop keeps the tables; every ID it consumes is declared |
| Grammar.Term | parser.py:177-181 | as Expr, for the multiplicative level |
| Grammar.TermRest | parser.py:179-181 | the multiplicative loop keeps the tables; every ID it consumes is declared |
| Grammar.Factor | parser.py:183-195 | a factor consumes at least one token, keeps the tables, and accepts an ID only when it is declared |
| Grammar.FCall | parser.py:121-128 | a call succeeds only when the callee is in the function table and every argument ID is declared; it keeps both tables |
| Grammar.ParListCall | parser.py:130-141 | call arguments keep the tables, and every ID consumed is declared |
| Grammar.ArgsRest | parser.py:135-139 | the argument loop keeps the tables, and every ID consumed is declared |
| Grammar.AtribStmt | parser.py:109-119 | on success the assignment target is in the variable table; the tables only grow and the cursor only moves forward |
| Grammar.PrintStmt | parser.py:148-150 | print consumes at least one token and keeps both tables |
| Grammar.ReturnStmt | parser.py:152-153 | return consumes exactly the RETURN token and keeps both tables |
| Grammar.StmtList | parser.py:69-71 | a successful statement list stops at the end of the input or at a token that cannot start a statement |
| Grammar.Stmt | parser.py:73-107 | a successful statement consumes at least one token; the tables only grow; every error is reported at the cursor where it was raised |
| Grammar.DeclRest | parser.py:79-86 | the rest of a declaration consumes at least one token on success; an error is raised at the cursor |
| Grammar.IfStmt | parser.py:155-163 | an if statement consumes at least one token on success; the tables only grow |
| Grammar.ParList | parser.py:54-67 | a parameter list leaves the function table unchanged; the variable table only grows; on success every parameter name it consumed is in the variable table |
| Grammar.ParamsRest | parser.py:60-65 | the parameter loop leaves the function table unchanged; the variable table only grows; on success every parameter name it consumed is in the variable table |
| Grammar.FDef | parser.py:42-52 | a successful definition has its name in the function table afterwards and consumes at least one token |
| Grammar.FDefTail | parser.py:47-52 | the part after the name consumes at least one token on success; the tables only grow |
| Grammar.FList | parser.py:37-40 | a successful function list stops at a token that is not DEF |
| Grammar.FListRest | parser.py:39-40 | the definition loop stops at a token that is not DEF |
| Grammar.Program | parser.py:27-35 | the tables only grow, and every error is reported at the cursor where it was raised |
| Grammar.Parse | parser.py:20-25 | a parse from the initial state only grows the tables; an empty token list is never accepted (the source's constructor already fails on it) |
| Parsing.Parser.constructor | parser.py:6-11 | a new parser holds the tokens, has its cursor on the first token and has both tables empty; it needs a non-empty token list |
| Parsing.Parser.Advance | parser.py:13-18 | advance moves the cursor by exactly one, keeps the current token in step with the cursor, and changes neither table |
| Parsing.Parser.Lookahead | parser.py:143-146 | lookahead returns the token after the current one, or none at the end, and changes nothing |
| Parsing.Parser.Match | parser.py:197-201 | match reaches the state and outcome of `Grammar.Match`; it succeeds exactly when the current token has kind k, and it moves the cursor by one on success and not at all otherwise |
| Parsing.Parser.Parse | parser.py:20-25 | parse reports the outcome of `Grammar.Program` from the parser's state |
| Parsing.Parser.Program | parser.py:27-35 | the object reaches the state and outcome of `Grammar.Program` |
| Parsing.Parser.FList | parser.py:37-40 | the object reaches the state and outcome of `Grammar.FList` |
| Parsing.Parser.FDef | parser.py:42-52 | the object reaches the state and outcome of `Grammar.FDef` |
| Parsing.Parser.ParList | parser.py:54-67 | the object reaches the state and outcome of `Grammar.ParList` |
| Parsing.Parser.StmtList | parser.py:69-71 | the object reaches the state and outcome of `Grammar.StmtList` |
| Parsing.Parser.Stmt | parser.py:73-107 | the object reaches the state and outcome of `Grammar.Stmt` |
| Parsing.Parser.DeclRest | parser.py:79-86 | the object reaches the state and outcome of `Grammar.DeclRest` |
| Parsing.Parser.AtribStmt | parser.py:109-119 | the object reaches the state and outcome of `Grammar.AtribStmt` |
| Parsing.Parser.FCall | parser.py:121-128 | the object reaches the state and outcome of `Grammar.FCall` |
| Parsing.Parser.ParListCall | parser.py:130-141 | the object reaches the state and outcome of `Grammar.ParListCall` |
| Parsing.Parser.PrintStmt | parser.py:148-150 | the object reaches the state and outcome of `Grammar.PrintStmt` |
| Parsing.Parser.ReturnStmt | parser.py:152-153 | the object reaches the state and outcome of `Grammar.ReturnStmt` |
| Parsing.Parser.IfStmt | parser.py:155-163 | the object reaches the state and outcome of `Grammar.IfStmt` |
| Parsing.Parser.Expr | parser.py:165-169 | the object reaches the state and outcome of `Grammar.Expr` |
| Parsing.Parser.NumExpr | parser.py:171-175 | the object reaches the state and outcome of `Grammar.NumExpr` |
| Parsing.Parser.Term | parser.py:177-181 | the object reaches the state and outcome of `Grammar.Term` |
| Parsing.Parser.Factor | parser.py:183-195 | the object reaches the state and outcome of `Grammar.Factor` |
| GrammarProps.UndeclaredAssignmentTarget | parser.py:87-89 | a statement starting with an undeclared ID fails at once with an undeclared-variable error naming it |
| GrammarProps.UndeclaredFactor | parser.py:190-192 | an undeclared ID as a factor fails at once with an undeclared-variable error naming it |
| GrammarProps.UndeclaredArgument | parser.py:131-133 | an undeclared ID as the first call argument fails at once, naming it |
| GrammarProps.UndeclaredLaterArgument | parser.py:136-138 | after a comma in a call, any token whose value is not a declared variable gives an undeclared-variable error, whatever its kind |
| GrammarProps.UndeclaredCallee | parser.py:122-124 | a call to a name not in the function table fails at once with an undeclared-function error naming it |
| GrammarProps.SingleOperand | parser.py:165-195 | a declared ID or a number, followed by a token that cannot continue an expression, is a whole expression |
| GrammarProps.SelfInitialisation | parser.py:74-86 | `int x = x;` is accepted, because the name is inserted before the initializer is parsed |
| GrammarProps.FunctionNameBeforeBody | parser.py:42-47 | the function name enters the function table right after its header ID, before the parameters and the body are parsed |
| GrammarProps.ParametersAreGlobal | parser.py:54-59 | a parameter goes into the one global variable table |
| GrammarProps.CallOrExpression | parser.py:109-119 | the right-hand side of `ID =` is a call exactly when it starts with ID LPAREN, and an expression otherwise; either way the target is declared afterwards |
| GrammarProps.TopLevelDispatch | parser.py:27-35 | first token DEF parses a function list, INT exactly one statement, anything else is a syntax error naming that token |
| GrammarProps.StatementThenAnything | parser.py:30-31 | after the single top-level statement `int x ;` the rest of the input is never examined |
| GrammarProps.TopLevelAssignment | parser.py:34-35 | `y = 1 ;` at top level is a syntax error at its first token |
| GrammarProps.Declaration | parser.py:74-80 | `int x ;` consumes three tokens and adds exactly x to the variable table |
| GrammarProps.CallAssignment | parser.py:87-91 | `x = g ( ) ;` or `x = g ( y ) ;`, with x and y declared and g in the function table, is one statement |
| GrammarProps.CallArguments | parser.py:130-141 | zero or one declared argument before `)` parse as an argument list |
| GrammarProps.DefinitionTail | parser.py:47-52 | `( params ) { body }` parses to just past the closing brace when its parts do |
| GrammarProps.SelfCall | parser.py:42-52 | `def f ( ) { int x ; x = f ( ) ; }` is accepted: a function may call itself |
| GrammarProps.SelfCallBody | parser.py:69-91 | the body of that self-calling function parses to its closing brace |
| GrammarProps.NoForwardCall | parser.py:121-124 | a call to a function defined only later fails with an undeclared-function error naming it, whatever follows |
| GrammarProps.FlatScope | parser.py:54-65 | a parameter of one function is still declared inside a later function, so `def f(int a){return;} def g(){int b; b = f(a);}` is accepted |
| GrammarProps.FlatScopeFirst | parser.py:42-67 | the first definition of that program leaves a in the variable table and f in the function table |
| GrammarProps.FlatScopeSecondBody | parser.py:69-91 | the body of the second definition parses to its closing brace |
| GrammarProps.CallThenClose | parser.py:69-91 | `x = g ( y ) ; }` ends a statement list just before the brace |
| GrammarProps.FunctionsThenAnything | parser.py:37-40 | after a function list, whatever follows a non-DEF token is never examined |
| GrammarProps.EmptyBody | parser.py:47-52 | `( ) { }` after a function name parses to just past the closing brace |

## Left out

- The command-line entry points `main` (lexer.py:90-108, parser.py:204-223), file reading and all printing (lexer.py:84-86, parser.py:23-25). `lexer` prints its errors and returns only the tokens; the model returns the error list beside the tokens instead, and `Parser.Parse` returns the outcome instead of printing a verdict.
- The Portuguese error texts. Errors are tagged values carrying the kind, the name, the line and the column.
- lsi_lexer.py is not part of this model. It is a declarative subclass of an external scanner library whose priority rules are not shown, and the parser does not use it.
- Python's Unicode meaning of `\d` and `\w`. The model uses the ASCII classes `0-9` and `A-Za-z0-9_`, so a non-ASCII letter or digit is a mismatch in the model.
- Parsing.Parser.Advance: requires the cursor to be on a token, as its only caller `match` guarantees; the source would also run past the end.
- Parsing.Parser.constructor: requires a non-empty token list. The source raises an uncaught IndexError there, outside `parse`'s handler.
- Grammar.Parse: which token lists are accepted is stated only for fixed shapes (`GrammarProps.SingleOperand`, `Declaration`, `CallAssignment`, `SelfCall`, `FlatScope` and the others), not as a grammar the recogniser is proved to accept exactly. The accepted language also has code-specific rules that a plain grammar would miss: `main` (parser.py:27-35) takes one statement only when it starts with INT, so `print 1 ;` is a syntax error; the input is never checked to be used up; and an empty token list fails in the constructor. An exact characterisation would need an inductive description of these code-specific rules, and proofs over the mutually recursive expression functions that were too costly to check.
- Grammar.Factor, Grammar.Stmt: Python's recursion limit is not modelled. With the default limit of 1000 frames, about 330 nested `(` exhaust it (three frames per level: factor, numexpr, term), and about 500 nested `{` or `if` (two frames per level: stmt with stmtlist or ifstmt). The RecursionError is caught as an Exception at parser.py:24, so the source reports a syntax error there. The model accepts any depth.
- Lexing.DigitsValue, Lexing.Step: Python 3.11 and later refuse `int()` of a run longer than 4300 digits (a ValueError at lexer.py:63 that escapes `lexer`). The model returns a NUM token of the exact value for any length.
