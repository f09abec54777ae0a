/** The grammar of src/frontend/lib/Parser.cpp as a reference definition: one
    pure function per grammar rule, reading a token sequence from an index.
    The Parser class (module Parsing) is proved to compute exactly these
    functions; the lemmas below state what the grammar promises. exit(1) on a
    syntax error becomes a Fail value carrying the diagnostic. */
module Grammar {
  import opened Wrappers
  import opened Tokens
  import opened Ast

  /** A fatal syntax error: the line reported, when the diagnostic has one, and
      the message. */
  datatype ParseError = ParseError(line: Option<nat>, message: string)

  /** The outcome of one grammar rule: the node and the index of the first
      token it did not consume, or the error that stopped the parse. */
  datatype Parsed<+T> = Ok(value: T, next: nat) | Fail(error: ParseError)

  const ExpectedTopLevelDecl := "Expected a top-level declaration (like 'fn')."
  const ExpectedFunctionName := "Expected function name."
  const ExpectedLParen := "Expected '(' after function name."
  const ExpectedRParen := "Expected ')' after parameters."
  const ExpectedArrow := "Expected '->' for return type."
  const ExpectedVoid := "Expected 'void' as return type for now."
  const ExpectedLBrace := "Expected '{' before function body."
  const ExpectedRBrace := "Expected '}' after function body."
  const ExpectedVariableName := "Expected variable name."
  const ExpectedEqual := "Expected '=' after variable name."
  const ExpectedSemicolonAfterVar := "Expected ';' after variable declaration."
  const ExpectedSemicolonAfterExpr := "Expected ';' after expression."
  const ExpectedRParenAfterArgs := "Expected ')' after arguments."
  const ExpectedExpression := "Expected an expression."

  /** A token stream as the lexer delivers it: at least one token, the last eof. */
  predicate IsStream(toks: seq<Token>)
  {
    |toks| > 0 && toks[|toks| - 1].kind == Eof
  }

  /** The token at index i; past the end the lexer keeps answering its eof. */
  function TokAt(toks: seq<Token>, i: nat): (t: Token)
    requires |toks| > 0
  {
    if i < |toks| then toks[i] else toks[|toks| - 1]
  }

  /** The token before index i; before the first one, a default token. */
  function PrevAt(toks: seq<Token>, i: nat): Token
    requires |toks| > 0
  {
    if i == 0 then DefaultToken else TokAt(toks, i - 1)
  }

  /** The error consume reports: the line of the last consumed token. */
  function SyntaxError(toks: seq<Token>, i: nat, message: string): ParseError
    requires |toks| > 0
  {
    ParseError(Some(PrevAt(toks, i).line), message)
  }

  // ---------------------------------------------------------------------------
  // The grammar rules.

  /** expression := primary */
  function ExprAt(toks: seq<Token>, i: nat): (r: Parsed<Expr>)
    requires IsStream(toks)
    ensures r.Ok? ==> i < r.next < |toks|
    decreases |toks| - i, 1
  {
    PrimaryAt(toks, i)
  }

  /** primary := string_literal | identifier ( '(' argList ')' )? */
  function PrimaryAt(toks: seq<Token>, i: nat): (r: Parsed<Expr>)
    requires IsStream(toks)
    ensures r.Ok? ==> i < r.next < |toks|
    decreases |toks| - i, 0
  {
    var t := TokAt(toks, i);
    if t.kind == StringLiteral then Ok(StringLiteralExpr(t), i + 1)
    else if t.kind == Identifier then
      if TokAt(toks, i + 1).kind == LParen then
        match ArgsAt(toks, i + 2)
        case Fail(e) => Fail(e)
        case Ok(args, j) =>
          if TokAt(toks, j).kind == RParen then Ok(CallExpr(t, args), j + 1)
          else Fail(SyntaxError(toks, j, ExpectedRParenAfterArgs))
      else Ok(VariableExpr(t), i + 1)
    else Fail(ParseError(None, ExpectedExpression))
  }

  /** argList := expression?   (inside a call's parentheses) */
  function ArgsAt(toks: seq<Token>, i: nat): (r: Parsed<seq<Expr>>)
    requires IsStream(toks)
    ensures r.Ok? ==> i <= r.next
    ensures r.Ok? && i < |toks| ==> r.next < |toks|
    decreases |toks| - i, 2
  {
    if TokAt(toks, i).kind != RParen then
      match ExprAt(toks, i)
      case Ok(arg, j) => Ok([arg], j)
      case Fail(e) => Fail(e)
    else Ok([], i)
  }

  /** varDeclStmt := identifier '=' expression ';'   (after 'let') */
  function VarDeclStmtAt(toks: seq<Token>, i: nat): (r: Parsed<Stmt>)
    requires IsStream(toks)
    ensures r.Ok? ==> i < r.next < |toks|
  {
    var name := TokAt(toks, i);
    if name.kind != Identifier then Fail(SyntaxError(toks, i, ExpectedVariableName))
    else if TokAt(toks, i + 1).kind != Equal then Fail(SyntaxError(toks, i + 1, ExpectedEqual))
    else match ExprAt(toks, i + 2)
      case Fail(e) => Fail(e)
      case Ok(init, j) =>
        if TokAt(toks, j).kind == Semicolon then Ok(DeclStmt(VarDecl(name, init)), j + 1)
        else Fail(SyntaxError(toks, j, ExpectedSemicolonAfterVar))
  }

  /** exprStmt := expression ';' */
  function ExprStmtAt(toks: seq<Token>, i: nat): (r: Parsed<Stmt>)
    requires IsStream(toks)
    ensures r.Ok? ==> i < r.next < |toks|
  {
    match ExprAt(toks, i)
    case Fail(e) => Fail(e)
    case Ok(expr, j) =>
      if TokAt(toks, j).kind == Semicolon then Ok(ExprStmt(expr), j + 1)
      else Fail(SyntaxError(toks, j, ExpectedSemicolonAfterExpr))
  }

  /** statement := 'let' varDeclStmt | exprStmt */
  function StatementAt(toks: seq<Token>, i: nat): (r: Parsed<Stmt>)
    requires IsStream(toks)
    ensures r.Ok? ==> i < r.next < |toks|
  {
    if TokAt(toks, i).kind == KwLet then VarDeclStmtAt(toks, i + 1) else ExprStmtAt(toks, i)
  }

  /** statement*, up to a '}' or the end of input. */
  function BodyAt(toks: seq<Token>, i: nat): (r: Parsed<seq<Stmt>>)
    requires IsStream(toks)
    ensures r.Ok? ==> i <= r.next
    ensures r.Ok? && i < |toks| ==> r.next < |toks|
    ensures r.Ok? ==> TokAt(toks, r.next).kind in {RBrace, Eof}
    decreases |toks| - i
  {
    var t := TokAt(toks, i);
    if t.kind == RBrace || t.kind == Eof then Ok([], i)
    else match StatementAt(toks, i)
      case Fail(e) => Fail(e)
      case Ok(s, j) =>
        match BodyAt(toks, j)
        case Fail(e) => Fail(e)
        case Ok(ss, k) => Ok([s] + ss, k)
  }

  /** The signature part of functionDef, identifier '(' ')' '->' 'void' '{';
      its value is the name token. */
  function SignatureAt(toks: seq<Token>, i: nat): (r: Parsed<Token>)
    requires IsStream(toks)
    ensures r.Ok? ==> r.next == i + 6 < |toks|
  {
    var name := TokAt(toks, i);
    if name.kind != Identifier then Fail(SyntaxError(toks, i, ExpectedFunctionName))
    else if TokAt(toks, i + 1).kind != LParen then Fail(SyntaxError(toks, i + 1, ExpectedLParen))
    else if TokAt(toks, i + 2).kind != RParen then Fail(SyntaxError(toks, i + 2, ExpectedRParen))
    else match SignatureTailAt(toks, i + 3)
      case Fail(e) => Fail(e)
      case Ok(_, k) => Ok(name, k)
  }

  /** The rest of a signature after the empty parameter list: '->' 'void' '{'. */
  function SignatureTailAt(toks: seq<Token>, i: nat): (r: Parsed<()>)
    requires IsStream(toks)
    ensures r.Ok? ==> r.next == i + 3 < |toks|
  {
    if TokAt(toks, i).kind != Arrow then Fail(SyntaxError(toks, i, ExpectedArrow))
    else if TokAt(toks, i + 1).kind != KwVoid then Fail(SyntaxError(toks, i + 1, ExpectedVoid))
    else if TokAt(toks, i + 2).kind != LBrace then Fail(SyntaxError(toks, i + 2, ExpectedLBrace))
    else Ok((), i + 3)
  }

  /** functionDef := identifier '(' ')' '->' 'void' '{' statement* '}'   (after 'fn') */
  function FunctionDefinitionAt(toks: seq<Token>, i: nat): (r: Parsed<Decl>)
    requires IsStream(toks)
    ensures r.Ok? ==> i < r.next < |toks|
  {
    match SignatureAt(toks, i)
    case Fail(e) => Fail(e)
    case Ok(name, k) =>
      match BodyAt(toks, k)
      case Fail(e) => Fail(e)
      case Ok(body, j) =>
        if TokAt(toks, j).kind == RBrace then Ok(FunctionDecl(name, body), j + 1)
        else Fail(SyntaxError(toks, j, ExpectedRBrace))
  }

  /** topLevelDecl := 'fn' functionDef */
  function TopLevelDeclAt(toks: seq<Token>, i: nat): (r: Parsed<Decl>)
    requires IsStream(toks)
    ensures r.Ok? ==> i < r.next < |toks|
  {
    if TokAt(toks, i).kind == KwFn then FunctionDefinitionAt(toks, i + 1)
    else Fail(ParseError(None, ExpectedTopLevelDecl))
  }

  /** program := topLevelDecl*, up to eof. */
  function ProgramAt(toks: seq<Token>, i: nat): (r: Parsed<seq<Decl>>)
    requires IsStream(toks)
    ensures r.Ok? ==> i <= r.next && TokAt(toks, r.next).kind == Eof
    decreases |toks| - i
  {
    if TokAt(toks, i).kind == Eof then Ok([], i)
    else match TopLevelDeclAt(toks, i)
      case Fail(e) => Fail(e)
      case Ok(d, j) =>
        match ProgramAt(toks, j)
        case Fail(e) => Fail(e)
        case Ok(ds, k) => Ok([d] + ds, k)
  }

  /** What Parser::parse returns: the empty program on an empty stream, only
      function declarations on success, and the top-level error when the
      first token is neither 'fn' nor eof. */
  function Parse(toks: seq<Token>): (r: Result<seq<Decl>, ParseError>)
    requires IsStream(toks)
    ensures TokAt(toks, 0).kind == Eof ==> r == Success([])
    ensures TokAt(toks, 0).kind !in {Eof, KwFn} ==> r == Failure(ParseError(None, ExpectedTopLevelDecl))
    ensures r.Success? ==> forall d <- r.value :: d.FunctionDecl?
  {
    ProgramIsFunctions(toks, 0);
    match ProgramAt(toks, 0)
    case Ok(ds, _) => Success(ds)
    case Fail(e) => Failure(e)
  }

  // ---------------------------------------------------------------------------
  // What the grammar promises.

  /** Calls carry at most one argument, at every depth. */
  predicate AtMostOneArg(e: Expr)
  {
    match e
    case CallExpr(_, args) => |args| <= 1 && (forall a <- args :: AtMostOneArg(a))
    case _ => true
  }

  /** A primary expression is a string literal, a variable reference (an
      identifier not followed by '('), or a call (an identifier followed by
      '(') whose callee is that identifier; anything else fails. */
  lemma PrimaryShape(toks: seq<Token>, i: nat)
    requires IsStream(toks)
    ensures var r := PrimaryAt(toks, i); var t := TokAt(toks, i);
      t.kind !in {StringLiteral, Identifier} ==> r == Fail(ParseError(None, ExpectedExpression))
    ensures var r := PrimaryAt(toks, i); var t := TokAt(toks, i);
      t.kind == StringLiteral ==> r == Ok(StringLiteralExpr(t), i + 1)
    ensures var r := PrimaryAt(toks, i); var t := TokAt(toks, i);
      t.kind == Identifier && TokAt(toks, i + 1).kind != LParen ==> r == Ok(VariableExpr(t), i + 1)
    ensures var r := PrimaryAt(toks, i); var t := TokAt(toks, i);
      t.kind == Identifier && TokAt(toks, i + 1).kind == LParen && r.Ok? ==>
        var a := ArgsAt(toks, i + 2);
        && a.Ok? && TokAt(toks, a.next).kind == RParen
        && r == Ok(CallExpr(t, a.value), a.next + 1)
  {
  }

  /** A call has no argument when ')' follows its '(' at once, and otherwise
      exactly one, which may be any expression. */
  lemma ArgsShape(toks: seq<Token>, i: nat)
    requires IsStream(toks)
    ensures var r := ArgsAt(toks, i);
      r.Ok? ==> |r.value| <= 1 && (r.value == [] <==> TokAt(toks, i).kind == RParen)
    ensures var r := ArgsAt(toks, i);
      r.Ok? && r.value != [] ==> ExprAt(toks, i) == Ok(r.value[0], r.next)
  {
  }

  /** Every expression the parser builds has calls of at most one argument. */
  lemma {:induction false} ParsedCallsHaveAtMostOneArg(toks: seq<Token>, i: nat)
    requires IsStream(toks)
    ensures ExprAt(toks, i).Ok? ==> AtMostOneArg(ExprAt(toks, i).value)
    decreases |toks| - i
  {
    var t := TokAt(toks, i);
    if ExprAt(toks, i).Ok? && t.kind == Identifier && TokAt(toks, i + 1).kind == LParen {
      var a := ArgsAt(toks, i + 2);
      assert a.Ok? && ExprAt(toks, i).value == CallExpr(t, a.value);
      if TokAt(toks, i + 2).kind != RParen {
        ParsedCallsHaveAtMostOneArg(toks, i + 2);
        assert a.value == [ExprAt(toks, i + 2).value];
      }
    }
  }

  /** A statement is a DeclStmt holding a VarDecl exactly when it starts with
      'let'; the VarDecl's name is the identifier after 'let' and '=' follows
      it. Otherwise it is an ExprStmt. Both end with ';'. */
  lemma StatementShape(toks: seq<Token>, i: nat)
    requires IsStream(toks)
    requires StatementAt(toks, i).Ok?
    ensures var r := StatementAt(toks, i);
      && (r.value.DeclStmt? <==> TokAt(toks, i).kind == KwLet)
      && (r.value.DeclStmt? ==>
            && r.value.decl.VarDecl?
            && r.value.decl.name == TokAt(toks, i + 1)
            && TokAt(toks, i + 1).kind == Identifier
            && TokAt(toks, i + 2).kind == Equal
            && ExprAt(toks, i + 3) == Ok(r.value.decl.initializer, r.next - 1))
      && (r.value.ExprStmt? ==> ExprAt(toks, i) == Ok(r.value.expr, r.next - 1))
      && TokAt(toks, r.next - 1).kind == Semicolon
  {
  }

  /** A function definition is exactly identifier ( ) -> void { statement* };
      the declaration is named by the identifier and its body is the statements
      in order. Running into eof before the '}' is an error. */
  lemma FunctionDefinitionShape(toks: seq<Token>, i: nat)
    requires IsStream(toks)
    ensures var r := FunctionDefinitionAt(toks, i);
      r.Ok? ==>
        && TokAt(toks, i).kind == Identifier && TokAt(toks, i + 1).kind == LParen
        && TokAt(toks, i + 2).kind == RParen && TokAt(toks, i + 3).kind == Arrow
        && TokAt(toks, i + 4).kind == KwVoid && TokAt(toks, i + 5).kind == LBrace
        && r.value == FunctionDecl(TokAt(toks, i), r.value.body)
        && DeclName(r.value) == TokAt(toks, i).lexeme
        && BodyAt(toks, i + 6) == Ok(r.value.body, r.next - 1)
        && TokAt(toks, r.next - 1).kind == RBrace
    ensures var b := BodyAt(toks, i + 6);
      && TokAt(toks, i).kind == Identifier && TokAt(toks, i + 1).kind == LParen
      && TokAt(toks, i + 2).kind == RParen && TokAt(toks, i + 3).kind == Arrow
      && TokAt(toks, i + 4).kind == KwVoid && TokAt(toks, i + 5).kind == LBrace
      && b.Ok? && TokAt(toks, b.next).kind == Eof ==>
        FunctionDefinitionAt(toks, i) == Fail(SyntaxError(toks, b.next, ExpectedRBrace))
  {
  }

  /** Every top-level declaration of a successful parse is a function, and a
      top-level token other than 'fn' or eof stops the parse. */
  lemma {:induction false} ProgramIsFunctions(toks: seq<Token>, i: nat)
    requires IsStream(toks)
    ensures ProgramAt(toks, i).Ok? ==> forall d <- ProgramAt(toks, i).value :: d.FunctionDecl?
    ensures TokAt(toks, i).kind !in {Eof, KwFn} ==>
              ProgramAt(toks, i) == Fail(ParseError(None, ExpectedTopLevelDecl))
    decreases |toks| - i
  {
    if TokAt(toks, i).kind != Eof {
      var d := TopLevelDeclAt(toks, i);
      if d.Ok? {
        ProgramIsFunctions(toks, d.next);
      }
    }
  }

  // ---------------------------------------------------------------------------
  // Round trip: printing the tree gives back the significant tokens.

  /** A token as far as the tree remembers it: its kind, and its text when it
      is an identifier or a string literal (punctuators and keywords are fixed
      by their kind). */
  datatype Sig = Sig(kind: TokenKind, text: string)

  function SigOf(t: Token): Sig
  {
    Sig(t.kind, if t.kind in {Identifier, StringLiteral} then t.lexeme else [])
  }

  function Punct(kind: TokenKind): Sig
  {
    Sig(kind, [])
  }

  /** A list of significant tokens, built front to back. */
  datatype SigList = Nil | Cons(head: Sig, tail: SigList)

  /** The significant tokens from index i up to j, in front of the list rest. */
  function SigsOf(toks: seq<Token>, i: nat, j: nat, rest: SigList): SigList
    requires |toks| > 0 && i <= j
    decreases j - i
  {
    if i == j then rest else Cons(SigOf(TokAt(toks, i)), SigsOf(toks, i + 1, j, rest))
  }

  lemma SigsOfCons(toks: seq<Token>, i: nat, j: nat, rest: SigList)
    requires |toks| > 0 && i < j
    ensures SigsOf(toks, i, j, rest) == Cons(SigOf(TokAt(toks, i)), SigsOf(toks, i + 1, j, rest))
  {
  }

  /** Cutting the range at j: the tokens before j come in front of those from j on. */
  lemma {:induction false} SigsOfSplit(toks: seq<Token>, i: nat, j: nat, k: nat, rest: SigList)
    requires |toks| > 0 && i <= j <= k
    ensures SigsOf(toks, i, k, rest) == SigsOf(toks, i, j, SigsOf(toks, j, k, rest))
    decreases j - i
  {
    if i < j {
      SigsOfSplit(toks, i + 1, j, k, rest);
    }
  }

  /** The token at j closes the range that runs through it. */
  lemma SigsThrough(toks: seq<Token>, i: nat, j: nat, rest: SigList)
    requires |toks| > 0 && i <= j
    ensures SigsOf(toks, i, j + 1, rest) == SigsOf(toks, i, j, Cons(SigOf(TokAt(toks, j)), rest))
  {
    SigsOfSplit(toks, i, j, j + 1, rest);
    SigsOfCons(toks, j, j + 1, rest);
  }

  // Each printer lists the significant tokens of a tree front to back, in
  // front of the list rest that is printed after it.

  function PrintExpr(e: Expr, rest: SigList): SigList
  {
    match e
    case StringLiteralExpr(t) => Cons(SigOf(t), rest)
    case VariableExpr(n) => Cons(SigOf(n), rest)
    case CallExpr(c, args) => Cons(SigOf(c), Cons(Punct(LParen), PrintArgs(args, Cons(Punct(RParen), rest))))
  }

  function PrintArgs(args: seq<Expr>, rest: SigList): SigList
  {
    if args == [] then rest else PrintExpr(args[0], PrintArgs(args[1..], rest))
  }

  function PrintStmt(s: Stmt, rest: SigList): SigList
  {
    match s
    case DeclStmt(d) => PrintDecl(d, rest)
    case ExprStmt(e) => PrintExpr(e, Cons(Punct(Semicolon), rest))
  }

  function PrintDecl(d: Decl, rest: SigList): SigList
  {
    match d
    case VarDecl(n, init) =>
      Cons(Punct(KwLet), Cons(SigOf(n), Cons(Punct(Equal), PrintExpr(init, Cons(Punct(Semicolon), rest)))))
    case FunctionDecl(n, body) =>
      Cons(Punct(KwFn), Cons(SigOf(n), Cons(Punct(LParen), Cons(Punct(RParen), Cons(Punct(Arrow),
        Cons(Punct(KwVoid), Cons(Punct(LBrace), PrintBody(body, Cons(Punct(RBrace), rest)))))))))
  }

  function PrintBody(body: seq<Stmt>, rest: SigList): SigList
  {
    if body == [] then rest else PrintStmt(body[0], PrintBody(body[1..], rest))
  }

  function PrintProgram(ds: seq<Decl>, rest: SigList): SigList
  {
    if ds == [] then rest else PrintDecl(ds[0], PrintProgram(ds[1..], rest))
  }

  /** callee '(' in front of printed arguments and ')' print the call r. */
  lemma CallSigs(toks: seq<Token>, i: nat, j: nat, args: seq<Expr>, rest: SigList, r: Parsed<Expr>)
    requires |toks| > 0 && i + 2 <= j
    requires TokAt(toks, i + 1).kind == LParen && TokAt(toks, j).kind == RParen
    requires r == Ok(CallExpr(TokAt(toks, i), args), j + 1)
    requires SigsOf(toks, i + 2, j, Cons(Punct(RParen), rest)) == PrintArgs(args, Cons(Punct(RParen), rest))
    ensures SigsOf(toks, i, r.next, rest) == PrintExpr(r.value, rest)
  {
    SigsThrough(toks, i + 2, j, rest);
    SigsOfCons(toks, i + 1, j + 1, rest);
    SigsOfCons(toks, i, j + 1, rest);
  }

  lemma {:induction false} ExprPrintsBack(toks: seq<Token>, i: nat, rest: SigList)
    requires IsStream(toks)
    ensures var r := ExprAt(toks, i); r.Ok? ==> SigsOf(toks, i, r.next, rest) == PrintExpr(r.value, rest)
    decreases |toks| - i, 1
  {
    var r := ExprAt(toks, i);
    if r.Ok? {
      var t := TokAt(toks, i);
      PrimaryShape(toks, i);
      if t.kind == Identifier && TokAt(toks, i + 1).kind == LParen {
        var a := ArgsAt(toks, i + 2);
        ArgsPrintBack(toks, i + 2, Cons(Punct(RParen), rest));
        CallSigs(toks, i, a.next, a.value, rest, r);
      } else {
        SigsOfCons(toks, i, i + 1, rest);
      }
    }
  }

  lemma {:induction false} ArgsPrintBack(toks: seq<Token>, i: nat, rest: SigList)
    requires IsStream(toks)
    ensures var r := ArgsAt(toks, i); r.Ok? ==> SigsOf(toks, i, r.next, rest) == PrintArgs(r.value, rest)
    decreases |toks| - i, 2
  {
    var r := ArgsAt(toks, i);
    if r.Ok? && TokAt(toks, i).kind != RParen {
      ExprPrintsBack(toks, i, rest);
      assert r.value[1..] == [];
    }
  }

  /** 'let' name '=' in front of a printed initializer and ';' print the
      declaration statement r. */
  lemma LetSigs(toks: seq<Token>, i: nat, j: nat, init: Expr, rest: SigList, r: Parsed<Stmt>)
    requires |toks| > 0 && i + 3 <= j
    requires TokAt(toks, i).kind == KwLet && TokAt(toks, i + 2).kind == Equal
    requires TokAt(toks, j).kind == Semicolon
    requires r == Ok(DeclStmt(VarDecl(TokAt(toks, i + 1), init)), j + 1)
    requires SigsOf(toks, i + 3, j, Cons(Punct(Semicolon), rest)) == PrintExpr(init, Cons(Punct(Semicolon), rest))
    ensures SigsOf(toks, i, r.next, rest) == PrintStmt(r.value, rest)
  {
    SigsThrough(toks, i + 3, j, rest);
    SigsOfCons(toks, i + 2, j + 1, rest);
    SigsOfCons(toks, i + 1, j + 1, rest);
    SigsOfCons(toks, i, j + 1, rest);
  }

  /** A printed expression followed by ';' prints the expression statement r. */
  lemma ExprStmtSigs(toks: seq<Token>, i: nat, j: nat, e: Expr, rest: SigList, r: Parsed<Stmt>)
    requires |toks| > 0 && i <= j && TokAt(toks, j).kind == Semicolon
    requires r == Ok(ExprStmt(e), j + 1)
    requires SigsOf(toks, i, j, Cons(Punct(Semicolon), rest)) == PrintExpr(e, Cons(Punct(Semicolon), rest))
    ensures SigsOf(toks, i, r.next, rest) == PrintStmt(r.value, rest)
  {
    SigsThrough(toks, i, j, rest);
  }

  lemma StmtPrintsBack(toks: seq<Token>, i: nat, rest: SigList)
    requires IsStream(toks)
    ensures var r := StatementAt(toks, i); r.Ok? ==> SigsOf(toks, i, r.next, rest) == PrintStmt(r.value, rest)
  {
    var r := StatementAt(toks, i);
    if r.Ok? {
      StatementShape(toks, i);
      var semi := Cons(Punct(Semicolon), rest);
      if r.value.DeclStmt? {
        ExprPrintsBack(toks, i + 3, semi);
        LetSigs(toks, i, r.next - 1, r.value.decl.initializer, rest, r);
      } else {
        ExprPrintsBack(toks, i, semi);
        ExprStmtSigs(toks, i, r.next - 1, r.value.expr, rest, r);
      }
    }
  }

  lemma {:induction false} BodyPrintsBack(toks: seq<Token>, i: nat, rest: SigList)
    requires IsStream(toks)
    ensures var r := BodyAt(toks, i); r.Ok? ==> SigsOf(toks, i, r.next, rest) == PrintBody(r.value, rest)
    decreases |toks| - i
  {
    var r := BodyAt(toks, i);
    var t := TokAt(toks, i);
    if r.Ok? && t.kind != RBrace && t.kind != Eof {
      var s := StatementAt(toks, i);
      BodyPrintsBack(toks, s.next, rest);
      StmtPrintsBack(toks, i, SigsOf(toks, s.next, r.next, rest));
      SigsOfSplit(toks, i, s.next, r.next, rest);
      assert r.value[0] == s.value && r.value[1..] == BodyAt(toks, s.next).value;
    }
  }

  /** The token kinds around a function definition that runs from 'fn' at i
      to its closing brace at j. */
  ghost predicate FunctionLayout(toks: seq<Token>, i: nat, j: nat)
  {
    && |toks| > 0 && i + 7 <= j
    && TokAt(toks, i).kind == KwFn && TokAt(toks, i + 2).kind == LParen
    && TokAt(toks, i + 3).kind == RParen && TokAt(toks, i + 4).kind == Arrow
    && TokAt(toks, i + 5).kind == KwVoid && TokAt(toks, i + 6).kind == LBrace
    && TokAt(toks, j).kind == RBrace
  }

  /** A parsed function definition: its layout, its parts, and its printed body. */
  lemma FunctionStep(toks: seq<Token>, i: nat, rest: SigList) returns (body: seq<Stmt>, j: nat)
    requires IsStream(toks) && TopLevelDeclAt(toks, i).Ok?
    ensures FunctionLayout(toks, i, j)
    ensures TopLevelDeclAt(toks, i) == Ok(FunctionDecl(TokAt(toks, i + 1), body), j + 1)
    ensures SigsOf(toks, i + 7, j, Cons(Punct(RBrace), rest)) == PrintBody(body, Cons(Punct(RBrace), rest))
  {
    assert TopLevelDeclAt(toks, i) == FunctionDefinitionAt(toks, i + 1);
    assert SignatureAt(toks, i + 1).Ok? && SignatureTailAt(toks, i + 4).Ok?;
    var b := BodyAt(toks, i + 7);
    BodyPrintsBack(toks, i + 7, Cons(Punct(RBrace), rest));
    body, j := b.value, b.next;
  }

  /** The signature tokens 'fn' name '(' ')' '->' 'void' '{' at the front of a range. */
  lemma SignatureSigs(toks: seq<Token>, i: nat, k: nat, rest: SigList)
    requires |toks| > 0 && i + 7 <= k
    requires TokAt(toks, i).kind == KwFn && TokAt(toks, i + 2).kind == LParen
    requires TokAt(toks, i + 3).kind == RParen && TokAt(toks, i + 4).kind == Arrow
    requires TokAt(toks, i + 5).kind == KwVoid && TokAt(toks, i + 6).kind == LBrace
    ensures SigsOf(toks, i, k, rest) ==
      Cons(Punct(KwFn), Cons(SigOf(TokAt(toks, i + 1)), Cons(Punct(LParen), Cons(Punct(RParen),
        Cons(Punct(Arrow), Cons(Punct(KwVoid), Cons(Punct(LBrace), SigsOf(toks, i + 7, k, rest))))))))
  {
    SigsOfCons(toks, i + 6, k, rest);
    SigsOfCons(toks, i + 5, k, rest);
    SigsOfCons(toks, i + 4, k, rest);
    SigsOfCons(toks, i + 3, k, rest);
    SigsOfCons(toks, i + 2, k, rest);
    SigsOfCons(toks, i + 1, k, rest);
    SigsOfCons(toks, i, k, rest);
  }

  /** The tokens 'fn' name '(' ')' '->' 'void' '{', a printed body and the
      closing brace print the function definition r. */
  lemma FunctionSigs(toks: seq<Token>, i: nat, j: nat, body: seq<Stmt>, rest: SigList, r: Parsed<Decl>)
    requires FunctionLayout(toks, i, j)
    requires r == Ok(FunctionDecl(TokAt(toks, i + 1), body), j + 1)
    requires SigsOf(toks, i + 7, j, Cons(Punct(RBrace), rest)) == PrintBody(body, Cons(Punct(RBrace), rest))
    ensures SigsOf(toks, i, r.next, rest) == PrintDecl(r.value, rest)
  {
    SignatureSigs(toks, i, j + 1, rest);
    SigsThrough(toks, i + 7, j, rest);
  }

  lemma FunctionPrintsBack(toks: seq<Token>, i: nat, rest: SigList)
    requires IsStream(toks)
    ensures var r := TopLevelDeclAt(toks, i); r.Ok? ==> SigsOf(toks, i, r.next, rest) == PrintDecl(r.value, rest)
  {
    if TopLevelDeclAt(toks, i).Ok? {
      var body, j := FunctionStep(toks, i, rest);
      FunctionSigs(toks, i, j, body, rest, TopLevelDeclAt(toks, i));
    }
  }

  /** Printing a parsed program gives back exactly the kinds of the tokens it
      was parsed from, with the text of every identifier and string literal. */
  lemma {:induction false} ProgramPrintsBack(toks: seq<Token>, i: nat, rest: SigList)
    requires IsStream(toks)
    ensures var r := ProgramAt(toks, i); r.Ok? ==> SigsOf(toks, i, r.next, rest) == PrintProgram(r.value, rest)
    decreases |toks| - i
  {
    var r := ProgramAt(toks, i);
    if r.Ok? && TokAt(toks, i).kind != Eof {
      var d := TopLevelDeclAt(toks, i);
      ProgramPrintsBack(toks, d.next, rest);
      FunctionPrintsBack(toks, i, SigsOf(toks, d.next, r.next, rest));
      SigsOfSplit(toks, i, d.next, r.next, rest);
      assert r.value[0] == d.value && r.value[1..] == ProgramAt(toks, d.next).value;
    }
  }
}
