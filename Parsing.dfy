/** The Parser class of src/frontend/lib/Parser.cpp: one token of lookahead in
    currentToken, the token before it in previousToken, tokens pulled on demand
    from a Lexer object. Each method is proved to compute the grammar rule of
    module Grammar that it implements, on the token stream the lexer had still
    to deliver when the parser was built. */
module Parsing {
  import opened Wrappers
  import opened Tokens
  import opened Ast
  import opened Lexing
  import opened Grammar

  /** A method's result and the parser's new position agree with a grammar
      rule's outcome. After a failure the source exits, so the position is
      left unconstrained. */
  ghost predicate Agrees<T>(r: Result<T, ParseError>, f: Parsed<T>, pos: nat)
  {
    match f
    case Ok(v, n) => r == Success(v) && pos == n
    case Fail(e) => r == Failure(e)
  }

  /** The rule outcome f with xs put in front of the sequence it builds. */
  function PrependOk<T>(xs: seq<T>, f: Parsed<seq<T>>): Parsed<seq<T>>
  {
    match f
    case Ok(v, n) => Ok(xs + v, n)
    case Fail(e) => Fail(e)
  }

  lemma PrependNothing<T>(f: Parsed<seq<T>>)
    ensures PrependOk([], f) == f
  {
    if f.Ok? {
      assert [] + f.value == f.value;
    }
  }

  lemma PrependTwice<T>(xs: seq<T>, ys: seq<T>, f: Parsed<seq<T>>)
    ensures PrependOk(xs, PrependOk(ys, f)) == PrependOk(xs + ys, f)
  {
    if f.Ok? {
      assert xs + (ys + f.value) == (xs + ys) + f.value;
    }
  }

  /** Where the lexer stands after delivering each token that TokensFrom(s, i)
      lists. */
  ghost function EndsFrom(s: string, i: nat): (e: seq<nat>)
    requires i <= |s|
    ensures |e| == |TokensFrom(s, i)|
    decreases |s| - i
  {
    var sc := NextToken(s, i);
    if sc.token.kind == Eof then [sc.end] else [sc.end] + EndsFrom(s, sc.end)
  }

  /** Scanning from ends[k] delivers toks[k + 1] and stops at ends[k + 1]; the
      last token leaves the lexer at the end of the source. */
  ghost predicate Chain(s: string, toks: seq<Token>, ends: seq<nat>)
  {
    && |toks| == |ends| > 0
    && ends[|ends| - 1] == |s|
    && (forall k {:trigger ends[k]} :: 0 <= k < |ends| ==> ends[k] <= |s|)
    && (forall k {:trigger NextToken(s, ends[k])} :: 0 <= k < |toks| - 1 && ends[k] <= |s| ==>
          NextToken(s, ends[k]).token == toks[k + 1] && NextToken(s, ends[k]).end == ends[k + 1])
  }

  /** A chain extends to the front by a token whose scan stops where the
      chain's first token is scanned from. */
  lemma ChainCons(s: string, tok: Token, end: nat, t: seq<Token>, e: seq<nat>)
    requires Chain(s, t, e) && end <= |s|
    requires NextToken(s, end).token == t[0] && NextToken(s, end).end == e[0]
    ensures Chain(s, [tok] + t, [end] + e)
  {
    var T, E := [tok] + t, [end] + e;
    assert forall k :: 0 < k < |E| ==> E[k] == e[k - 1];
    assert forall k :: 0 <= k < |t| ==> T[k + 1] == t[k];
  }

  lemma {:induction false} ChainFrom(s: string, i: nat)
    requires i <= |s|
    ensures Chain(s, TokensFrom(s, i), EndsFrom(s, i))
    ensures TokensFrom(s, i)[0] == NextToken(s, i).token
    ensures EndsFrom(s, i)[0] == NextToken(s, i).end
    decreases |s| - i
  {
    var sc := NextToken(s, i);
    if sc.token.kind != Eof {
      ChainFrom(s, sc.end);
      ChainCons(s, sc.token, sc.end, TokensFrom(s, sc.end), EndsFrom(s, sc.end));
    }
  }

  class Parser {
    const lexer: Lexer
    var currentToken: Token
    var previousToken: Token
    /** The tokens the lexer had still to deliver when the parser was built. */
    ghost const toks: seq<Token>
    /** Where the lexer stands after delivering each token of toks. */
    ghost const ends: seq<nat>
    /** The index in toks of currentToken. */
    ghost var pos: nat

    /** The lookahead is the token at pos, the previous token the one before,
        and the lexer stands right after the lookahead. */
    ghost predicate Valid()
      reads this, lexer
    {
      && lexer.Valid()
      && IsStream(toks)
      && toks[|toks| - 1] == EofToken(lexer.source)
      && Chain(lexer.source, toks, ends)
      && pos < |toks|
      && lexer.current == ends[pos]
      && currentToken == toks[pos]
      && previousToken == (if pos == 0 then DefaultToken else toks[pos - 1])
    }

    /** Tokens not yet consumed; the measure that makes the recursion stop. */
    ghost function Remaining(): nat
      reads this
    {
      if pos < |toks| then |toks| - pos else 0
    }

    /** Builds a parser on a lexer and primes the lookahead with its first token. */
    constructor (lexer: Lexer)
      requires lexer.Valid()
      modifies lexer
      ensures Valid() && this.lexer == lexer
      ensures toks == TokensFrom(lexer.source, old(lexer.current)) && pos == 0
    {
      this.lexer := lexer;
      toks := TokensFrom(lexer.source, lexer.current);
      ends := EndsFrom(lexer.source, lexer.current);
      pos := 0;
      ChainFrom(lexer.source, lexer.current);
      currentToken := DefaultToken;
      previousToken := DefaultToken;
      new;
      // advance()
      previousToken := currentToken;
      currentToken := lexer.ScanNextToken();
    }

    /** The previous token becomes the old lookahead; the lookahead is pulled
        from the lexer. */
    method Advance()
      requires Valid() && currentToken.kind != Eof
      modifies this, lexer
      ensures Valid()
      ensures pos == old(pos) + 1 && previousToken == old(currentToken)
      ensures currentToken == TokAt(toks, old(pos) + 1)
    {
      ghost var s := lexer.source;
      assert NextToken(s, ends[pos]).token == toks[pos + 1];
      previousToken := currentToken;
      currentToken := lexer.ScanNextToken();
      pos := pos + 1;
    }

    /** Consumes the lookahead exactly when it has the given kind; otherwise
        nothing changes. */
    method Match(kind: TokenKind) returns (matched: bool)
      requires Valid() && kind != Eof
      modifies this, lexer
      ensures Valid()
      ensures matched <==> TokAt(toks, old(pos)).kind == kind
      ensures matched ==> pos == old(pos) + 1 && previousToken == TokAt(toks, old(pos))
      ensures !matched ==> unchanged(this) && unchanged(lexer)
    {
      if currentToken.kind == kind {
        Advance();
        return true;
      }
      return false;
    }

    /** Consumes the lookahead when it has the given kind, and otherwise fails
        with the message, on the line of the previous token. */
    method Consume(kind: TokenKind, message: string) returns (err: Option<ParseError>)
      requires Valid() && kind != Eof
      modifies this, lexer
      ensures Valid()
      ensures err.None? <==> TokAt(toks, old(pos)).kind == kind
      ensures err.None? ==> pos == old(pos) + 1 && previousToken == TokAt(toks, old(pos))
      ensures err.Some? ==> err.value == SyntaxError(toks, old(pos), message)
    {
      if currentToken.kind == kind {
        Advance();
        return None;
      }
      return Some(ParseError(Some(previousToken.line), message));
    }

    predicate IsAtEnd()
      reads this
    {
      currentToken.kind == Eof
    }

    /** Parses top-level declarations until eof. */
    method Parse() returns (r: Result<seq<Decl>, ParseError>)
      requires Valid()
      modifies this, lexer
      ensures Valid()
      ensures Agrees(r, ProgramAt(toks, old(pos)), pos)
    {
      var declarations: seq<Decl> := [];
      PrependNothing(ProgramAt(toks, pos));
      while !IsAtEnd()
        invariant Valid()
        invariant ProgramAt(toks, old(pos)) == PrependOk(declarations, ProgramAt(toks, pos))
        decreases Remaining()
      {
        ghost var before := pos;
        var d := ParseTopLevelDecl();
        if d.Failure? {
          return Failure(d.error);
        }
        assert ProgramAt(toks, before) == PrependOk([d.value], ProgramAt(toks, pos));
        PrependTwice(declarations, [d.value], ProgramAt(toks, pos));
        declarations := declarations + [d.value];
      }
      assert declarations + [] == declarations;
      return Success(declarations);
    }

    method ParseTopLevelDecl() returns (r: Result<Decl, ParseError>)
      requires Valid()
      modifies this, lexer
      ensures Valid()
      ensures Agrees(r, TopLevelDeclAt(toks, old(pos)), pos)
    {
      var isFn := Match(KwFn);
      if isFn {
        r := ParseFunctionDefinition();
        return;
      }
      return Failure(ParseError(None, ExpectedTopLevelDecl));
    }

    method ParseFunctionDefinition() returns (r: Result<Decl, ParseError>)
      requires Valid()
      modifies this, lexer
      ensures Valid()
      ensures Agrees(r, FunctionDefinitionAt(toks, old(pos)), pos)
    {
      var name := ParseSignature();
      if name.Failure? { return Failure(name.error); }
      var body := ParseBody();
      if body.Failure? { return Failure(body.error); }
      var err := Consume(RBrace, ExpectedRBrace);
      if err.Some? { return Failure(err.value); }
      return Success(FunctionDecl(name.value, body.value));
    }

    /** The signature part of parseFunctionDefinition: the name, the empty
        parameter list, the void return type and the opening brace. */
    method ParseSignature() returns (r: Result<Token, ParseError>)
      requires Valid()
      modifies this, lexer
      ensures Valid()
      ensures Agrees(r, SignatureAt(toks, old(pos)), pos)
    {
      var name := currentToken;
      var err := Consume(Identifier, ExpectedFunctionName);
      if err.Some? { return Failure(err.value); }
      err := Consume(LParen, ExpectedLParen);
      if err.Some? { return Failure(err.value); }
      err := Consume(RParen, ExpectedRParen);
      if err.Some? { return Failure(err.value); }
      var tail := ParseSignatureTail();
      if tail.Failure? { return Failure(tail.error); }
      return Success(name);
    }

    /** The return type and the opening brace of parseFunctionDefinition. */
    method ParseSignatureTail() returns (r: Result<(), ParseError>)
      requires Valid()
      modifies this, lexer
      ensures Valid()
      ensures Agrees(r, SignatureTailAt(toks, old(pos)), pos)
    {
      var err := Consume(Arrow, ExpectedArrow);
      if err.Some? { return Failure(err.value); }
      err := Consume(KwVoid, ExpectedVoid);
      if err.Some? { return Failure(err.value); }
      err := Consume(LBrace, ExpectedLBrace);
      if err.Some? { return Failure(err.value); }
      return Success(());
    }

    /** The statement loop of parseFunctionDefinition: statements up to a '}'
        or the end of input. */
    method ParseBody() returns (r: Result<seq<Stmt>, ParseError>)
      requires Valid()
      modifies this, lexer
      ensures Valid()
      ensures Agrees(r, BodyAt(toks, old(pos)), pos)
    {
      var body: seq<Stmt> := [];
      PrependNothing(BodyAt(toks, pos));
      while currentToken.kind != RBrace && !IsAtEnd()
        invariant Valid()
        invariant BodyAt(toks, old(pos)) == PrependOk(body, BodyAt(toks, pos))
        decreases Remaining()
      {
        ghost var before := pos;
        var s := ParseStatement();
        if s.Failure? {
          return Failure(s.error);
        }
        assert BodyAt(toks, before) == PrependOk([s.value], BodyAt(toks, pos));
        PrependTwice(body, [s.value], BodyAt(toks, pos));
        body := body + [s.value];
      }
      assert body + [] == body;
      return Success(body);
    }

    method ParseStatement() returns (r: Result<Stmt, ParseError>)
      requires Valid()
      modifies this, lexer
      ensures Valid()
      ensures Agrees(r, StatementAt(toks, old(pos)), pos)
    {
      var isLet := Match(KwLet);
      if isLet {
        r := ParseVarDeclStatement();
        return;
      }
      r := ParseExprStatement();
    }

    method ParseVarDeclStatement() returns (r: Result<Stmt, ParseError>)
      requires Valid()
      modifies this, lexer
      ensures Valid()
      ensures Agrees(r, VarDeclStmtAt(toks, old(pos)), pos)
    {
      ghost var p0 := pos;
      var name := currentToken;
      var err := Consume(Identifier, ExpectedVariableName);
      if err.Some? { return Failure(err.value); }
      err := Consume(Equal, ExpectedEqual);
      if err.Some? { return Failure(err.value); }
      var initializer := ParseExpression();
      if initializer.Failure? {
        assert VarDeclStmtAt(toks, p0) == Fail(initializer.error);
        return Failure(initializer.error);
      }
      ghost var j := pos;
      err := Consume(Semicolon, ExpectedSemicolonAfterVar);
      if err.Some? {
        assert VarDeclStmtAt(toks, p0) == Fail(SyntaxError(toks, j, ExpectedSemicolonAfterVar));
        return Failure(err.value);
      }
      assert VarDeclStmtAt(toks, p0) == Ok(DeclStmt(VarDecl(name, initializer.value)), pos);
      return Success(DeclStmt(VarDecl(name, initializer.value)));
    }

    method ParseExprStatement() returns (r: Result<Stmt, ParseError>)
      requires Valid()
      modifies this, lexer
      ensures Valid()
      ensures Agrees(r, ExprStmtAt(toks, old(pos)), pos)
    {
      var expr := ParseExpression();
      if expr.Failure? { return Failure(expr.error); }
      var err := Consume(Semicolon, ExpectedSemicolonAfterExpr);
      if err.Some? { return Failure(err.value); }
      return Success(ExprStmt(expr.value));
    }

    method ParseExpression() returns (r: Result<Expr, ParseError>)
      requires Valid()
      modifies this, lexer
      ensures Valid()
      ensures Agrees(r, ExprAt(toks, old(pos)), pos)
      decreases Remaining(), 1
    {
      r := ParsePrimaryExpression();
    }

    method ParsePrimaryExpression() returns (r: Result<Expr, ParseError>)
      requires Valid()
      modifies this, lexer
      ensures Valid()
      ensures Agrees(r, PrimaryAt(toks, old(pos)), pos)
      decreases Remaining(), 0
    {
      var isString := Match(StringLiteral);
      if isString {
        return Success(StringLiteralExpr(previousToken));
      }
      var isIdent := Match(Identifier);
      if isIdent {
        var callee := previousToken;
        var isCall := Match(LParen);
        if isCall {
          ghost var argsStart := pos;
          var args: seq<Expr> := [];
          if currentToken.kind != RParen {
            var arg := ParseExpression();
            if arg.Failure? { return Failure(arg.error); }
            args := [arg.value];
          }
          assert Agrees(Success(args), ArgsAt(toks, argsStart), pos);
          var err := Consume(RParen, ExpectedRParenAfterArgs);
          if err.Some? { return Failure(err.value); }
          return Success(CallExpr(callee, args));
        }
        return Success(VariableExpr(callee));
      }
      return Failure(ParseError(None, ExpectedExpression));
    }
  }

  /** The front end as main wires it: a lexer on the source, a parser on the
      lexer, one parse. Its result is the grammar applied to the token stream
      of the whole source. */
  method ParseSource(source: string) returns (r: Result<seq<Decl>, ParseError>)
    ensures r == Parse(Lex(source))
  {
    var lexer := new Lexer(source);
    var parser := new Parser(lexer);
    r := parser.Parse();
  }
}
