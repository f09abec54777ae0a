/** The first program the compiler is meant to handle, from the comment at the
    top of src/main.cpp: its source text, the tokens the scanner makes of it,
    and the tree the parser builds from them. */
module Milestone {
  import opened Wrappers
  import opened Tokens
  import opened Ast
  import opened Lexing
  import opened Grammar

  /** The program text, in pieces of at most a dozen characters:
      "fn main() -> void {\n    let message = \"Hello, sa!\";\n    print(message);\n}\n". */
  const HelloSource: string :=
    "fn main() " + "-> void {\n" + "    let " + "message " + "= " + "\"Hello, sa!\"" + ";\n"
    + "    print(" + "message);\n" + "}\n"

  /** The literal as the scanner delivers it, quotes included. */
  const HelloLiteral: string := "\"Hello, sa!\""

  /** The tokens of the program with their lines, ending in the eof token on
      line 5, after the final newline. */
  const HelloTokens: seq<Token> := [
    Token(KwFn, "fn", 1), Token(Identifier, "main", 1), Token(LParen, "(", 1),
    Token(RParen, ")", 1), Token(Arrow, "->", 1), Token(KwVoid, "void", 1),
    Token(LBrace, "{", 1),
    Token(KwLet, "let", 2), Token(Identifier, "message", 2), Token(Equal, "=", 2),
    Token(StringLiteral, HelloLiteral, 2), Token(Semicolon, ";", 2),
    Token(Identifier, "print", 3), Token(LParen, "(", 3), Token(Identifier, "message", 3),
    Token(RParen, ")", 3), Token(Semicolon, ";", 3),
    Token(RBrace, "}", 4),
    Token(Eof, [], 5)
  ]

  /** One function main whose body declares message and passes it to print. */
  const HelloTree: seq<Decl> := [
    FunctionDecl(Token(Identifier, "main", 1), [
      DeclStmt(VarDecl(Token(Identifier, "message", 2),
                       StringLiteralExpr(Token(StringLiteral, HelloLiteral, 2)))),
      ExprStmt(CallExpr(Token(Identifier, "print", 3),
                        [VariableExpr(Token(Identifier, "message", 3))]))
    ])
  ]

  /** The first statement of main's body: the let with its string literal. */
  lemma HelloLet()
    ensures IsStream(HelloTokens)
    ensures StatementAt(HelloTokens, 7) == Ok(HelloTree[0].body[0], 12)
  {
    var toks := HelloTokens;
    assert ExprAt(toks, 10) == Ok(HelloTree[0].body[0].decl.initializer, 11);
  }

  /** The second statement: the call of print with message as its argument. */
  lemma HelloCall()
    ensures IsStream(HelloTokens)
    ensures StatementAt(HelloTokens, 12) == Ok(HelloTree[0].body[1], 17)
  {
    var toks := HelloTokens;
    assert ExprAt(toks, 14) == Ok(VariableExpr(Token(Identifier, "message", 3)), 15);
    assert ArgsAt(toks, 14) == Ok(HelloTree[0].body[1].expr.args, 15);
    assert ExprAt(toks, 12) == Ok(HelloTree[0].body[1].expr, 16);
  }

  /** main's body is those two statements, closed by the '}' at index 17. */
  lemma HelloBody()
    ensures IsStream(HelloTokens)
    ensures BodyAt(HelloTokens, 7) == Ok(HelloTree[0].body, 17)
  {
    var toks := HelloTokens;
    var body := HelloTree[0].body;
    HelloLet();
    HelloCall();
    assert BodyAt(toks, 17) == Ok([], 17);
    assert BodyAt(toks, 12) == Ok([body[1]] + [], 17);
    assert [body[0]] + ([body[1]] + []) == body;
  }

  /** The signature main ( ) -> void { over indices 1 to 6. */
  lemma HelloSignature()
    ensures IsStream(HelloTokens)
    ensures SignatureAt(HelloTokens, 1) == Ok(Token(Identifier, "main", 1), 7)
  {
    assert SignatureTailAt(HelloTokens, 4) == Ok((), 7);
  }

  /** The one declaration: fn main() -> void { ... } over indices 0 to 17. */
  lemma HelloFunction()
    ensures IsStream(HelloTokens)
    ensures TopLevelDeclAt(HelloTokens, 0) == Ok(HelloTree[0], 18)
  {
    HelloSignature();
    HelloBody();
  }

  /** The token stream parses to the expected tree. */
  lemma HelloParses()
    ensures IsStream(HelloTokens)
    ensures Parse(HelloTokens) == Success(HelloTree)
  {
    HelloFunction();
    assert ProgramAt(HelloTokens, 18) == Ok([], 18);
    assert [HelloTree[0]] + [] == HelloTree;
  }

  /** The value of the literal the let binds is the text between its quotes. */
  lemma HelloValue()
    ensures GetValue(HelloTree[0].body[0].decl.initializer) == "Hello, sa!"
  {
    GetValueOfQuoted("Hello, sa!", 2);
  }

  // ---------------------------------------------------------------------------
  // Scanning the program text.

  /** The line of every cursor position: the newlines stand at 19, 51, 71
      and 73. */
  lemma HelloLine1()
    ensures forall k :: 0 <= k <= 19 ==> LineAt(HelloSource, k) == 1
  {
    forall k | 0 <= k <= 19 ensures LineAt(HelloSource, k) == 1 {
      LineMonotone(HelloSource, 0, k);
    }
  }

  lemma HelloLine2()
    ensures forall k :: 20 <= k <= 51 ==> LineAt(HelloSource, k) == 2
  {
    HelloLine1();
    assert LineAt(HelloSource, 19) == 1;
    assert NewlinesBefore(HelloSource, 20) == NewlinesBefore(HelloSource, 19) + 1;
    assert forall m :: 20 <= m < 51 ==> HelloSource[m] != '\n';
    forall k | 20 <= k <= 51 ensures LineAt(HelloSource, k) == 2 {
      LineMonotone(HelloSource, 20, k);
    }
  }

  lemma HelloLine3()
    ensures forall k :: 52 <= k <= 71 ==> LineAt(HelloSource, k) == 3
  {
    HelloLine2();
    assert LineAt(HelloSource, 51) == 2;
    assert NewlinesBefore(HelloSource, 52) == NewlinesBefore(HelloSource, 51) + 1;
    assert forall m :: 52 <= m < 71 ==> HelloSource[m] != '\n';
    forall k | 52 <= k <= 71 ensures LineAt(HelloSource, k) == 3 {
      LineMonotone(HelloSource, 52, k);
    }
  }

  lemma HelloLine4()
    ensures LineAt(HelloSource, 73) == 4 && LineAt(HelloSource, 74) == 5
  {
    HelloLine3();
    assert LineAt(HelloSource, 71) == 3;
    assert HelloSource[71] == '\n' && HelloSource[72] == '}' && HelloSource[73] == '\n';
    assert NewlinesBefore(HelloSource, 72) == NewlinesBefore(HelloSource, 71) + 1;
    assert NewlinesBefore(HelloSource, 73) == NewlinesBefore(HelloSource, 72);
  }

  /** The lemmas HelloToken0 to HelloToken18 take one token each: from the
      cursor where the previous token left it, the scanner produces that
      token and moves the cursor past it. */
  lemma HelloToken0()
    ensures NextToken(HelloSource, 0) == Scan(Token(KwFn, "fn", 1), 0, 2)
    ensures TokensFrom(HelloSource, 0) == [Token(KwFn, "fn", 1)] + TokensFrom(HelloSource, 2)
  {
    HelloLine1();
    WordToken(HelloSource, 0, 0, 2);
    assert HelloSource[0..2] == "fn";
  }

  lemma HelloToken1()
    ensures NextToken(HelloSource, 2) == Scan(Token(Identifier, "main", 1), 3, 7)
    ensures TokensFrom(HelloSource, 2) == [Token(Identifier, "main", 1)] + TokensFrom(HelloSource, 7)
  {
    HelloLine1();
    WordToken(HelloSource, 2, 3, 7);
    assert HelloSource[3..7] == "main";
  }

  lemma HelloToken2()
    ensures NextToken(HelloSource, 7) == Scan(Token(LParen, "(", 1), 7, 8)
    ensures TokensFrom(HelloSource, 7) == [Token(LParen, "(", 1)] + TokensFrom(HelloSource, 8)
  {
    HelloLine1();
    PunctuatorToken(HelloSource, 7, 7);
    assert HelloSource[7..8] == "(";
  }

  lemma HelloToken3()
    ensures NextToken(HelloSource, 8) == Scan(Token(RParen, ")", 1), 8, 9)
    ensures TokensFrom(HelloSource, 8) == [Token(RParen, ")", 1)] + TokensFrom(HelloSource, 9)
  {
    HelloLine1();
    PunctuatorToken(HelloSource, 8, 8);
    assert HelloSource[8..9] == ")";
  }

  lemma HelloToken4()
    ensures NextToken(HelloSource, 9) == Scan(Token(Arrow, "->", 1), 10, 12)
    ensures TokensFrom(HelloSource, 9) == [Token(Arrow, "->", 1)] + TokensFrom(HelloSource, 12)
  {
    HelloLine1();
    ArrowToken(HelloSource, 9, 10);
  }

  lemma HelloToken5()
    ensures NextToken(HelloSource, 12) == Scan(Token(KwVoid, "void", 1), 13, 17)
    ensures TokensFrom(HelloSource, 12) == [Token(KwVoid, "void", 1)] + TokensFrom(HelloSource, 17)
  {
    HelloLine1();
    WordToken(HelloSource, 12, 13, 17);
    assert HelloSource[13..17] == "void";
  }

  lemma HelloToken6()
    ensures NextToken(HelloSource, 17) == Scan(Token(LBrace, "{", 1), 18, 19)
    ensures TokensFrom(HelloSource, 17) == [Token(LBrace, "{", 1)] + TokensFrom(HelloSource, 19)
  {
    HelloLine1();
    PunctuatorToken(HelloSource, 17, 18);
    assert HelloSource[18..19] == "{";
  }

  lemma HelloToken7()
    ensures NextToken(HelloSource, 19) == Scan(Token(KwLet, "let", 2), 24, 27)
    ensures TokensFrom(HelloSource, 19) == [Token(KwLet, "let", 2)] + TokensFrom(HelloSource, 27)
  {
    HelloLine2();
    WordToken(HelloSource, 19, 24, 27);
    assert HelloSource[24..27] == "let";
  }

  lemma HelloToken8()
    ensures NextToken(HelloSource, 27) == Scan(Token(Identifier, "message", 2), 28, 35)
    ensures TokensFrom(HelloSource, 27) == [Token(Identifier, "message", 2)] + TokensFrom(HelloSource, 35)
  {
    HelloLine2();
    WordToken(HelloSource, 27, 28, 35);
    assert HelloSource[28..35] == "message";
  }

  lemma HelloToken9()
    ensures NextToken(HelloSource, 35) == Scan(Token(Equal, "=", 2), 36, 37)
    ensures TokensFrom(HelloSource, 35) == [Token(Equal, "=", 2)] + TokensFrom(HelloSource, 37)
  {
    HelloLine2();
    PunctuatorToken(HelloSource, 35, 36);
    assert HelloSource[36..37] == "=";
  }

  lemma HelloToken10()
    ensures NextToken(HelloSource, 37) == Scan(Token(StringLiteral, HelloLiteral, 2), 38, 50)
    ensures TokensFrom(HelloSource, 37) == [Token(StringLiteral, HelloLiteral, 2)] + TokensFrom(HelloSource, 50)
  {
    HelloLine2();
    StringToken(HelloSource, 37, 38, 49);
    assert HelloSource[38..50] == HelloLiteral;
  }

  lemma HelloToken11()
    ensures NextToken(HelloSource, 50) == Scan(Token(Semicolon, ";", 2), 50, 51)
    ensures TokensFrom(HelloSource, 50) == [Token(Semicolon, ";", 2)] + TokensFrom(HelloSource, 51)
  {
    HelloLine2();
    PunctuatorToken(HelloSource, 50, 50);
    assert HelloSource[50..51] == ";";
  }

  lemma HelloToken12()
    ensures NextToken(HelloSource, 51) == Scan(Token(Identifier, "print", 3), 56, 61)
    ensures TokensFrom(HelloSource, 51) == [Token(Identifier, "print", 3)] + TokensFrom(HelloSource, 61)
  {
    HelloLine3();
    WordToken(HelloSource, 51, 56, 61);
    assert HelloSource[56..61] == "print";
  }

  lemma HelloToken13()
    ensures NextToken(HelloSource, 61) == Scan(Token(LParen, "(", 3), 61, 62)
    ensures TokensFrom(HelloSource, 61) == [Token(LParen, "(", 3)] + TokensFrom(HelloSource, 62)
  {
    HelloLine3();
    PunctuatorToken(HelloSource, 61, 61);
    assert HelloSource[61..62] == "(";
  }

  lemma HelloToken14()
    ensures NextToken(HelloSource, 62) == Scan(Token(Identifier, "message", 3), 62, 69)
    ensures TokensFrom(HelloSource, 62) == [Token(Identifier, "message", 3)] + TokensFrom(HelloSource, 69)
  {
    HelloLine3();
    WordToken(HelloSource, 62, 62, 69);
    assert HelloSource[62..69] == "message";
  }

  lemma HelloToken15()
    ensures NextToken(HelloSource, 69) == Scan(Token(RParen, ")", 3), 69, 70)
    ensures TokensFrom(HelloSource, 69) == [Token(RParen, ")", 3)] + TokensFrom(HelloSource, 70)
  {
    HelloLine3();
    PunctuatorToken(HelloSource, 69, 69);
    assert HelloSource[69..70] == ")";
  }

  lemma HelloToken16()
    ensures NextToken(HelloSource, 70) == Scan(Token(Semicolon, ";", 3), 70, 71)
    ensures TokensFrom(HelloSource, 70) == [Token(Semicolon, ";", 3)] + TokensFrom(HelloSource, 71)
  {
    HelloLine3();
    PunctuatorToken(HelloSource, 70, 70);
    assert HelloSource[70..71] == ";";
  }

  lemma HelloToken17()
    ensures NextToken(HelloSource, 71) == Scan(Token(RBrace, "}", 4), 72, 73)
    ensures TokensFrom(HelloSource, 71) == [Token(RBrace, "}", 4)] + TokensFrom(HelloSource, 73)
  {
    HelloLine4();
    PunctuatorToken(HelloSource, 71, 72);
    assert HelloSource[72..73] == "}";
  }

  lemma HelloToken18()
    ensures NextToken(HelloSource, 73) == Scan(Token(Eof, [], 5), 74, 74)
    ensures TokensFrom(HelloSource, 73) == [Token(Eof, [], 5)]
  {
    HelloLine4();
    BlanksSkipped(HelloSource, 73, 74);
  }

  /** The tokens of the fourth line and the eof token. */
  lemma HelloLexesLine4()
    ensures TokensFrom(HelloSource, 71) ==
      [Token(RBrace, "}", 4)] +
      [Token(Eof, [], 5)]
  {
    HelloToken17();
    HelloToken18();
  }

  /** The tokens of the third line: print(message); */
  lemma HelloLexesLine3()
    ensures TokensFrom(HelloSource, 51) ==
      [Token(Identifier, "print", 3)] +
      ([Token(LParen, "(", 3)] +
      ([Token(Identifier, "message", 3)] +
      ([Token(RParen, ")", 3)] +
      ([Token(Semicolon, ";", 3)] +
      TokensFrom(HelloSource, 71)))))
  {
    HelloToken12();
    HelloToken13();
    HelloToken14();
    HelloToken15();
    HelloToken16();
  }

  /** The tokens of the second line: let message = "Hello, sa!"; */
  lemma HelloLexesLine2()
    ensures TokensFrom(HelloSource, 19) ==
      [Token(KwLet, "let", 2)] +
      ([Token(Identifier, "message", 2)] +
      ([Token(Equal, "=", 2)] +
      ([Token(StringLiteral, HelloLiteral, 2)] +
      ([Token(Semicolon, ";", 2)] +
      TokensFrom(HelloSource, 51)))))
  {
    HelloToken7();
    HelloToken8();
    HelloToken9();
    HelloToken10();
    HelloToken11();
  }

  /** The tokens of the first line: fn main() -> void { */
  lemma HelloLexesLine1()
    ensures TokensFrom(HelloSource, 0) ==
      [Token(KwFn, "fn", 1)] +
      ([Token(Identifier, "main", 1)] +
      ([Token(LParen, "(", 1)] +
      ([Token(RParen, ")", 1)] +
      ([Token(Arrow, "->", 1)] +
      ([Token(KwVoid, "void", 1)] +
      ([Token(LBrace, "{", 1)] +
      TokensFrom(HelloSource, 19)))))))
  {
    HelloToken0();
    HelloToken1();
    HelloToken2();
    HelloToken3();
    HelloToken4();
    HelloToken5();
    HelloToken6();
  }

  /** HelloTokens, token by token. */
  lemma HelloTokensListed()
    ensures HelloTokens ==
      [Token(KwFn, "fn", 1)] +
      ([Token(Identifier, "main", 1)] +
      ([Token(LParen, "(", 1)] +
      ([Token(RParen, ")", 1)] +
      ([Token(Arrow, "->", 1)] +
      ([Token(KwVoid, "void", 1)] +
      ([Token(LBrace, "{", 1)] +
      ([Token(KwLet, "let", 2)] +
      ([Token(Identifier, "message", 2)] +
      ([Token(Equal, "=", 2)] +
      ([Token(StringLiteral, HelloLiteral, 2)] +
      ([Token(Semicolon, ";", 2)] +
      ([Token(Identifier, "print", 3)] +
      ([Token(LParen, "(", 3)] +
      ([Token(Identifier, "message", 3)] +
      ([Token(RParen, ")", 3)] +
      ([Token(Semicolon, ";", 3)] +
      ([Token(RBrace, "}", 4)] +
      [Token(Eof, [], 5)])))))))))))))))))
  {
  }

  /** The scanner turns the program text into HelloTokens. */
  lemma HelloLexes()
    ensures Lex(HelloSource) == HelloTokens
  {
    HelloLexesLine1();
    HelloLexesLine2();
    HelloLexesLine3();
    HelloLexesLine4();
    HelloTokensListed();
  }

  /** The whole front end, text to tree: the program parses to HelloTree. */
  lemma HelloFrontEnd()
    ensures IsStream(Lex(HelloSource))
    ensures Parse(Lex(HelloSource)) == Success(HelloTree)
  {
    HelloLexes();
    HelloParses();
  }
}
