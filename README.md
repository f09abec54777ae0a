# sa front end in Dafny

A model of the front end of `sac`, the compiler for the small `sa` language:
the token model, the scanner (`Lexer`), the recursive-descent parser
(`Parser`) and the abstract syntax tree it builds. The parser pulls tokens
one at a time from the lexer and keeps one token of lookahead. It builds a
list of top-level function declarations, and each body is a list of `let`
declarations and expression statements. Expressions are string literals,
variable references and calls with at most one argument.

The model has seven modules, one per file:

- `Wrappers`: `Option` and `Result`.
- `Tokens`: token kinds, the token value and `getTokenName`.
- `Ast`: the expression, declaration and statement nodes and their accessors.
- `Lexing`: the scanner.
  - A reference definition of "the next token after position i" as pure
    functions over the source text (`NextToken`, `TokensFrom`, `Lex`), with
    lemmas about it.
  - The `Lexer` class, whose cursors `start`, `current` and `line` are
    mutable fields. Each method is proved to compute the reference
    definition.
- `Grammar`: one pure function per grammar rule over a token sequence and an
  index, with lemmas about the shapes the rules accept. It also has a round
  trip: printing a parsed tree gives back the significant tokens it was
  parsed from.
- `Parsing`: the `Parser` class over a `Lexer` object. Each parse method is
  proved to return what its grammar rule returns, and to leave the lookahead
  just past what the rule consumed. The tokens the lexer will deliver are
  kept as ghost state.
- `Milestone`: the first program named at the top of `src/main.cpp`. The
  model proves that it lexes to its 19 tokens and parses to the expected
  tree.

The C++ parser calls `exit(1)` after printing a diagnostic. Here that is a
`Failure` carrying a `ParseError`: the line it reports, when it reports one,
and the message.

## Model

| member | source | states |
|---|---|---|
| Tokens.TokenName | src/core/lib/Token.cpp:9-28 | every kind has a non-empty name, and the name is "unnamed_token" exactly for the out-of-range kind |
| Tokens.TokenNameRoundTrip | src/core/lib/Token.cpp:11-26 | the name of every real kind maps back to that kind; "unnamed_token" maps back to none |
| Tokens.TokenNameInjective | src/core/lib/Token.cpp:11-26 | two kinds with the same name are the same kind |
| Ast.DeclName | src/ast/include/Decl.h:34 | a declaration's name is the text of its name token |
| Ast.VariableName | src/ast/include/Expr.h:43 | a variable reference's name is the text of its identifier token |
| Ast.GetValue | src/ast/include/Expr.h:29-32 | the value of a literal of length two or more is its text without the first and last character, character for character; a one-character literal has an empty value |
| Ast.GetValueOfQuoted | src/ast/include/Expr.h:29-32 | putting quotes around any text and taking the value gives the text back |
| Ast.QuotedGetValue | src/ast/include/Expr.h:29-32 | a literal that opens and closes with a quote is its value quoted again |
| Lexing.IsAlpha | src/frontend/Lexer.cpp:34 | isalpha in the "C" locale: letters are ASCII, and no letter is a digit or an underscore |
| Lexing.IsIdentStart | src/frontend/Lexer.cpp:34 | a character that starts an identifier also continues one, and no digit starts one |
| Lexing.IsIdentChar | src/frontend/Lexer.cpp:129 | an identifier run stops at every blank, quote, punctuator, '-' and '/' |
| Lexing.IsBlank | src/frontend/Lexer.cpp:102-110 | no blank can begin a token: a blank is not a letter, digit, underscore, quote, punctuator, '-' or '/' |
| Lexing.KeywordKind | src/frontend/Lexer.cpp:14-18 | a word lexes to fn, let or void exactly when it is that word, and to identifier exactly when it is not a reserved word |
| Lexing.PunctuatorKind | src/frontend/Lexer.cpp:44-51 | exactly the characters ( ) { } ; = : are one-character punctuators, and each maps to its own kind: '(' to l_paren, ')' to r_paren, '{' to l_brace, '}' to r_brace, ';' to semicolon, '=' to equal, ':' to colon, and no other character to any of them |
| Lexing.LineMonotone | src/frontend/Lexer.cpp:107-110 | the line number never decreases along the text, and it stays the same over text without a newline |
| Lexing.RunEnd | src/frontend/Lexer.cpp:129-131 | a scanning loop stops at the first character that fails its test, or at the end of the text |
| Lexing.SkipTrivia | src/frontend/Lexer.cpp:98-126 | skipping trivia moves forward and stops at the end of the text or at a character that is neither blank nor the start of a comment; with Lexing.SkipTriviaSkipsOnlyTrivia and Lexing.SkipTriviaStopsOutsideComments it passes over exactly the blanks and whole line comments |
| Lexing.CommentRun | src/frontend/Lexer.cpp:111-116 | a comment opened by '//' covers every character up to, not including, the next newline |
| Lexing.SkipTriviaSkipsOnlyTrivia | src/frontend/Lexer.cpp:98-126 | every character skipped is a blank or lies inside a line comment before its newline, so no character of a token is ever skipped |
| Lexing.SkipTriviaStopsOutsideComments | src/frontend/Lexer.cpp:111-116 | skipping never stops inside a line comment: a comment is passed over all the way to its newline, which the blank case then consumes |
| Lexing.ScanAt | src/frontend/Lexer.cpp:27-59 | scanning from a position gives eof exactly at the end of the text, otherwise consumes at least one character, and stamps the token with the line at its end |
| Lexing.NextToken | src/frontend/Lexer.cpp:22-60 | the next token starts where trivia skipping stops; it is eof exactly when that is the end of the text; otherwise it is non-empty |
| Lexing.EofToken | src/frontend/Lexer.cpp:27-28 | the eof token has empty text and a line no earlier than the line of any position in the source |
| Lexing.TokensFrom | src/frontend/Lexer.cpp:27-29 | the token stream from any position ends with exactly one eof token, its last element, and has at most one token per remaining character plus the eof |
| Lexing.TokenLinesOrdered | src/frontend/Lexer.cpp:107-110 | the tokens scanned from a position are never on an earlier line than that position, and their lines never go down along the stream |
| Lexing.Lex | src/frontend/Lexer.cpp:22-60 | the tokens of a whole source: one eof at the end and no other, the first token the one after leading trivia, and lines in order |
| Lexing.DefaultTokenIsNotLexed | src/core/include/Token.h:17-27 | the default token (unknown kind, no text, line 0) that a fresh parser holds as its previous token is never a scanned token, since every scanned token is on line 1 or later |
| Lexing.EofIsSticky | src/frontend/Lexer.cpp:27-29 | eof comes exactly when only trivia is left; the eof token has empty text and the last line; scanning again from where it stops gives the same eof |
| Lexing.LexemeIsSlice | src/frontend/Lexer.cpp:89-96 | every token but an error token has as text exactly the source it spans; an error token carries one of the two error messages |
| Lexing.KeywordsAreExact | src/frontend/Lexer.cpp:128-141 | a word token comes exactly when the token starts with a letter or underscore; it is the longest run of identifier characters; it is a keyword exactly when the whole run spells one |
| Lexing.IdentifierRun | src/frontend/Lexer.cpp:128-141 | a text that is one identifier run lexes to a single token spanning all of it |
| Lexing.KeywordPrefixIsIdentifier | src/frontend/Lexer.cpp:14-18 | "functions" and "fnx" lex as identifiers, not as the keyword fn |
| Lexing.KeywordAlone | src/frontend/Lexer.cpp:14-18 | "fn" alone lexes as the keyword fn |
| Lexing.StringLiteralShape | src/frontend/Lexer.cpp:143-156 | a string literal opens and closes with a quote and has no quote inside; starting at a quote gives an unterminated-string error at the end of the text exactly when no closing quote follows |
| Lexing.StringLiteralRoundTrip | src/frontend/Lexer.cpp:143-156 | any quote-free text in quotes lexes to one string literal token over the whole text, whose value is the text |
| Lexing.LexedStringValue | src/ast/include/Expr.h:29-32 | the value of every string literal the scanner produces has no quote, and quoting it again gives the token's text |
| Lexing.ArrowAndStrayCharacters | src/frontend/Lexer.cpp:52-59 | '-' followed by '>' is exactly an arrow of two characters; any other character outside the token alphabet is a one-character "Unexpected character." error |
| Lexing.ScanMakesProgress | src/frontend/Lexer.cpp:68-70 | scanning never moves back, every token other than eof consumes input, and token lines never decrease |
| Lexing.BlanksSkipped | src/frontend/Lexer.cpp:98-126 | trivia skipping over a run of blanks stops exactly at the first character that is neither blank nor '/' |
| Lexing.WordToken | src/frontend/Lexer.cpp:34-36 | after blanks, a maximal identifier run is the next token, with its keyword kind, its text and its line |
| Lexing.PunctuatorToken | src/frontend/Lexer.cpp:44-51 | after blanks, a punctuator character is the next token, one character long |
| Lexing.ArrowToken | src/frontend/Lexer.cpp:52-55 | after blanks, "->" is the next token, an arrow |
| Lexing.StringToken | src/frontend/Lexer.cpp:143-156 | after blanks, a quote up to the next quote is the next token, a string literal including both quotes |
| Lexing.Lexer.constructor | src/frontend/Lexer.cpp:20 | a new lexer stands at the start of its source on line 1 |
| Lexing.Lexer.ScanNextToken | src/frontend/Lexer.cpp:22-60 | returns the reference next token from the cursor and leaves start and current at its start and end, with line the line there |
| Lexing.Lexer.ScanToken | src/frontend/Lexer.cpp:27-41 | from a cursor not on a blank, returns the reference token there and its end |
| Lexing.Lexer.ScanOperator | src/frontend/Lexer.cpp:44-59 | for a punctuator, the arrow, or a stray character, returns the reference token and its end |
| Lexing.Lexer.Advance | src/frontend/Lexer.cpp:68-70 | returns the character under the cursor and moves past it |
| Lexing.Lexer.Peek | src/frontend/Lexer.cpp:72-75 | the character under the cursor, or NUL at the end |
| Lexing.Lexer.PeekNext | src/frontend/Lexer.cpp:77-80 | the character after the cursor, or NUL when there is none |
| Lexing.Lexer.Match | src/frontend/Lexer.cpp:82-87 | consumes the expected character exactly when it is under the cursor, and reports whether it did |
| Lexing.Lexer.MakeToken | src/frontend/Lexer.cpp:89-92 | a token of the given kind whose text is the source between start and current, on the current line |
| Lexing.Lexer.MakeErrorToken | src/frontend/Lexer.cpp:94-96 | an unknown-kind token whose text is the message, on the current line |
| Lexing.Lexer.SkipWhitespaceAndComments | src/frontend/Lexer.cpp:98-126 | moves the cursor to where the reference trivia skipping stops, counting the newlines passed |
| Lexing.Lexer.SkipLineComment | src/frontend/Lexer.cpp:111-116 | moves the cursor to the newline that ends the comment, or to the end of the text |
| Lexing.Lexer.ScanIdentifierOrKeyword | src/frontend/Lexer.cpp:128-141 | consumes the longest run of identifier characters and returns it as a keyword when it spells one, as an identifier otherwise |
| Lexing.Lexer.ScanStringLiteral | src/frontend/Lexer.cpp:143-156 | returns the reference string literal or unterminated-string token and its end, counting the newlines inside |
| Lexing.Lexer.SkipStringBody | src/frontend/Lexer.cpp:144-147 | moves the cursor to the next quote, or to the end of the text, counting the newlines passed |
| Grammar.ExprAt | src/frontend/lib/Parser.cpp:114-117 | a parsed expression consumes at least one token and never the final eof |
| Grammar.PrimaryAt | src/frontend/lib/Parser.cpp:119-143 | a parsed primary expression consumes at least one token and never the final eof |
| Grammar.ArgsAt | src/frontend/lib/Parser.cpp:128-133 | parsing arguments never moves back and stays inside the stream |
| Grammar.VarDeclStmtAt | src/frontend/lib/Parser.cpp:95-106 | a parsed let statement consumes tokens and never the final eof |
| Grammar.ExprStmtAt | src/frontend/lib/Parser.cpp:108-112 | a parsed expression statement consumes tokens and never the final eof |
| Grammar.StatementAt | src/frontend/lib/Parser.cpp:88-93 | a parsed statement consumes tokens and never the final eof |
| Grammar.BodyAt | src/frontend/lib/Parser.cpp:78-81 | the statement loop stops only at '}' or eof |
| Grammar.SignatureAt | src/frontend/lib/Parser.cpp:70-76 | a parsed signature is exactly six tokens |
| Grammar.SignatureTailAt | src/frontend/lib/Parser.cpp:74-76 | a parsed return type and opening brace is exactly three tokens |
| Grammar.FunctionDefinitionAt | src/frontend/lib/Parser.cpp:69-86 | a parsed function definition consumes tokens and never the final eof |
| Grammar.TopLevelDeclAt | src/frontend/lib/Parser.cpp:60-67 | a parsed top-level declaration consumes tokens and never the final eof |
| Grammar.ProgramAt | src/frontend/lib/Parser.cpp:18-26 | a parsed program stops exactly at eof |
| Grammar.Parse | src/frontend/lib/Parser.cpp:18-26 | the value parse returns: the empty program for a stream that is only eof, only function declarations on success, and the top-level error when the first token is neither 'fn' nor eof |
| Grammar.PrimaryShape | src/frontend/lib/Parser.cpp:119-143 | a primary is a string literal, a variable (identifier not followed by '('), or a call of that identifier with the arguments up to ')'; any other token fails with "Expected an expression." |
| Grammar.ArgsShape | src/frontend/lib/Parser.cpp:128-133 | a call has no argument exactly when ')' follows '(' at once, and otherwise one argument, which is a full expression |
| Grammar.ParsedCallsHaveAtMostOneArg | src/frontend/lib/Parser.cpp:128-133 | every parsed expression has calls of at most one argument at every depth |
| Grammar.StatementShape | src/frontend/lib/Parser.cpp:88-112 | a statement is a variable declaration exactly when it starts with 'let', named by the identifier after it and followed by '=' and the initializer; otherwise it is an expression statement; both end with ';' |
| Grammar.FunctionDefinitionShape | src/frontend/lib/Parser.cpp:69-86 | a function definition is exactly identifier ( ) -> void { statements }, named by the identifier, with the body in order; reaching eof before '}' fails with "Expected '}' after function body." |
| Grammar.ProgramIsFunctions | src/frontend/lib/Parser.cpp:60-67 | every declaration of a successful parse is a function, and a top-level token other than 'fn' or eof fails with the top-level message |
| Grammar.ExprPrintsBack | src/frontend/lib/Parser.cpp:119-143 | printing a parsed expression gives back exactly the significant tokens it was parsed from |
| Grammar.ArgsPrintBack | src/frontend/lib/Parser.cpp:128-133 | printing parsed arguments gives back exactly their tokens |
| Grammar.StmtPrintsBack | src/frontend/lib/Parser.cpp:88-112 | printing a parsed statement gives back exactly its tokens |
| Grammar.BodyPrintsBack | src/frontend/lib/Parser.cpp:78-81 | printing a parsed body gives back exactly its tokens |
| Grammar.FunctionPrintsBack | src/frontend/lib/Parser.cpp:60-86 | printing a parsed function definition gives back exactly its tokens, from 'fn' to '}' |
| Grammar.ProgramPrintsBack | src/frontend/lib/Parser.cpp:18-26 | printing a parsed program gives back exactly the tokens before eof |
| Parsing.Parser.constructor | src/frontend/lib/Parser.cpp:12-15 | a new parser reads the tokens the lexer still has to deliver, with the first one as lookahead |
| Parsing.Parser.Advance | src/frontend/lib/Parser.cpp:30-33 | the lookahead becomes the previous token and the next token becomes the lookahead |
| Parsing.Parser.Consume | src/frontend/lib/Parser.cpp:35-43 | advances exactly when the lookahead has the kind; otherwise fails with the message and the line of the previous token |
| Parsing.Parser.Match | src/frontend/lib/Parser.cpp:45-51 | advances exactly when the lookahead has the kind, reports whether it did, and otherwise changes nothing |
| Parsing.Parser.Parse | src/frontend/lib/Parser.cpp:18-26 | returns the program rule's outcome and, on success, stops at eof |
| Parsing.Parser.ParseTopLevelDecl | src/frontend/lib/Parser.cpp:60-67 | returns the top-level declaration rule's outcome and stops after what it consumed |
| Parsing.Parser.ParseFunctionDefinition | src/frontend/lib/Parser.cpp:69-86 | returns the function definition rule's outcome and stops after the closing brace |
| Parsing.Parser.ParseSignature | src/frontend/lib/Parser.cpp:70-76 | returns the signature rule's outcome, the function name, and stops after '{' |
| Parsing.Parser.ParseSignatureTail | src/frontend/lib/Parser.cpp:74-76 | returns the return-type rule's outcome and stops after '{' |
| Parsing.Parser.ParseBody | src/frontend/lib/Parser.cpp:78-81 | returns the statements the body rule collects and stops at '}' or eof |
| Parsing.Parser.ParseStatement | src/frontend/lib/Parser.cpp:88-93 | returns the statement rule's outcome and stops after ';' |
| Parsing.Parser.ParseVarDeclStatement | src/frontend/lib/Parser.cpp:95-106 | returns the let-statement rule's outcome and stops after ';' |
| Parsing.Parser.ParseExprStatement | src/frontend/lib/Parser.cpp:108-112 | returns the expression-statement rule's outcome and stops after ';' |
| Parsing.Parser.ParseExpression | src/frontend/lib/Parser.cpp:114-117 | returns the expression rule's outcome and stops after the expression |
| Parsing.Parser.ParsePrimaryExpression | src/frontend/lib/Parser.cpp:119-143 | returns the primary rule's outcome: literal, variable or call, and stops after it |
| Parsing.ChainFrom | src/frontend/lib/Parser.cpp:30-33 | pulling tokens one by one from a lexer at any position yields exactly the reference token stream from there |
| Parsing.ParseSource | src/main.cpp:62-64 | building a lexer on a source, a parser on the lexer, and parsing gives exactly the grammar's parse of the lexed tokens |
| Milestone.HelloLexes | src/main.cpp:16-19 | the milestone program lexes to its 19 tokens, with their lines, and eof on line 5 |
| Milestone.HelloLet | src/frontend/lib/Parser.cpp:95-106 | its let statement parses to a variable declaration named message, initialized with the string literal |
| Milestone.HelloCall | src/frontend/lib/Parser.cpp:119-138 | its print statement parses to a call of print with the variable message as its one argument |
| Milestone.HelloParses | src/main.cpp:16-19 | its tokens parse to one function main whose body is the let statement and the call |
| Milestone.HelloValue | src/main.cpp:17 | the literal's value in the tree is Hello, sa! without the quotes |
| Milestone.HelloFrontEnd | src/main.cpp:62-64 | the whole front end turns the milestone program's text into that tree |

## Left out

- Code generation, the visitor used for double dispatch, and the LLVM back end are not part of this model.
- `main`'s file reading, argument checking and exit codes are left out: they are I/O. `Parsing.ParseSource` takes the source text as a parameter.
- The diagnostic text written to standard error is left out. A syntax error becomes a `ParseError` value carrying the same message, and the reported line where the code reports one. After a failure the parser's position is left unconstrained, because the source exits at that point.
- Two syntax errors carry no line: the missing top-level declaration and the missing expression. The code prints these two without a line. Everywhere else the line is the previous token's, as `consume` does it (src/frontend/lib/Parser.cpp:40); before any token is consumed that is the default token's line 0.
- `isalpha` and `isalnum` are taken in the "C" locale: ASCII letters and digits only. Characters are Dafny `char`s, not bytes.
- Token lines and the lexer's counters are unbounded naturals. The 32-bit `unsigned int` fields are not modelled, and a source with more than 2^32 lines is out of scope.
- A token's lexeme is a copy of a slice of the source, not a view into a buffer. Sharing and lifetimes are not modelled.
- `Expr` deriving from `Stmt` in C++ is modelled as separate `Expr` and `Stmt` datatypes. An `ExprStmt` wraps an expression, which is how the parser uses it. The `unique_ptr` ownership of nodes is not modelled.
- The token kinds come from the names in `getTokenName`; the `TokenKind.def` list itself is not part of this model. `NumTokens` stands for any value outside the enumeration, which is where "unnamed_token" comes from.
- Parsing.Parser.Advance: requires the lookahead not to be eof. In the source, advancing at eof would ask the lexer again and get eof again. No grammar rule advances over eof, because every `consume` and `match` call names a kind other than eof.
- Parsing.Parser.Match: requires a kind other than eof, which every call in the parser meets.
- Parsing.Parser.Consume: requires a kind other than eof, which every call in the parser meets.
- `ParseSignature`, `ParseSignatureTail` and `ParseBody` split `parseFunctionDefinition` into three methods. `ScanToken`, `ScanOperator`, `SkipLineComment` and `SkipStringBody` split the lexer's longer member functions the same way. The statements each executes are the source's, in the same order.
- Ast.GetValue: requires a lexeme of at least one character. On an empty lexeme `substr(1, ...)` throws `std::out_of_range`, and exceptions are not modelled. Every string literal the scanner produces has at least two characters (`Lexing.StringLiteralShape`), so the parser never builds such a node.
- `isAtEnd` of the lexer and of the parser are modelled as one-line predicates without a contract of their own; the loops that call them carry the invariants.
- Lexing.Lexer.ScanToken: requires the cursor not to stand on a blank. `ScanNextToken` establishes this by skipping trivia before calling it.
- Lexing.Lexer.ScanOperator: requires its character to be the one just consumed, and not a letter, underscore, quote or newline. `ScanToken` calls it only then.
- `Milestone.HelloSource` is the milestone program with four-space indentation and a final newline. The comment in `src/main.cpp` shows it indented by one more space, which changes no token except the column, and columns are not tracked.
