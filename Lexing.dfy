/** The scanner of src/frontend/Lexer.cpp.

    The first half is a reference definition of "the next token": pure
    functions over the source text and a cursor position, and lemmas stating
    what the scanner promises (maximal munch, exact keywords, string literal
    shape, eof forever, progress, line counting). The second half is the
    Lexer class itself, with the three cursors start, current and line as
    mutable fields and one method per member function of the C++ class; its
    methods are proved to compute exactly the reference definition. */
module Lexing {
  import opened Wrappers
  import opened Tokens
  import opened Ast

  // ---------------------------------------------------------------------------
  // Character classes. isalpha and isalnum are taken in the "C" locale, that
  // is, ASCII letters and digits only.

  /** isalpha: the ASCII letters, which are neither digits nor underscores. */
  predicate IsAlpha(c: char)
    ensures IsAlpha(c) ==> c as int < 128
    ensures IsAlpha(c) ==> !IsDigit(c) && c != '_'
  {
    'a' <= c <= 'z' || 'A' <= c <= 'Z'
  }

  predicate IsDigit(c: char) { '0' <= c <= '9' }

  /** A character that may begin an identifier or keyword: it also continues
      one, and it is never a digit. */
  predicate IsIdentStart(c: char)
    ensures IsIdentStart(c) ==> IsIdentChar(c)
    ensures IsIdentStart(c) ==> !IsDigit(c)
  {
    IsAlpha(c) || c == '_'
  }

  /** A character that may continue an identifier or keyword. A run of them
      stops at every blank, quote, punctuator, '-' and '/'. */
  predicate IsIdentChar(c: char)
    ensures IsIdentChar(c) ==> !IsBlank(c) && c != '"' && c != '-' && c != '/'
    ensures IsIdentChar(c) ==> PunctuatorKind(c).None?
  {
    IsAlpha(c) || IsDigit(c) || c == '_'
  }

  /** Whitespace that is skipped between tokens. No blank can begin a token:
      it is not a letter, digit or underscore, a quote, a punctuator, '-' or
      '/'. */
  predicate IsBlank(c: char)
    ensures IsBlank(c) ==> !IsAlpha(c) && !IsDigit(c) && c != '_'
    ensures IsBlank(c) ==> c != '"' && c != '-' && c != '/'
    ensures IsBlank(c) ==> PunctuatorKind(c).None?
  {
    c == ' ' || c == '\r' || c == '\t' || c == '\n'
  }

  predicate NotNewline(c: char) { c != '\n' }

  predicate NotQuote(c: char) { c != '"' }

  /** Position i starts a line comment: a slash followed by another. */
  predicate StartsComment(s: string, i: nat)
    requires i < |s|
  {
    s[i] == '/' && i + 1 < |s| && s[i + 1] == '/'
  }

  const UnexpectedCharacter := "Unexpected character."
  const UnterminatedString := "Unterminated string."

  /** The reserved words and the kinds they lex to. */
  const KeywordMap: map<string, TokenKind> := map["fn" := KwFn, "let" := KwLet, "void" := KwVoid]

  /** The kind of an identifier run: a keyword kind when the whole run is
      that reserved word, identifier otherwise. */
  function KeywordKind(text: string): (k: TokenKind)
    ensures k == KwFn <==> text == "fn"
    ensures k == KwLet <==> text == "let"
    ensures k == KwVoid <==> text == "void"
    ensures k == Identifier <==> text !in KeywordMap
  {
    if text in KeywordMap then KeywordMap[text] else Identifier
  }

  /** The single-character punctuators. */
  function PunctuatorKind(c: char): (k: Option<TokenKind>)
    ensures k.Some? ==> k.value in {LParen, RParen, LBrace, RBrace, Semicolon, Equal, Colon}
    ensures k.None? <==> c !in "(){};=:"
    ensures k == Some(LParen) <==> c == '('
    ensures k == Some(RParen) <==> c == ')'
    ensures k == Some(LBrace) <==> c == '{'
    ensures k == Some(RBrace) <==> c == '}'
    ensures k == Some(Semicolon) <==> c == ';'
    ensures k == Some(Equal) <==> c == '='
    ensures k == Some(Colon) <==> c == ':'
  {
    if c == '(' then Some(LParen)
    else if c == ')' then Some(RParen)
    else if c == '{' then Some(LBrace)
    else if c == '}' then Some(RBrace)
    else if c == ';' then Some(Semicolon)
    else if c == '=' then Some(Equal)
    else if c == ':' then Some(Colon)
    else None
  }

  // ---------------------------------------------------------------------------
  // Line numbers.

  /** The number of newline characters among the first k characters of s. */
  function NewlinesBefore(s: string, k: nat): nat
    requires k <= |s|
  {
    if k == 0 then 0 else NewlinesBefore(s, k - 1) + (if s[k - 1] == '\n' then 1 else 0)
  }

  /** The line the cursor is on once k characters have been consumed. */
  function LineAt(s: string, k: nat): nat
    requires k <= |s|
  {
    1 + NewlinesBefore(s, k)
  }

  /** Lines never go down as the cursor moves forward, and they go up exactly
      by the newlines passed over. */
  lemma {:induction false} LineMonotone(s: string, j: nat, k: nat)
    requires j <= k <= |s|
    ensures LineAt(s, j) <= LineAt(s, k)
    ensures (forall m :: j <= m < k ==> s[m] != '\n') ==> LineAt(s, j) == LineAt(s, k)
  {
    if j < k {
      LineMonotone(s, j, k - 1);
    }
  }

  // ---------------------------------------------------------------------------
  // The reference scanner.

  /** The first position at or after i whose character fails p (or the end). */
  function RunEnd(s: string, i: nat, p: char -> bool): (r: nat)
    requires i <= |s|
    ensures i <= r <= |s|
    ensures forall k :: i <= k < r ==> p(s[k])
    ensures r < |s| ==> !p(s[r])
    decreases |s| - i
  {
    if i == |s| || !p(s[i]) then i else RunEnd(s, i + 1, p)
  }

  /** Position k lies inside a line comment opened at or after i: the "//"
      starts at some c between i and k, and no newline comes between c and k. */
  ghost predicate InComment(s: string, i: nat, k: nat)
    requires k < |s|
  {
    exists c :: i <= c <= k && StartsComment(s, c) && forall m :: c <= m <= k ==> NotNewline(s[m])
  }

  /** A comment opening at i runs up to its newline. */
  lemma CommentRun(s: string, i: nat)
    requires i < |s| && StartsComment(s, i)
    ensures forall k :: i <= k < RunEnd(s, i, NotNewline) ==> InComment(s, i, k)
  {
    forall k | i <= k < RunEnd(s, i, NotNewline)
      ensures InComment(s, i, k)
    {
      assert forall m :: i <= m <= k ==> NotNewline(s[m]);
    }
  }

  /** Where the next token starts: past every blank and every line comment. */
  function SkipTrivia(s: string, i: nat): (r: nat)
    requires i <= |s|
    ensures i <= r <= |s|
    ensures r < |s| ==> !IsBlank(s[r]) && !StartsComment(s, r)
    decreases |s| - i
  {
    if i == |s| then i
    else if IsBlank(s[i]) then SkipTrivia(s, i + 1)
    else if StartsComment(s, i) then
      var e := RunEnd(s, i, NotNewline);
      assert NotNewline(s[i]);
      SkipTrivia(s, e)
    else i
  }

  /** Skipping trivia passes over blanks and the text of line comments, and
      nothing else: no character of a token is ever skipped. */
  lemma {:induction false} SkipTriviaSkipsOnlyTrivia(s: string, i: nat)
    requires i <= |s|
    ensures forall k :: i <= k < SkipTrivia(s, i) ==> IsBlank(s[k]) || InComment(s, i, k)
    decreases |s| - i
  {
    if i < |s| && IsBlank(s[i]) {
      SkipTriviaSkipsOnlyTrivia(s, i + 1);
      forall k | i + 1 <= k < SkipTrivia(s, i) && !IsBlank(s[k])
        ensures InComment(s, i, k)
      {
        var c :| i + 1 <= c <= k && StartsComment(s, c) && forall m :: c <= m <= k ==> NotNewline(s[m]);
      }
    } else if i < |s| && StartsComment(s, i) {
      var e := RunEnd(s, i, NotNewline);
      assert NotNewline(s[i]);
      CommentRun(s, i);
      SkipTriviaSkipsOnlyTrivia(s, e);
      forall k | e <= k < SkipTrivia(s, i) && !IsBlank(s[k])
        ensures InComment(s, i, k)
      {
        var c :| e <= c <= k && StartsComment(s, c) && forall m :: c <= m <= k ==> NotNewline(s[m]);
      }
    }
  }

  /** Skipping trivia never stops inside a line comment: a comment is passed
      over all the way to its newline. */
  lemma {:induction false} SkipTriviaStopsOutsideComments(s: string, i: nat)
    requires i <= |s|
    ensures SkipTrivia(s, i) < |s| ==> !InComment(s, i, SkipTrivia(s, i))
    decreases |s| - i
  {
    var r := SkipTrivia(s, i);
    if r < |s| {
      if IsBlank(s[i]) {
        SkipTriviaStopsOutsideComments(s, i + 1);
      } else if StartsComment(s, i) {
        var e := RunEnd(s, i, NotNewline);
        SkipTriviaStopsOutsideComments(s, e);
        assert e < |s| && !NotNewline(s[e]) && e <= r;
      }
    }
  }

  /** The eof token: empty text, on the last line of the source. */
  function EofToken(s: string): (t: Token)
    ensures t.kind == Eof && t.lexeme == []
    ensures forall k :: 0 <= k <= |s| ==> LineAt(s, k) <= t.line
  {
    assert forall k :: 0 <= k <= |s| ==> LineAt(s, k) <= LineAt(s, |s|) by {
      forall k | 0 <= k <= |s| {
        LineMonotone(s, k, |s|);
      }
    }
    Token(Eof, [], LineAt(s, |s|))
  }

  /** One scanner step: the token, where its text starts, and where the
      cursor stands after it. */
  datatype Scan = Scan(token: Token, start: nat, end: nat)

  /** The token whose text begins at b (with nothing skipped first). */
  function ScanAt(s: string, b: nat): (r: Scan)
    requires b <= |s|
    ensures r.start == b <= r.end <= |s|
    ensures r.token.kind == Eof <==> b == |s|
    ensures r.token.kind != Eof ==> b < r.end
    ensures r.token.line == LineAt(s, r.end)
  {
    if b == |s| then Scan(EofToken(s), b, b)
    else if IsIdentStart(s[b]) then
      var e := RunEnd(s, b + 1, IsIdentChar);
      Scan(Token(KeywordKind(s[b..e]), s[b..e], LineAt(s, e)), b, e)
    else if s[b] == '"' then
      var q := RunEnd(s, b + 1, NotQuote);
      if q == |s| then Scan(Token(Unknown, UnterminatedString, LineAt(s, q)), b, q)
      else Scan(Token(StringLiteral, s[b..q + 1], LineAt(s, q + 1)), b, q + 1)
    else if s[b] == '-' && b + 1 < |s| && s[b + 1] == '>' then
      Scan(Token(Arrow, s[b..b + 2], LineAt(s, b + 2)), b, b + 2)
    else
      match PunctuatorKind(s[b])
      case Some(k) => Scan(Token(k, s[b..b + 1], LineAt(s, b + 1)), b, b + 1)
      case None => Scan(Token(Unknown, UnexpectedCharacter, LineAt(s, b + 1)), b, b + 1)
  }

  /** The token the scanner produces when its cursor is at i. */
  function NextToken(s: string, i: nat): (r: Scan)
    requires i <= |s|
    ensures r.start == SkipTrivia(s, i)
    ensures i <= r.start <= r.end <= |s|
    ensures r.token.kind == Eof <==> r.start == |s|
    ensures r.token.kind != Eof ==> r.start < r.end
    ensures r.token.line == LineAt(s, r.end)
  {
    ScanAt(s, SkipTrivia(s, i))
  }

  /** The whole token stream from position i: every token up to and including
      the first eof. */
  function TokensFrom(s: string, i: nat): (ts: seq<Token>)
    requires i <= |s|
    ensures 0 < |ts| <= |s| - i + 1
    ensures ts[|ts| - 1] == EofToken(s)
    ensures forall k :: 0 <= k < |ts| - 1 ==> ts[k].kind != Eof
    decreases |s| - i
  {
    var r := NextToken(s, i);
    if r.token.kind == Eof then [r.token] else [r.token] + TokensFrom(s, r.end)
  }

  /** The token lines of a stream never go down, and none is before the line
      the stream starts on. */
  lemma {:induction false} TokenLinesOrdered(s: string, i: nat)
    requires i <= |s|
    ensures forall k :: 0 <= k < |TokensFrom(s, i)| ==> LineAt(s, i) <= TokensFrom(s, i)[k].line
    ensures forall j, k :: 0 <= j <= k < |TokensFrom(s, i)| ==>
              TokensFrom(s, i)[j].line <= TokensFrom(s, i)[k].line
    decreases |s| - i
  {
    var r := NextToken(s, i);
    ScanMakesProgress(s, i);
    if r.token.kind != Eof {
      TokenLinesOrdered(s, r.end);
      LineMonotone(s, i, r.end);
      assert TokensFrom(s, i) == [r.token] + TokensFrom(s, r.end);
    }
  }

  /** The token stream of a whole source text: one eof at the end and nowhere
      else, starting with the first token after leading trivia, with lines
      in order. */
  function Lex(s: string): (ts: seq<Token>)
    ensures 0 < |ts| && ts[|ts| - 1] == EofToken(s)
    ensures forall k :: 0 <= k < |ts| - 1 ==> ts[k].kind != Eof
    ensures ts[0] == NextToken(s, 0).token
    ensures forall j, k :: 0 <= j <= k < |ts| ==> ts[j].line <= ts[k].line
  {
    TokenLinesOrdered(s, 0);
    TokensFrom(s, 0)
  }

  // ---------------------------------------------------------------------------
  // What the scanner promises.

  /** Once only trivia is left the scanner answers eof, with empty text, and
      answering again from where it stopped gives the same eof. */
  lemma EofIsSticky(s: string, i: nat)
    requires i <= |s|
    ensures NextToken(s, i).token.kind == Eof <==> SkipTrivia(s, i) == |s|
    ensures NextToken(s, i).token.kind == Eof ==>
              NextToken(s, i).token == EofToken(s) && NextToken(s, i).end == |s|
              && NextToken(s, NextToken(s, i).end) == NextToken(s, i)
  {
  }

  /** Every token but an error token has as text exactly the source between
      its start and the cursor; an error token carries its message instead. */
  lemma LexemeIsSlice(s: string, i: nat)
    requires i <= |s|
    ensures var r := NextToken(s, i);
      r.token.kind != Unknown ==> r.token.lexeme == s[r.start..r.end]
    ensures var r := NextToken(s, i);
      r.token.kind == Unknown ==>
        r.token.lexeme == UnexpectedCharacter || r.token.lexeme == UnterminatedString
  {
  }

  /** An identifier or keyword is the longest run of identifier characters
      after a letter or underscore, and it is a keyword exactly when the whole
      run spells one. */
  lemma KeywordsAreExact(s: string, i: nat)
    requires i <= |s|
    ensures var r := NextToken(s, i);
      r.token.kind in {Identifier, KwFn, KwLet, KwVoid} <==>
        r.start < |s| && IsIdentStart(s[r.start])
    ensures var r := NextToken(s, i);
      r.token.kind in {Identifier, KwFn, KwLet, KwVoid} ==>
        && (forall k :: r.start < k < r.end ==> IsIdentChar(s[k]))
        && (r.end == |s| || !IsIdentChar(s[r.end]))
        && r.token.kind == KeywordKind(r.token.lexeme)
  {
  }

  /** A whole run of identifier characters lexes to one token, which is a
      keyword only when the run spells one: "functions" and "fnx" start with
      the keyword fn but are identifiers. */
  lemma {:induction false} IdentifierRun(s: string)
    requires |s| > 0 && IsIdentStart(s[0])
    requires forall k :: 0 < k < |s| ==> IsIdentChar(s[k])
    ensures NextToken(s, 0).token == Token(KeywordKind(s), s, 1)
    ensures NextToken(s, 0).end == |s|
  {
    assert SkipTrivia(s, 0) == 0;
    assert RunEnd(s, 1, IsIdentChar) == |s|;
    assert s[0..|s|] == s;
    LineMonotone(s, 0, |s|);
  }

  lemma KeywordPrefixIsIdentifier()
    ensures NextToken("functions", 0).token == Token(Identifier, "functions", 1)
    ensures NextToken("fnx", 0).token == Token(Identifier, "fnx", 1)
  {
    IdentifierRun("functions");
    IdentifierRun("fnx");
  }

  lemma KeywordAlone()
    ensures NextToken("fn", 0).token == Token(KwFn, "fn", 1)
  {
    IdentifierRun("fn");
  }

  /** A string literal's text opens and closes with a quote and has no quote
      in between; the scanner reports an unterminated string exactly when no
      closing quote follows the opening one. */
  lemma StringLiteralShape(s: string, i: nat)
    requires i <= |s|
    ensures var r := NextToken(s, i); var lex := r.token.lexeme;
      r.token.kind == StringLiteral ==>
        && |lex| >= 2 && lex[0] == '"' && lex[|lex| - 1] == '"'
        && (forall k :: 0 < k < |lex| - 1 ==> lex[k] != '"')
    ensures var r := NextToken(s, i);
      r.start < |s| && s[r.start] == '"' ==>
        ((r.token.kind == Unknown && r.token.lexeme == UnterminatedString && r.end == |s|)
         <==> (forall k :: r.start < k < |s| ==> s[k] != '"'))
  {
    var r := NextToken(s, i);
    var b := r.start;
    assert r == ScanAt(s, b);
    if b < |s| && s[b] == '"' {
      var q := RunEnd(s, b + 1, NotQuote);
      if q < |s| {
        assert !NotQuote(s[q]);
        var lex := s[b..q + 1];
        assert r.token.lexeme == lex && |lex| == q + 1 - b;
        assert lex[0] == s[b] && lex[|lex| - 1] == s[q];
        assert forall k :: 0 < k < |lex| - 1 ==> lex[k] == s[b + k];
      }
    }
  }

  /** A literal built from any quote-free text lexes back to one string
      literal token, and the AST's getValue recovers the text. */
  lemma StringLiteralRoundTrip(value: string)
    requires forall k :: 0 <= k < |value| ==> value[k] != '"'
    ensures var s := Quoted(value); var r := NextToken(s, 0);
      && r.token == Token(StringLiteral, s, LineAt(s, |s|))
      && r.end == |s|
      && GetValue(StringLiteralExpr(r.token)) == value
  {
    var s := Quoted(value);
    assert SkipTrivia(s, 0) == 0;
    var q := RunEnd(s, 1, NotQuote);
    assert forall k :: 1 <= k < |s| - 1 ==> NotQuote(s[k]) by {
      forall k | 1 <= k < |s| - 1 ensures NotQuote(s[k]) {
        assert s[k] == value[k - 1];
      }
    }
    assert !NotQuote(s[|s| - 1]);
    assert q == |s| - 1;
    assert s[0..q + 1] == s;
    GetValueOfQuoted(value, LineAt(s, |s|));
  }

  /** The value of any string literal token the scanner produces has no quote
      in it, and quoting it again gives the token's text back. */
  lemma LexedStringValue(s: string, i: nat)
    requires i <= |s|
    requires NextToken(s, i).token.kind == StringLiteral
    ensures var e := StringLiteralExpr(NextToken(s, i).token);
      && Quoted(GetValue(e)) == e.strToken.lexeme
      && forall k :: 0 <= k < |GetValue(e)| ==> GetValue(e)[k] != '"'
  {
    StringLiteralShape(s, i);
    var e := StringLiteralExpr(NextToken(s, i).token);
    QuotedGetValue(e);
  }

  /** '-' followed by '>' is an arrow; a lone '-', a '/' that does not open a
      comment and every character outside the token alphabet are one-character
      "Unexpected character." errors. */
  lemma ArrowAndStrayCharacters(s: string, i: nat)
    requires i <= |s|
    ensures var r := NextToken(s, i);
      r.token.kind == Arrow <==>
        r.start + 1 < |s| && s[r.start] == '-' && s[r.start + 1] == '>'
    ensures var r := NextToken(s, i);
      r.token.kind == Arrow ==> r.token.lexeme == "->" && r.end == r.start + 2
    ensures var r := NextToken(s, i);
      r.start < |s| && !IsIdentStart(s[r.start]) && s[r.start] != '"'
      && s[r.start] !in "(){};=:" && r.token.kind != Arrow ==>
        r.token == Token(Unknown, UnexpectedCharacter, LineAt(s, r.start + 1))
        && r.end == r.start + 1
  {
  }

  /** The default token a parser starts with as its previous token (unknown
      kind, no text, line 0) is never a token the scanner returns: every
      scanned token is on line 1 or later. */
  lemma DefaultTokenIsNotLexed(s: string, i: nat)
    requires i <= |s|
    ensures DefaultToken.kind == Unknown && DefaultToken.line == 0
    ensures NextToken(s, i).token.line >= 1
    ensures NextToken(s, i).token != DefaultToken
  {
  }

  /** Scanning never moves backwards, and a token other than eof always
      consumes at least one character. */
  lemma ScanMakesProgress(s: string, i: nat)
    requires i <= |s|
    ensures NextToken(s, i).end >= i
    ensures NextToken(s, i).token.kind != Eof ==> NextToken(s, i).end > i
    ensures LineAt(s, i) <= NextToken(s, i).token.line
  {
    LineMonotone(s, i, NextToken(s, i).end);
  }

  /** Conversely, what the text says the scanner produces. Blanks in front of
      a character that is neither blank nor a slash are skipped exactly. */
  lemma {:induction false} BlanksSkipped(s: string, i: nat, b: nat)
    requires i <= b <= |s|
    requires forall k :: i <= k < b ==> IsBlank(s[k])
    requires b < |s| ==> !IsBlank(s[b]) && s[b] != '/'
    ensures SkipTrivia(s, i) == b
    decreases b - i
  {
    if i < b {
      BlanksSkipped(s, i + 1, b);
    }
  }

  /** Blanks, then a maximal run of identifier characters after a letter or
      underscore: one identifier or keyword token spanning the run. */
  lemma WordToken(s: string, i: nat, b: nat, e: nat)
    requires i <= b < e <= |s|
    requires forall k :: i <= k < b ==> IsBlank(s[k])
    requires IsIdentStart(s[b])
    requires forall k :: b < k < e ==> IsIdentChar(s[k])
    requires e < |s| ==> !IsIdentChar(s[e])
    ensures NextToken(s, i) == Scan(Token(KeywordKind(s[b..e]), s[b..e], LineAt(s, e)), b, e)
  {
    BlanksSkipped(s, i, b);
    assert RunEnd(s, b + 1, IsIdentChar) == e;
  }

  /** Blanks, then one of the single-character punctuators: that token. */
  lemma PunctuatorToken(s: string, i: nat, b: nat)
    requires i <= b < |s|
    requires forall k :: i <= k < b ==> IsBlank(s[k])
    requires s[b] in "(){};=:"
    ensures PunctuatorKind(s[b]).Some?
    ensures NextToken(s, i) == Scan(Token(PunctuatorKind(s[b]).value, s[b..b + 1], LineAt(s, b + 1)), b, b + 1)
  {
    BlanksSkipped(s, i, b);
  }

  /** Blanks, then '-' and '>': an arrow. */
  lemma ArrowToken(s: string, i: nat, b: nat)
    requires i <= b && b + 1 < |s|
    requires forall k :: i <= k < b ==> IsBlank(s[k])
    requires s[b] == '-' && s[b + 1] == '>'
    ensures NextToken(s, i) == Scan(Token(Arrow, "->", LineAt(s, b + 2)), b, b + 2)
  {
    BlanksSkipped(s, i, b);
    assert s[b..b + 2] == "->";
  }

  /** Blanks, then a quote closed at q with no quote in between: one string
      literal whose text runs from quote to quote. */
  lemma StringToken(s: string, i: nat, b: nat, q: nat)
    requires i <= b < q < |s|
    requires forall k :: i <= k < b ==> IsBlank(s[k])
    requires s[b] == '"' && s[q] == '"'
    requires forall k :: b < k < q ==> s[k] != '"'
    ensures NextToken(s, i) == Scan(Token(StringLiteral, s[b..q + 1], LineAt(s, q + 1)), b, q + 1)
  {
    BlanksSkipped(s, i, b);
    assert RunEnd(s, b + 1, NotQuote) == q;
  }

  // ---------------------------------------------------------------------------
  // The Lexer class.

  class Lexer {
    /** The full source text. */
    const source: string
    /** Start of the lexeme being scanned. */
    var start: nat
    /** The character being looked at. */
    var current: nat
    /** The line of `current`, for diagnostics. */
    var line: nat

    /** The cursors are in bounds and the line counts the newlines consumed. */
    ghost predicate Valid()
      reads this
    {
      start <= current <= |source| && line == LineAt(source, current)
    }

    constructor (source: string)
      ensures Valid()
      ensures this.source == source && start == 0 && current == 0 && line == 1
    {
      this.source := source;
      start, current, line := 0, 0, 1;
    }

    /** Skips trivia and returns the next token. */
    method ScanNextToken() returns (t: Token)
      requires Valid()
      modifies this
      ensures Valid()
      ensures t == NextToken(source, old(current)).token
      ensures start == NextToken(source, old(current)).start
      ensures current == NextToken(source, old(current)).end
    {
      SkipWhitespaceAndComments();
      start := current;
      t := ScanToken();
    }

    /** Scans the token whose text begins at the cursor; the cursor stands on
        neither a blank nor a comment. */
    method ScanToken() returns (t: Token)
      requires Valid() && start == current
      requires current < |source| ==> !IsBlank(source[current])
      modifies this`current, this`line
      ensures Valid()
      ensures t == ScanAt(source, start).token && current == ScanAt(source, start).end
    {
      if IsAtEnd() {
        return MakeToken(Eof);
      }
      var c := Advance();
      assert LineAt(source, current) == LineAt(source, start);
      if IsAlpha(c) || c == '_' {
        t := ScanIdentifierOrKeyword();
        return;
      }
      if c == '"' {
        t := ScanStringLiteral();
        return;
      }
      t := ScanOperator(c);
    }

    /** The one- and two-character tokens, after their first character c. */
    method ScanOperator(c: char) returns (t: Token)
      requires Valid() && start < |source| && current == start + 1 && c == source[start]
      requires !IsIdentStart(c) && c != '"' && c != '\n'
      modifies this`current
      ensures Valid()
      ensures t == ScanAt(source, start).token && current == ScanAt(source, start).end
    {
      match c {
        case '(' => return MakeToken(LParen);
        case ')' => return MakeToken(RParen);
        case '{' => return MakeToken(LBrace);
        case '}' => return MakeToken(RBrace);
        case ';' => return MakeToken(Semicolon);
        case '=' => return MakeToken(Equal);
        case ':' => return MakeToken(Colon);
        case '-' =>
          var arrow := Match('>');
          if arrow {
            return MakeToken(Arrow);
          }
        case _ =>
      }
      t := MakeErrorToken(UnexpectedCharacter);
    }

    predicate IsAtEnd()
      reads this
    {
      current >= |source|
    }

    /** Consumes and returns the character at the cursor. */
    method Advance() returns (c: char)
      requires current < |source|
      modifies this`current
      ensures c == source[old(current)] && current == old(current) + 1
    {
      c := source[current];
      current := current + 1;
    }

    /** The character at the cursor, or NUL at the end. */
    function Peek(): (c: char)
      reads this
      ensures current < |source| ==> c == source[current]
      ensures current >= |source| ==> c == '\0'
    {
      if current >= |source| then '\0' else source[current]
    }

    /** The character after the cursor, or NUL past the end. */
    function PeekNext(): (c: char)
      reads this
      ensures current + 1 < |source| ==> c == source[current + 1]
      ensures current + 1 >= |source| ==> c == '\0'
    {
      if current + 1 >= |source| then '\0' else source[current + 1]
    }

    /** Consumes the character at the cursor exactly when it is `expected`. */
    method Match(expected: char) returns (matched: bool)
      modifies this`current
      ensures matched <==> old(current) < |source| && source[old(current)] == expected
      ensures current == if matched then old(current) + 1 else old(current)
    {
      if IsAtEnd() {
        return false;
      }
      if source[current] != expected {
        return false;
      }
      current := current + 1;
      return true;
    }

    /** A token of the given kind whose text is the current lexeme. */
    function MakeToken(kind: TokenKind): (t: Token)
      reads this
      requires start <= current <= |source|
      ensures t.kind == kind && t.lexeme == source[start..current] && t.line == line
      ensures |t.lexeme| == current - start
    {
      Token(kind, source[start..current], line)
    }

    /** An error token: kind unknown, the message as its text, the current line. */
    function MakeErrorToken(message: string): (t: Token)
      reads this
      ensures t.kind == Unknown && t.lexeme == message && t.line == line
    {
      Token(Unknown, message, line)
    }

    /** Moves the cursor past blanks and line comments, counting newlines. */
    method SkipWhitespaceAndComments()
      requires Valid()
      modifies this`current, this`line
      ensures Valid()
      ensures current == SkipTrivia(source, old(current))
    {
      while true
        invariant Valid()
        invariant old(current) <= current
        invariant SkipTrivia(source, current) == SkipTrivia(source, old(current))
        decreases |source| - current
      {
        var c := Peek();
        if c == ' ' || c == '\r' || c == '\t' {
          var _ := Advance();
        } else if c == '\n' {
          line := line + 1;
          var _ := Advance();
        } else if c == '/' {
          if PeekNext() == '/' {
            SkipLineComment();
          } else {
            return;
          }
        } else {
          return;
        }
      }
    }

    /** Moves the cursor from the '/' that opens a line comment to the newline
        that ends it, or to the end of the source. */
    method SkipLineComment()
      requires Valid() && current < |source| && source[current] == '/'
      modifies this`current
      ensures Valid()
      ensures current == RunEnd(source, old(current), NotNewline)
    {
      ghost var lineEnd := RunEnd(source, current, NotNewline);
      assert NotNewline(source[current]);
      while Peek() != '\n' && !IsAtEnd()
        invariant Valid()
        invariant old(current) <= current <= lineEnd
        invariant RunEnd(source, current, NotNewline) == lineEnd
        decreases |source| - current
      {
        var _ := Advance();
      }
    }

    /** Scans the rest of an identifier and classifies it. */
    method ScanIdentifierOrKeyword() returns (t: Token)
      requires Valid() && start < |source| && current == start + 1 && IsIdentStart(source[start])
      modifies this`current
      ensures Valid()
      ensures t == ScanAt(source, start).token && current == ScanAt(source, start).end
      ensures current == RunEnd(source, old(current), IsIdentChar)
      ensures t == Token(KeywordKind(source[start..current]), source[start..current], line)
    {
      while IsIdentChar(Peek())
        invariant Valid()
        invariant old(current) <= current <= |source|
        invariant RunEnd(source, current, IsIdentChar) == RunEnd(source, old(current), IsIdentChar)
        decreases |source| - current
      {
        var _ := Advance();
      }
      var text := source[start..current];
      if text in KeywordMap {
        return MakeToken(KeywordMap[text]);
      }
      return MakeToken(Identifier);
    }

    /** Scans the rest of a string literal up to and including its closing
      quote, counting embedded newlines. */
    method ScanStringLiteral() returns (t: Token)
      requires Valid() && start < |source| && current == start + 1 && source[start] == '"'
      modifies this`current, this`line
      ensures Valid()
      ensures t == ScanAt(source, start).token && current == ScanAt(source, start).end
    {
      SkipStringBody();
      if IsAtEnd() {
        return MakeErrorToken(UnterminatedString);
      }
      var _ := Advance();
      return MakeToken(StringLiteral);
    }

    /** Moves the cursor to the next quote, or to the end of the source,
        counting the newlines passed. */
    method SkipStringBody()
      requires Valid()
      modifies this`current, this`line
      ensures Valid()
      ensures current == RunEnd(source, old(current), NotQuote)
    {
      ghost var q := RunEnd(source, current, NotQuote);
      while Peek() != '"' && !IsAtEnd()
        invariant Valid()
        invariant old(current) <= current <= q
        invariant RunEnd(source, current, NotQuote) == q
        decreases |source| - current
      {
        if Peek() == '\n' {
          line := line + 1;
        }
        var _ := Advance();
      }
    }
  }
}
