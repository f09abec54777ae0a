/** Token kinds, the token record and the debug names of the kinds
    (src/core/include/Token.h, src/core/TokenKind.h, src/core/lib/Token.cpp). */
module Tokens {
  import opened Wrappers

  /** The closed list of kinds that getTokenName enumerates, plus the
      NUM_TOKENS sentinel that closes the C++ enumeration. */
  datatype TokenKind =
    | Unknown | Eof | Identifier | StringLiteral
    | LParen | RParen | LBrace | RBrace | Semicolon | Equal | Arrow | Colon
    | KwFn | KwLet | KwVoid
    | NumTokens

  /** A token: its kind, its text and the line it was scanned on. For every
      token but an error token the text is a slice of the source. */
  datatype Token = Token(kind: TokenKind, lexeme: string, line: nat)

  /** The value a default-initialised Token holds: kind unknown, empty text, line 0. */
  const DefaultToken := Token(Unknown, [], 0)

  /** The debug name of a kind; every kind outside the named list is "unnamed_token". */
  function TokenName(kind: TokenKind): (name: string)
    ensures |name| > 0
    ensures name == "unnamed_token" <==> kind == NumTokens
  {
    match kind
    case Unknown => "unknown"
    case Eof => "eof"
    case Identifier => "identifier"
    case StringLiteral => "string_literal"
    case LParen => "l_paren"
    case RParen => "r_paren"
    case LBrace => "l_brace"
    case RBrace => "r_brace"
    case Semicolon => "semicolon"
    case Equal => "equal"
    case Arrow => "arrow"
    case Colon => "colon"
    case KwFn => "kw_fn"
    case KwLet => "kw_let"
    case KwVoid => "kw_void"
    case NumTokens => "unnamed_token"
  }

  /** The kind a debug name stands for, if it names one of the listed kinds. */
  function KindOfName(name: string): Option<TokenKind>
  {
    if name == "unknown" then Some(Unknown)
    else if name == "eof" then Some(Eof)
    else if name == "identifier" then Some(Identifier)
    else if name == "string_literal" then Some(StringLiteral)
    else if name == "l_paren" then Some(LParen)
    else if name == "r_paren" then Some(RParen)
    else if name == "l_brace" then Some(LBrace)
    else if name == "r_brace" then Some(RBrace)
    else if name == "semicolon" then Some(Semicolon)
    else if name == "equal" then Some(Equal)
    else if name == "arrow" then Some(Arrow)
    else if name == "colon" then Some(Colon)
    else if name == "kw_fn" then Some(KwFn)
    else if name == "kw_let" then Some(KwLet)
    else if name == "kw_void" then Some(KwVoid)
    else None
  }

  /** The name of every listed kind leads back to that kind, and the
      fallback name leads to none. */
  lemma TokenNameRoundTrip(kind: TokenKind)
    ensures kind != NumTokens ==> KindOfName(TokenName(kind)) == Some(kind)
    ensures kind == NumTokens ==> KindOfName(TokenName(kind)) == None
  {
  }

  /** Distinct kinds have distinct debug names. */
  lemma TokenNameInjective(k1: TokenKind, k2: TokenKind)
    ensures TokenName(k1) == TokenName(k2) ==> k1 == k2
  {
    if k1 != NumTokens && k2 != NumTokens {
      TokenNameRoundTrip(k1);
      TokenNameRoundTrip(k2);
    }
  }
}
