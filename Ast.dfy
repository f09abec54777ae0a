/** The syntax tree the parser builds (src/ast/include/Decl.h, Stmt.h, Expr.h).
    Each composite node owns its children, so the tree is a value. */
module Ast {
  import opened Tokens

  /** StringLiteralExpr keeps the literal's token (quotes included), VariableExpr
      the name it refers to, CallExpr the callee and its arguments in order. */
  datatype Expr =
    | StringLiteralExpr(strToken: Token)
    | VariableExpr(name: Token)
    | CallExpr(callee: Token, args: seq<Expr>)

  /** Every declaration carries its name token. */
  datatype Decl =
    | VarDecl(name: Token, initializer: Expr)
    | FunctionDecl(name: Token, body: seq<Stmt>)

  /** The statement adaptors: a declaration or an expression in statement position. */
  datatype Stmt =
    | DeclStmt(decl: Decl)
    | ExprStmt(expr: Expr)

  /** Decl::getName: the text of the declaration's name token. */
  function DeclName(d: Decl): (n: string)
    ensures n == d.name.lexeme
  {
    match d
    case VarDecl(name, _) => name.lexeme
    case FunctionDecl(name, _) => name.lexeme
  }

  /** VariableExpr::getName: the text of the referenced name, unchanged. */
  function VariableName(e: Expr): (n: string)
    requires e.VariableExpr?
    ensures n == e.name.lexeme
  {
    e.name.lexeme
  }

  /** StringLiteralExpr::getValue: the literal's text without its first and last
      character. substr(1, length - 2) throws on an empty lexeme, and on a
      one-character lexeme the count wraps around and the result is empty. */
  function GetValue(e: Expr): (v: string)
    requires e.StringLiteralExpr? && |e.strToken.lexeme| >= 1
    ensures |e.strToken.lexeme| >= 2 ==> |v| == |e.strToken.lexeme| - 2
    ensures |e.strToken.lexeme| >= 2 ==>
              forall k :: 0 <= k < |v| ==> v[k] == e.strToken.lexeme[k + 1]
    ensures |e.strToken.lexeme| == 1 ==> v == []
  {
    var lexeme := e.strToken.lexeme;
    if |lexeme| >= 2 then lexeme[1..|lexeme| - 1] else []
  }

  /** The text of a string literal whose content is `value`. */
  function Quoted(value: string): (q: string)
  {
    ['"'] + value + ['"']
  }

  /** Stripping the quotes undoes adding them ... */
  lemma GetValueOfQuoted(value: string, line: nat)
    ensures GetValue(StringLiteralExpr(Token(StringLiteral, Quoted(value), line))) == value
  {
    var q := Quoted(value);
    assert q[1..|q| - 1] == value;
  }

  /** ... and adding them back rebuilds any lexeme that begins and ends with a quote. */
  lemma QuotedGetValue(e: Expr)
    requires e.StringLiteralExpr? && |e.strToken.lexeme| >= 2
    requires e.strToken.lexeme[0] == '"' && e.strToken.lexeme[|e.strToken.lexeme| - 1] == '"'
    ensures Quoted(GetValue(e)) == e.strToken.lexeme
  {
    var lexeme := e.strToken.lexeme;
    assert lexeme == [lexeme[0]] + lexeme[1..|lexeme| - 1] + [lexeme[|lexeme| - 1]];
  }
}
