/** The recursive-descent parser of golox/internal/parser/parser.go.

    Every production is a function of the token array and the cursor `current`, returning
    the node it builds, the new cursor and its error (Go's `error`, here the list of parse
    errors it joins; the empty list is nil). Go's nil nodes are `NoExpr`/`NoStmt`, and a nil
    pointer dereference is `Panic`.

    The productions take a `Variant`: `AsWritten` is parser.go as it stands; `Corrected`
    repairs six places where it evidently does not do what it means to (two nil
    dereferences, three dropped errors and the recovery point, see `Variant`). The `Parser` class works on the
    corrected productions. */
module LoxParser {
  import opened Wrappers
  import Tokens
  import opened Ast
  import Printer

  type Token = Tokens.Token
  type TokenKind = Tokens.TokenKind

  /** `AsWritten`, or `Corrected`, which differs in exactly these places:
      - `primary` at EOF reports "Expect expression." at the EOF token instead of
        dereferencing the nil `advance()` returns there;
      - `finishCall` without a closing parenthesis returns the callee and the error instead
        of dereferencing the nil `paren`;
      - `call` returns `finishCall`'s error instead of going on and overwriting it;
      - `whileStatement` returns the joined errors it collects, the condition's included,
        instead of the body's error only;
      - `ifStatement` keeps the condition's error instead of overwriting it;
      - `synchronize` stops before a statement keyword, which its case label, a bitwise OR
        of the keywords' values, never matches. */
  datatype Variant = AsWritten | Corrected

  /** `parseError`: the line and lexeme of the offending token, and the message. */
  datatype ParseError = ParseError(line: int, lexeme: string, message: string)

  /** A production's node, the cursor after it and its errors; or a nil dereference. */
  datatype Parsed<T> = Parsed(value: T, pos: nat, errs: seq<ParseError>) | Panic

  function NewParseError(t: Token, message: string): (e: ParseError)
    ensures e.line == t.line && e.lexeme == t.lexeme && e.message == message
  {
    ParseError(t.line, t.lexeme, message)
  }

  /** `parseError.Error()`: "Error [line L]: Parse error at 'X' message". */
  function ErrorText(e: ParseError): (s: string)
    ensures |s| >= 12 && s[..12] == "Error [line "
    ensures |s| >= |e.message| && s[|s| - |e.message|..] == e.message
  {
    "Error [line " + Printer.IntText(e.line) + "]: Parse error at '" + e.lexeme + "' " + e.message
  }

  // ---------------------------------------------------------------------------------
  // The cursor

  /** What the parser needs of its tokens: they end with EOF (as `ScanTokens` makes them). */
  predicate ValidTokens(ts: seq<Token>)
  {
    |ts| > 0 && ts[|ts| - 1].kind == Tokens.EOF
  }

  /** `isAtEnd`. */
  predicate AtEnd(ts: seq<Token>, pos: nat)
    requires pos < |ts|
  {
    ts[pos].kind == Tokens.EOF
  }

  /** `checkCurrentKind`: false at EOF. */
  predicate Check(ts: seq<Token>, pos: nat, k: TokenKind)
    requires pos < |ts|
  {
    !AtEnd(ts, pos) && ts[pos].kind == k
  }

  /** The cursor after `advance`: one further, except at EOF. */
  function Advanced(ts: seq<Token>, pos: nat): (p: nat)
    requires ValidTokens(ts) && pos < |ts|
    ensures p < |ts| && p == if AtEnd(ts, pos) then pos else pos + 1
  {
    if AtEnd(ts, pos) then pos else pos + 1
  }

  /** `consume`: the current token and the cursor past it when it has kind `k`; else the
      error at the current token, the cursor unmoved. */
  function Consumed(ts: seq<Token>, pos: nat, k: TokenKind, message: string): (r: Result<Token, ParseError>)
    requires pos < |ts|
    ensures r.Ok? <==> Check(ts, pos, k)
    ensures r.Ok? ==> r.value == ts[pos]
    ensures r.Err? ==> r.error == NewParseError(ts[pos], message)
  {
    if Check(ts, pos, k) then Ok(ts[pos]) else Err(NewParseError(ts[pos], message))
  }

  /** The cursor after a `consume` whose result is ignored. */
  function Skip(ts: seq<Token>, pos: nat, k: TokenKind): (p: nat)
    requires ValidTokens(ts) && pos < |ts|
    ensures p < |ts| && p == if Check(ts, pos, k) then pos + 1 else pos
  {
    if Check(ts, pos, k) then pos + 1 else pos
  }

  /** The error list of a `consume`: empty on success. */
  function ConsumeErrs(ts: seq<Token>, pos: nat, k: TokenKind, message: string): seq<ParseError>
    requires pos < |ts|
  {
    if Check(ts, pos, k) then [] else [NewParseError(ts[pos], message)]
  }

  const SemicolonMessage := "Expect ';' after expression."

  // ---------------------------------------------------------------------------------
  // Trees without nil nodes

  /** No nil expression anywhere in `e`. */
  predicate ExprOk(e: Expr)
  {
    match e
    case NoExpr => false
    case Unary(_, right) => ExprOk(right)
    case Binary(left, _, right) => ExprOk(left) && ExprOk(right)
    case Literal(_, _, _) => true
    case Grouping(inner) => ExprOk(inner)
    case Variable(_, _) => true
    case Assign(_, _, value) => ExprOk(value)
    case Logical(left, _, right) => ExprOk(left) && ExprOk(right)
    case Call(callee, _, args) => ExprOk(callee) && forall i :: 0 <= i < |args| ==> ExprOk(args[i])
    case Get(obj, _) => ExprOk(obj)
    case Set(obj, _, value) => ExprOk(obj) && ExprOk(value)
    case This(_, _) => true
    case Super(_, _, _) => true
  }

  /** No nil statement or expression anywhere in `s`, except the absent value of `return;`. */
  predicate StmtOk(s: Stmt)
  {
    match s
    case NoStmt => false
    case Expression(e) => ExprOk(e)
    case Print(e) => ExprOk(e)
    case Var(name, init) => name.Some? && (init.Some? ==> ExprOk(init.value))
    case Block(stmts) => forall i :: 0 <= i < |stmts| ==> StmtOk(stmts[i])
    case If(cond, thenBranch, elseBranch) =>
      ExprOk(cond) && StmtOk(thenBranch) && (elseBranch.Some? ==> StmtOk(elseBranch.value))
    case While(cond, body) => ExprOk(cond) && StmtOk(body)
    case FunctionDecl(f) => FunctionOk(f)
    case Return(_, value) => value.NoExpr? || ExprOk(value)
    case Class(_, superclass, methods) =>
      (superclass.Some? ==> ExprOk(superclass.value)) && forall m :: 0 <= m < |methods| ==> FunctionOk(methods[m])
  }

  predicate FunctionOk(f: Function)
  {
    forall i :: 0 <= i < |f.body| ==> StmtOk(f.body[i])
  }

  predicate AllOk(ss: seq<Stmt>)
  {
    forall i :: 0 <= i < |ss| ==> StmtOk(ss[i])
  }

  // ---------------------------------------------------------------------------------
  // What every production promises

  /** The cursor only moves forward and stays on a token. */
  predicate Forward<T>(ts: seq<Token>, pos: nat, r: Parsed<T>)
  {
    r.Parsed? ==> pos <= r.pos < |ts|
  }

  /** Off EOF, at least one token is consumed. */
  predicate Progress<T>(ts: seq<Token>, pos: nat, r: Parsed<T>)
    requires pos < |ts|
  {
    r.Parsed? && !AtEnd(ts, pos) ==> pos < r.pos
  }

  /** The corrected parser never dereferences nil. */
  predicate Safe<T>(v: Variant, r: Parsed<T>)
  {
    v == Corrected ==> r.Parsed?
  }

  /** In the corrected parser, an expression parsed without error has no nil node. */
  predicate CleanExpr(v: Variant, r: Parsed<Expr>)
  {
    v == Corrected && r.Parsed? && r.errs == [] ==> ExprOk(r.value)
  }

  predicate CleanStmt(v: Variant, r: Parsed<Stmt>)
  {
    v == Corrected && r.Parsed? && r.errs == [] ==> StmtOk(r.value)
  }

  // ---------------------------------------------------------------------------------
  // Expressions, from the tightest level out

  /** The literals, variables and `this` of `primary`: one token, one node. */
  function SimplePrimary(ts: seq<Token>, pos: nat): (r: Option<Expr>)
    requires pos < |ts|
    ensures r.Some? ==> !AtEnd(ts, pos) && ExprOk(r.value)
  {
    if AtEnd(ts, pos) then None
    else match ts[pos].kind
      case False => Some(NewLiteral(BoolType, 0.0, ""))
      case True => Some(NewLiteral(BoolType, 1.0, ""))
      case Nil => Some(NewLiteral(NilType, 0.0, ""))
      case Number => Some(NewLiteral(NumberType, ts[pos].value, ""))
      case String => Some(NewLiteral(StringType, 0.0, ts[pos].literal))
      case Identifier => Some(Variable(ts[pos], pos))
      case This => Some(This(ts[pos], pos))
      case _ => None
  }

  /** `primary`. */
  function ParsePrimary(ts: seq<Token>, pos: nat, v: Variant): (r: Parsed<Expr>)
    requires ValidTokens(ts) && pos < |ts|
    ensures Forward(ts, pos, r) && Progress(ts, pos, r) && Safe(v, r) && CleanExpr(v, r)
    decreases |ts| - pos, 10
  {
    var simple := SimplePrimary(ts, pos);
    if simple.Some? then Parsed(simple.value, pos + 1, [])
    else if Check(ts, pos, Tokens.Super) then ParseSuper(ts, pos)
    else if Check(ts, pos, Tokens.LeftParenthesis) then ParseGroup(ts, pos + 1, v)
    else if AtEnd(ts, pos) then
      if v == AsWritten then Panic else Parsed(NoExpr, pos, [NewParseError(ts[pos], "Expect expression.")])
    else Parsed(NoExpr, pos + 1, [NewParseError(ts[pos], "Expect expression.")])
  }

  /** The `super` case of `primary`, at the `super` token: the `.` is consumed if present
      (its absence is ignored), then the method name is required. */
  function ParseSuper(ts: seq<Token>, pos: nat): (r: Parsed<Expr>)
    requires ValidTokens(ts) && pos < |ts| && Check(ts, pos, Tokens.Super)
    ensures r.Parsed? && pos < r.pos < |ts| && (r.errs == [] ==> ExprOk(r.value))
  {
    var p := Skip(ts, pos + 1, Tokens.Dot);
    match Consumed(ts, p, Tokens.Identifier, "Expected method name after '.'.")
    case Err(e) => Parsed(NoExpr, p, [e])
    case Ok(name) => Parsed(Super(ts[pos], pos, name), p + 1, [])
  }

  /** The parenthesised case of `primary`, just past the `(`. */
  function ParseGroup(ts: seq<Token>, pos: nat, v: Variant): (r: Parsed<Expr>)
    requires ValidTokens(ts) && pos < |ts|
    ensures Forward(ts, pos, r) && Safe(v, r) && CleanExpr(v, r)
    decreases |ts| - pos, 33
  {
    var e := ParseAssignment(ts, pos, v);
    if e.Panic? || e.errs != [] then e
    else if !Check(ts, e.pos, Tokens.RightParenthesis) then
      Parsed(NoExpr, e.pos, [NewParseError(ts[e.pos], "Expect ')' after expression.")])
    else Parsed(NewGroup(e.value), e.pos + 1, [])
  }

  /** The argument loop of `finishCall`, from `pos` with `args` collected: either the
      arguments and the cursor after the last one, or a result `finishCall` returns early. */
  datatype Listed = Listed(items: seq<Expr>, pos: nat) | Early(result: Parsed<Expr>)

  function ParseArguments(ts: seq<Token>, callee: Expr, pos: nat, args: seq<Expr>, v: Variant): (r: Listed)
    requires ValidTokens(ts) && pos < |ts| && |args| <= 255
    ensures r.Listed? ==> pos <= r.pos < |ts| && |args| < |r.items| <= 255 && r.items[..|args|] == args
    ensures r.Early? ==> Forward(ts, pos, r.result) && Safe(v, r.result) && (r.result.Parsed? ==> r.result.errs != [])
    ensures v == Corrected && r.Listed? && (forall i :: 0 <= i < |args| ==> ExprOk(args[i])) ==>
      forall i :: 0 <= i < |r.items| ==> ExprOk(r.items[i])
    decreases |ts| - pos + 1, 11
  {
    if |args| >= 255 then Early(Parsed(callee, pos, [NewParseError(ts[pos], "Can't have more than 255 arguments.")]))
    else
      var a := ParseAssignment(ts, pos, v);
      if a.Panic? then Early(Panic)
      else if a.errs != [] then Early(a)
      else if Check(ts, a.pos, Tokens.Comma) then ParseArguments(ts, callee, a.pos + 1, args + [a.value], v)
      else Listed(args + [a.value], a.pos)
  }

  /** `finishCall`, the cursor just past the opening parenthesis. */
  function FinishCall(ts: seq<Token>, callee: Expr, pos: nat, v: Variant): (r: Parsed<Expr>)
    requires ValidTokens(ts) && pos < |ts|
    ensures Forward(ts, pos, r) && Safe(v, r)
    ensures v == Corrected && r.Parsed? && r.errs == [] && ExprOk(callee) ==> ExprOk(r.value)
    ensures r.Parsed? && r.errs == [] ==> r.value.Call? && r.value.callee == callee && |r.value.arguments| <= 255
    decreases |ts| - pos + 1, 12
  {
    var l := if Check(ts, pos, Tokens.RightParenthesis) then Listed([], pos) else ParseArguments(ts, callee, pos, [], v);
    if l.Early? then l.result
    else if Check(ts, l.pos, Tokens.RightParenthesis) then Parsed(Call(callee, ts[l.pos], l.items), l.pos + 1, [])
    else if v == AsWritten then Panic
    else Parsed(callee, l.pos, [NewParseError(ts[l.pos], "Expect ')' after arguments.")])
  }

  /** The loop of `call` with the expression `e` built so far and the error `err` of the
      last `finishCall`. */
  function CallLoop(ts: seq<Token>, e: Expr, pos: nat, err: seq<ParseError>, v: Variant): (r: Parsed<Expr>)
    requires ValidTokens(ts) && pos < |ts|
    requires v == Corrected ==> err == []
    ensures Forward(ts, pos, r) && Safe(v, r)
    ensures v == Corrected && r.Parsed? && r.errs == [] && ExprOk(e) ==> ExprOk(r.value)
    decreases |ts| - pos, 13
  {
    if Check(ts, pos, Tokens.LeftParenthesis) then
      var f := FinishCall(ts, e, pos + 1, v);
      if f.Panic? then Panic
      else if v == Corrected && f.errs != [] then f
      else CallLoop(ts, f.value, f.pos, f.errs, v)
    else if Check(ts, pos, Tokens.Dot) then
      if Check(ts, pos + 1, Tokens.Identifier) then CallLoop(ts, Get(e, ts[pos + 1]), pos + 2, err, v)
      else Parsed(NoExpr, pos + 1, [NewParseError(ts[pos + 1], "Expect property name after '.'.")])
    else Parsed(e, pos, err)
  }

  /** `call`. */
  function ParseCall(ts: seq<Token>, pos: nat, v: Variant): (r: Parsed<Expr>)
    requires ValidTokens(ts) && pos < |ts|
    ensures Forward(ts, pos, r) && Progress(ts, pos, r) && Safe(v, r) && CleanExpr(v, r)
    decreases |ts| - pos, 14
  {
    var p := ParsePrimary(ts, pos, v);
    if p.Panic? || p.errs != [] then p
    else CallLoop(ts, p.value, p.pos, [], v)
  }

  /** `unary`. */
  function ParseUnary(ts: seq<Token>, pos: nat, v: Variant): (r: Parsed<Expr>)
    requires ValidTokens(ts) && pos < |ts|
    ensures Forward(ts, pos, r) && Progress(ts, pos, r) && Safe(v, r) && CleanExpr(v, r)
    decreases |ts| - pos, 15
  {
    if Check(ts, pos, Tokens.Bang) || Check(ts, pos, Tokens.Minus) then
      var u := ParseUnary(ts, pos + 1, v);
      if u.Panic? || u.errs != [] then u
      else Parsed(NewUnary(ts[pos], u.value), u.pos, [])
    else ParseCall(ts, pos, v)
  }

  /** The four binary levels, from the tightest: `factor`, `term`, `comparison`,
      `equality`. */
  datatype Level = FactorLevel | TermLevel | ComparisonLevel | EqualityLevel

  function Rank(level: Level): nat
  {
    match level
    case FactorLevel => 0
    case TermLevel => 1
    case ComparisonLevel => 2
    case EqualityLevel => 3
  }

  /** The operators a level's loop matches. */
  function Operators(level: Level): seq<TokenKind>
  {
    match level
    case FactorLevel => [Tokens.Slash, Tokens.Star]
    case TermLevel => [Tokens.Minus, Tokens.Plus]
    case ComparisonLevel => [Tokens.Greater, Tokens.GreaterEqual, Tokens.Less, Tokens.LessEqual]
    case EqualityLevel => [Tokens.BangEqual, Tokens.EqualEqual]
  }

  /** `match(kinds...)`: the current token has one of the kinds (and is not EOF). */
  predicate CheckAny(ts: seq<Token>, pos: nat, kinds: seq<TokenKind>)
    requires pos < |ts|
  {
    exists i :: 0 <= i < |kinds| && Check(ts, pos, kinds[i])
  }

  /** The operands of a level: the next tighter level. */
  function ParseOperand(ts: seq<Token>, pos: nat, level: Level, v: Variant): (r: Parsed<Expr>)
    requires ValidTokens(ts) && pos < |ts|
    ensures Forward(ts, pos, r) && Progress(ts, pos, r) && Safe(v, r) && CleanExpr(v, r)
    decreases |ts| - pos, 16 + 3 * Rank(level)
  {
    match level
    case FactorLevel => ParseUnary(ts, pos, v)
    case TermLevel => ParseBinary(ts, pos, FactorLevel, v)
    case ComparisonLevel => ParseBinary(ts, pos, TermLevel, v)
    case EqualityLevel => ParseBinary(ts, pos, ComparisonLevel, v)
  }

  /** `equality`, `comparison`, `term` and `factor`: an operand, then the loop. */
  function ParseBinary(ts: seq<Token>, pos: nat, level: Level, v: Variant): (r: Parsed<Expr>)
    requires ValidTokens(ts) && pos < |ts|
    ensures Forward(ts, pos, r) && Progress(ts, pos, r) && Safe(v, r) && CleanExpr(v, r)
    decreases |ts| - pos, 18 + 3 * Rank(level)
  {
    var e := ParseOperand(ts, pos, level, v);
    if e.Panic? || e.errs != [] then e
    else BinaryLoop(ts, e.value, e.pos, level, v)
  }

  /** A level's loop: while an operator of the level follows, its right operand is parsed
      and the tree so far becomes the left operand (left associativity). On the right
      operand's error `factor` returns the left operand, the other levels the right one. */
  function BinaryLoop(ts: seq<Token>, e: Expr, pos: nat, level: Level, v: Variant): (r: Parsed<Expr>)
    requires ValidTokens(ts) && pos < |ts|
    ensures Forward(ts, pos, r) && Safe(v, r)
    ensures v == Corrected && r.Parsed? && r.errs == [] && ExprOk(e) ==> ExprOk(r.value)
    decreases |ts| - pos, 17 + 3 * Rank(level)
  {
    if CheckAny(ts, pos, Operators(level)) then
      var right := ParseOperand(ts, pos + 1, level, v);
      if right.Panic? then Panic
      else if right.errs != [] then Parsed(if level == FactorLevel then e else right.value, right.pos, right.errs)
      else BinaryLoop(ts, NewBinary(e, right.value, ts[pos]), right.pos, level, v)
    else Parsed(e, pos, [])
  }

  /** The loop of `and` (`op` is And) or `or` (`op` is Or), carrying the error of the first
      operand, which these levels do not return early on. */
  function LogicalLoop(ts: seq<Token>, e: Expr, pos: nat, err: seq<ParseError>, op: TokenKind, v: Variant): (r: Parsed<Expr>)
    requires ValidTokens(ts) && pos < |ts| && (op == Tokens.And || op == Tokens.Or)
    ensures Forward(ts, pos, r) && Safe(v, r)
    ensures r.Parsed? && r.errs == [] ==> err == []
    ensures v == Corrected && r.Parsed? && r.errs == [] && ExprOk(e) ==> ExprOk(r.value)
    decreases |ts| - pos, if op == Tokens.And then 28 else 30
  {
    if Check(ts, pos, op) then
      var right := if op == Tokens.And then ParseBinary(ts, pos + 1, EqualityLevel, v) else ParseLogical(ts, pos + 1, Tokens.And, v);
      if right.Panic? then Panic
      else if right.errs != [] then Parsed(NoExpr, right.pos, right.errs)
      else LogicalLoop(ts, Logical(e, ts[pos], right.value), right.pos, err, op, v)
    else Parsed(e, pos, err)
  }

  /** `and` and `or`. */
  function ParseLogical(ts: seq<Token>, pos: nat, op: TokenKind, v: Variant): (r: Parsed<Expr>)
    requires ValidTokens(ts) && pos < |ts| && (op == Tokens.And || op == Tokens.Or)
    ensures Forward(ts, pos, r) && Progress(ts, pos, r) && Safe(v, r) && CleanExpr(v, r)
    decreases |ts| - pos, if op == Tokens.And then 29 else 31
  {
    var e := if op == Tokens.And then ParseBinary(ts, pos, EqualityLevel, v) else ParseLogical(ts, pos, Tokens.And, v);
    if e.Panic? then Panic
    else LogicalLoop(ts, e.value, e.pos, e.errs, op, v)
  }

  /** `assignment` (and `expression`): right associative; a variable target becomes an
      assignment, a property target a set, anything else "Invalid assignment target." at
      the `=`, returned with the right-hand side. */
  function ParseAssignment(ts: seq<Token>, pos: nat, v: Variant): (r: Parsed<Expr>)
    requires ValidTokens(ts) && pos < |ts|
    ensures Forward(ts, pos, r) && Progress(ts, pos, r) && Safe(v, r) && CleanExpr(v, r)
    decreases |ts| - pos, 32
  {
    var e := ParseLogical(ts, pos, Tokens.Or, v);
    if e.Panic? || e.errs != [] then e
    else if Check(ts, e.pos, Tokens.Equal) then
      var value := ParseAssignment(ts, e.pos + 1, v);
      if value.Panic? || value.errs != [] then value
      else match e.value
        case Variable(name, id) => Parsed(Assign(name, id, value.value), value.pos, [])
        case Get(obj, name) => Parsed(Set(obj, name, value.value), value.pos, [])
        case _ => Parsed(value.value, value.pos, [NewParseError(ts[e.pos], "Invalid assignment target.")])
    else e
  }

  // ---------------------------------------------------------------------------------
  // Statements

  /** `expressionStatement` (`isPrint` false) and `printStatement` (`isPrint` true, just past
      the keyword): the expression, then a `;`; the statement is returned with the error. */
  function ParseExprStmt(ts: seq<Token>, pos: nat, isPrint: bool, v: Variant): (r: Parsed<Stmt>)
    requires ValidTokens(ts) && pos < |ts|
    ensures Forward(ts, pos, r) && Progress(ts, pos, r) && Safe(v, r) && CleanStmt(v, r)
    decreases |ts| - pos, 34
  {
    var e := ParseAssignment(ts, pos, v);
    if e.Panic? then Panic
    else
      var s := if isPrint then Print(e.value) else Expression(e.value);
      if e.errs != [] then Parsed(s, e.pos, e.errs)
      else Parsed(s, Skip(ts, e.pos, Tokens.Semicolon), ConsumeErrs(ts, e.pos, Tokens.Semicolon, SemicolonMessage))
  }

  /** `returnStatement`, just past the keyword: a value unless a `;` follows at once. */
  function ParseReturn(ts: seq<Token>, keyword: Token, pos: nat, v: Variant): (r: Parsed<Stmt>)
    requires ValidTokens(ts) && pos < |ts|
    ensures Forward(ts, pos, r) && Safe(v, r) && CleanStmt(v, r)
    decreases |ts| - pos, 34
  {
    var e := if Check(ts, pos, Tokens.Semicolon) then Parsed(NoExpr, pos, []) else ParseAssignment(ts, pos, v);
    if e.Panic? then Panic
    else if e.errs != [] then Parsed(NoStmt, e.pos, e.errs)
    else if Check(ts, e.pos, Tokens.Semicolon) then Parsed(Return(keyword, e.value), e.pos + 1, [])
    else Parsed(NoStmt, e.pos, [NewParseError(ts[e.pos], SemicolonMessage)])
  }

  /** `varDeclaration`, just past `var`: a name, an optional initializer, a `;`. */
  function ParseVarDeclaration(ts: seq<Token>, pos: nat, v: Variant): (r: Parsed<Stmt>)
    requires ValidTokens(ts) && pos < |ts|
    ensures Forward(ts, pos, r) && Safe(v, r) && CleanStmt(v, r)
    ensures r.Parsed? ==> r.value.Var?
    decreases |ts| - pos, 34
  {
    if !Check(ts, pos, Tokens.Identifier) then Parsed(Var(None, None), pos, [NewParseError(ts[pos], "Expect variable name.")])
    else if Check(ts, pos + 1, Tokens.Equal) then
      var e := ParseAssignment(ts, pos + 2, v);
      if e.Panic? then Panic
      else if e.errs != [] then Parsed(Var(Some(ts[pos]), None), e.pos, e.errs)
      else Parsed(Var(Some(ts[pos]), Some(e.value)), Skip(ts, e.pos, Tokens.Semicolon), ConsumeErrs(ts, e.pos, Tokens.Semicolon, SemicolonMessage))
    else Parsed(Var(Some(ts[pos]), None), Skip(ts, pos + 1, Tokens.Semicolon), ConsumeErrs(ts, pos + 1, Tokens.Semicolon, SemicolonMessage))
  }

  /** The initializer clause of `forStatement`: none after a bare `;`, else a variable
      declaration or an expression statement. */
  function ForInit(ts: seq<Token>, pos: nat, v: Variant): (r: Parsed<Option<Stmt>>)
    requires ValidTokens(ts) && pos < |ts|
    ensures Forward(ts, pos, r) && Safe(v, r)
    ensures v == Corrected && r.Parsed? && r.errs == [] && r.value.Some? ==> StmtOk(r.value.value)
    decreases |ts| - pos, 35
  {
    if Check(ts, pos, Tokens.Semicolon) then Parsed(None, pos + 1, [])
    else
      var s := if Check(ts, pos, Tokens.Var) then ParseVarDeclaration(ts, pos + 1, v) else ParseExprStmt(ts, pos, false, v);
      if s.Panic? then Panic else Parsed(Some(s.value), s.pos, s.errs)
  }

  /** The condition clause of `forStatement`: absent (`NoExpr`) right before the `)`;
      otherwise an optional expression and a `;`. */
  function ForCondition(ts: seq<Token>, pos: nat, v: Variant): (r: Parsed<Expr>)
    requires ValidTokens(ts) && pos < |ts|
    ensures Forward(ts, pos, r) && Safe(v, r)
    ensures v == Corrected && r.Parsed? && r.errs == [] ==> r.value.NoExpr? || ExprOk(r.value)
    decreases |ts| - pos, 35
  {
    if Check(ts, pos, Tokens.RightParenthesis) then Parsed(NoExpr, pos, [])
    else
      var c := if Check(ts, pos, Tokens.Semicolon) then Parsed(NoExpr, pos, []) else ParseAssignment(ts, pos, v);
      if c.Panic? then Panic
      else Parsed(c.value, Skip(ts, c.pos, Tokens.Semicolon), c.errs + ConsumeErrs(ts, c.pos, Tokens.Semicolon, SemicolonMessage))
  }

  /** The statement `for (init; cond; incr) body` stands for: the body followed by the
      increment, repeated while the condition (true when absent) holds, after the
      initializer. */
  function Desugar(init: Option<Stmt>, cond: Expr, incr: Expr, body: Stmt): (s: Stmt)
    ensures ((init.None? || StmtOk(init.value)) && (cond.NoExpr? || ExprOk(cond)) && (incr.NoExpr? || ExprOk(incr))
      && StmtOk(body)) ==> StmtOk(s)
  {
    var b := if incr.NoExpr? then body else Block([body, Expression(incr)]);
    assert (StmtOk(body) && (incr.NoExpr? || ExprOk(incr))) ==> StmtOk(b) by {
      if !incr.NoExpr? {
        assert b.statements[0] == body && b.statements[1] == Expression(incr);
      }
    }
    var w := While(if cond.NoExpr? then NewLiteral(BoolType, 1.0, "") else cond, b);
    if init.Some? then
      var s := Block([init.value, w]);
      assert s.statements[1] == w;
      s
    else w
  }

  /** The three clauses between the parentheses of `forStatement`; an absent condition or
      increment is `NoExpr`. */
  datatype ForHeader = ForHeader(init: Option<Stmt>, cond: Expr, incr: Expr)

  /** The clauses of `forStatement`, just past `for`, up to the `)`; every clause is parsed
      whatever failed before it, and all their errors are joined. */
  function ForClauses(ts: seq<Token>, pos: nat, v: Variant): (r: Parsed<ForHeader>)
    requires ValidTokens(ts) && pos < |ts|
    ensures Forward(ts, pos, r) && Safe(v, r)
    ensures v == Corrected && r.Parsed? && r.errs == [] ==>
      (r.value.init.None? || StmtOk(r.value.init.value)) && (r.value.cond.NoExpr? || ExprOk(r.value.cond))
      && (r.value.incr.NoExpr? || ExprOk(r.value.incr))
    decreases |ts| - pos, 36
  {
    var init := ForInit(ts, Skip(ts, pos, Tokens.LeftParenthesis), v);
    if init.Panic? then Panic
    else
      var cond := ForCondition(ts, init.pos, v);
      if cond.Panic? then Panic
      else
        var incr := if Check(ts, cond.pos, Tokens.RightParenthesis) then Parsed(NoExpr, cond.pos, []) else ParseAssignment(ts, cond.pos, v);
        if incr.Panic? then Panic
        else
          var errs := ConsumeErrs(ts, pos, Tokens.LeftParenthesis, "Expect '(' after 'if'.") + init.errs + cond.errs
            + incr.errs + ConsumeErrs(ts, incr.pos, Tokens.RightParenthesis, "Expect ')' after for clauses.");
          Parsed(ForHeader(init.value, cond.value, incr.value), Skip(ts, incr.pos, Tokens.RightParenthesis), errs)
  }

  /** `forStatement`, just past `for`: the clauses, then the body, desugared. */
  function ParseFor(ts: seq<Token>, pos: nat, v: Variant): (r: Parsed<Stmt>)
    requires ValidTokens(ts) && pos < |ts|
    ensures Forward(ts, pos, r) && Safe(v, r) && CleanStmt(v, r)
    decreases |ts| - pos, 37
  {
    var h := ForClauses(ts, pos, v);
    if h.Panic? then Panic
    else
      var body := ParseStatement(ts, h.pos, v);
      if body.Panic? then Panic
      else Parsed(Desugar(h.value.init, h.value.cond, h.value.incr, body.value), body.pos, h.errs + body.errs)
  }

  /** `whileStatement`, just past `while`. As written only the body's error is returned:
      the parentheses' errors are collected and dropped, the condition's overwritten. */
  function ParseWhile(ts: seq<Token>, pos: nat, v: Variant): (r: Parsed<Stmt>)
    requires ValidTokens(ts) && pos < |ts|
    ensures Forward(ts, pos, r) && Safe(v, r) && CleanStmt(v, r)
    decreases |ts| - pos, 36
  {
    var cond := ParseAssignment(ts, Skip(ts, pos, Tokens.LeftParenthesis), v);
    if cond.Panic? then Panic
    else
      var body := ParseStatement(ts, Skip(ts, cond.pos, Tokens.RightParenthesis), v);
      if body.Panic? then Panic
      else
        var joined := ConsumeErrs(ts, pos, Tokens.LeftParenthesis, "Expect '(' after 'if'.") + cond.errs
          + ConsumeErrs(ts, cond.pos, Tokens.RightParenthesis, "Expect ')' after 'if'.") + body.errs;
        var errs := if v == AsWritten then body.errs else joined;
        Parsed(While(cond.value, body.value), body.pos, errs)
  }

  /** The `else` branch of `ifStatement`, if the next token is `else`. */
  function ParseElse(ts: seq<Token>, pos: nat, v: Variant): (r: Parsed<Option<Stmt>>)
    requires ValidTokens(ts) && pos < |ts|
    ensures Forward(ts, pos, r) && Safe(v, r)
    ensures !Check(ts, pos, Tokens.Else) ==> r == Parsed(None, pos, [])
    ensures Check(ts, pos, Tokens.Else) && r.Parsed? ==> r.value.Some?
    ensures v == Corrected && r.Parsed? && r.errs == [] && r.value.Some? ==> StmtOk(r.value.value)
    decreases |ts| - pos, 35
  {
    if !Check(ts, pos, Tokens.Else) then Parsed(None, pos, [])
    else
      var branch := ParseStatement(ts, pos + 1, v);
      if branch.Panic? then Panic else Parsed(Some(branch.value), branch.pos, branch.errs)
  }

  /** `ifStatement`, just past `if`. As written the condition's error is overwritten. */
  function ParseIf(ts: seq<Token>, pos: nat, v: Variant): (r: Parsed<Stmt>)
    requires ValidTokens(ts) && pos < |ts|
    ensures Forward(ts, pos, r) && Safe(v, r) && CleanStmt(v, r)
    decreases |ts| - pos, 36
  {
    var cond := ParseAssignment(ts, Skip(ts, pos, Tokens.LeftParenthesis), v);
    if cond.Panic? then Panic
    else
      var then_ := ParseStatement(ts, Skip(ts, cond.pos, Tokens.RightParenthesis), v);
      if then_.Panic? then Panic
      else
        var else_ := ParseElse(ts, then_.pos, v);
        if else_.Panic? then Panic
        else
          var open := ConsumeErrs(ts, pos, Tokens.LeftParenthesis, "Expect '(' after 'if'.");
          var close := ConsumeErrs(ts, cond.pos, Tokens.RightParenthesis, "Expect ')' after 'if'.");
          var errs := if v == AsWritten then open + close + then_.errs + else_.errs
            else open + cond.errs + close + then_.errs + else_.errs;
          assert |errs| == 0 ==> |then_.errs| == |else_.errs| == 0 && (v == Corrected ==> |cond.errs| == 0);
          Parsed(If(cond.value, then_.value, else_.value), else_.pos, errs)
  }

  /** `blockStatement`, just past `{`, with `stmts` and `errs` collected: declarations up
      to a `}` or EOF, each kept with its error, then the `}`. */
  function BlockLoop(ts: seq<Token>, pos: nat, stmts: seq<Stmt>, errs: seq<ParseError>, v: Variant): (r: Parsed<Stmt>)
    requires ValidTokens(ts) && pos < |ts|
    ensures Forward(ts, pos, r) && Safe(v, r)
    ensures r.Parsed? ==> r.value.Block? && stmts <= r.value.statements
    ensures r.Parsed? && r.errs == [] ==> errs == []
    ensures v == Corrected && r.Parsed? && r.errs == [] && AllOk(stmts) ==> StmtOk(r.value)
    decreases |ts| - pos, 38
  {
    if Check(ts, pos, Tokens.RightBrace) || AtEnd(ts, pos) then
      Parsed(Block(stmts), Skip(ts, pos, Tokens.RightBrace), errs + ConsumeErrs(ts, pos, Tokens.RightBrace, "Expect '}' after block."))
    else
      var d := ParseDeclaration(ts, pos, v);
      if d.Panic? then Panic
      else BlockLoop(ts, d.pos, stmts + [d.value], errs + d.errs, v)
  }

  /** The parameter loop of `funDeclaration`: the names, or the error that ends it. */
  datatype Parameters = Parameters(names: seq<Token>, pos: nat) | ParamsFailed(error: ParseError, pos: nat)

  function ParseParameters(ts: seq<Token>, pos: nat, params: seq<Token>): (r: Parameters)
    requires ValidTokens(ts) && pos < |ts| && |params| <= 255
    ensures pos <= r.pos < |ts|
    ensures r.Parameters? ==> |params| < |r.names| <= 255 && r.names[..|params|] == params
    decreases |ts| - pos
  {
    if |params| >= 255 then ParamsFailed(NewParseError(ts[pos], "Can't have more than 255 arguments."), pos)
    else if !Check(ts, pos, Tokens.Identifier) then ParamsFailed(NewParseError(ts[pos], "Expected parameter name."), pos)
    else if Check(ts, pos + 1, Tokens.Comma) then ParseParameters(ts, pos + 2, params + [ts[pos]])
    else Parameters(params + [ts[pos]], pos + 1)
  }

  /** `funDeclaration(kind)`, at the name: the parameter list and the body; the errors of
      the `(`, `)` and `{` around them are ignored. */
  function ParseFunDeclaration(ts: seq<Token>, pos: nat, kind: string, v: Variant): (r: Parsed<Stmt>)
    requires ValidTokens(ts) && pos < |ts|
    ensures Forward(ts, pos, r) && Safe(v, r) && CleanStmt(v, r)
    ensures r.Parsed? && r.errs == [] ==> r.value.FunctionDecl? && pos < r.pos && |r.value.decl.params| <= 255
    decreases |ts| - pos, 39
  {
    if !Check(ts, pos, Tokens.Identifier) then Parsed(NoStmt, pos, [NewParseError(ts[pos], "Expect " + kind + " name.")])
    else
      var p := Skip(ts, pos + 1, Tokens.LeftParenthesis);
      var params := if Check(ts, p, Tokens.RightParenthesis) then Parameters([], p) else ParseParameters(ts, p, []);
      if params.ParamsFailed? then Parsed(NoStmt, params.pos, [params.error])
      else
        var body := BlockLoop(ts, Skip(ts, Skip(ts, params.pos, Tokens.RightParenthesis), Tokens.LeftBrace), [], [], v);
        if body.Panic? then Panic
        else if body.errs != [] then Parsed(NoStmt, body.pos, body.errs)
        else
          assert v == Corrected ==> StmtOk(body.value);
          Parsed(FunctionDecl(Function(ts[pos], params.names, body.value.statements)), body.pos, [])
  }

  /** The method loop of `classDeclaration`: methods up to a `}` or EOF; the first error
      ends it. */
  function ClassMethods(ts: seq<Token>, pos: nat, methods: seq<Function>, v: Variant): (r: Parsed<seq<Function>>)
    requires ValidTokens(ts) && pos < |ts|
    ensures Forward(ts, pos, r) && Safe(v, r)
    ensures v == Corrected && r.Parsed? && r.errs == [] && (forall m :: 0 <= m < |methods| ==> FunctionOk(methods[m])) ==>
      forall m :: 0 <= m < |r.value| ==> FunctionOk(r.value[m])
    decreases |ts| - pos, 40
  {
    if AtEnd(ts, pos) || Check(ts, pos, Tokens.RightBrace) then Parsed(methods, pos, [])
    else
      var f := ParseFunDeclaration(ts, pos, "method", v);
      if f.Panic? then Panic
      else if f.errs != [] then Parsed(methods, f.pos, f.errs)
      else ClassMethods(ts, f.pos, methods + [f.value.decl], v)
  }

  /** `classDeclaration`, just past `class`: a name, an optional `< Superclass`, then the
      methods in braces; every error ends it with a nil statement. */
  function ParseClassDeclaration(ts: seq<Token>, pos: nat, v: Variant): (r: Parsed<Stmt>)
    requires ValidTokens(ts) && pos < |ts|
    ensures Forward(ts, pos, r) && Safe(v, r) && CleanStmt(v, r)
    decreases |ts| - pos, 41
  {
    if !Check(ts, pos, Tokens.Identifier) then Parsed(NoStmt, pos, [NewParseError(ts[pos], "Expected identifier after 'class'")])
    else if Check(ts, pos + 1, Tokens.Less) && !Check(ts, pos + 2, Tokens.Identifier) then
      Parsed(NoStmt, pos + 2, [NewParseError(ts[pos + 2], "Expected identifier after '<'")])
    else
      var superclass := if Check(ts, pos + 1, Tokens.Less) then Some(Variable(ts[pos + 2], pos + 2)) else None;
      var p := if superclass.Some? then pos + 3 else pos + 1;
      if !Check(ts, p, Tokens.LeftBrace) then Parsed(NoStmt, p, [NewParseError(ts[p], "Expected '{' after identifier")])
      else
        var ms := ClassMethods(ts, p + 1, [], v);
        if ms.Panic? then Panic
        else if ms.errs != [] then Parsed(NoStmt, ms.pos, ms.errs)
        else if !Check(ts, ms.pos, Tokens.RightBrace) then
          Parsed(NoStmt, ms.pos, [NewParseError(ts[ms.pos], "Expected '}' after method declarations")])
        else
          assert ms.pos + 1 < |ts|;
          assert superclass.Some? ==> ExprOk(superclass.value);
          assert v == Corrected ==> forall m :: 0 <= m < |ms.value| ==> FunctionOk(ms.value[m]);
          Parsed(Class(ts[pos], superclass, ms.value), ms.pos + 1, [])
  }

  /** `statement`. */
  function ParseStatement(ts: seq<Token>, pos: nat, v: Variant): (r: Parsed<Stmt>)
    requires ValidTokens(ts) && pos < |ts|
    ensures Forward(ts, pos, r) && Progress(ts, pos, r) && Safe(v, r) && CleanStmt(v, r)
    decreases |ts| - pos, 35
  {
    if Check(ts, pos, Tokens.For) then ParseFor(ts, pos + 1, v)
    else if Check(ts, pos, Tokens.While) then ParseWhile(ts, pos + 1, v)
    else if Check(ts, pos, Tokens.If) then ParseIf(ts, pos + 1, v)
    else if Check(ts, pos, Tokens.Print) then ParseExprStmt(ts, pos + 1, true, v)
    else if Check(ts, pos, Tokens.LeftBrace) then BlockLoop(ts, pos + 1, [], [], v)
    else if Check(ts, pos, Tokens.Return) then ParseReturn(ts, ts[pos], pos + 1, v)
    else ParseExprStmt(ts, pos, false, v)
  }

  /** `declaration`. */
  function ParseDeclaration(ts: seq<Token>, pos: nat, v: Variant): (r: Parsed<Stmt>)
    requires ValidTokens(ts) && pos < |ts|
    ensures Forward(ts, pos, r) && Progress(ts, pos, r) && Safe(v, r) && CleanStmt(v, r)
    decreases |ts| - pos, 37
  {
    if Check(ts, pos, Tokens.Class) then ParseClassDeclaration(ts, pos + 1, v)
    else if Check(ts, pos, Tokens.Fun) then ParseFunDeclaration(ts, pos + 1, "function", v)
    else if Check(ts, pos, Tokens.Var) then ParseVarDeclaration(ts, pos + 1, v)
    else ParseStatement(ts, pos, v)
  }

  // ---------------------------------------------------------------------------------
  // Error recovery and the top level

  /** The value of the case label `Class | Fun | Var | For | If | While | Print | Return` of
      `synchronize`: a bitwise OR of the kinds' integer values (24, 27, 37, 28, 29, 38, 32 and
      33), not a list of alternatives. */
  const SyncCase: bv8 := 24 | 27 | 37 | 28 | 29 | 38 | 32 | 33

  /** The operands of the case label are those kinds' values; the label is 63, which no
      kind has, so `synchronize` never stops before a keyword. */
  lemma SyncCaseMatchesNoKind()
    ensures Tokens.Ordinal(Tokens.Class) == 24 && Tokens.Ordinal(Tokens.Fun) == 27 && Tokens.Ordinal(Tokens.Var) == 37
      && Tokens.Ordinal(Tokens.For) == 28 && Tokens.Ordinal(Tokens.If) == 29 && Tokens.Ordinal(Tokens.While) == 38
      && Tokens.Ordinal(Tokens.Print) == 32 && Tokens.Ordinal(Tokens.Return) == 33
    ensures SyncCase as int == 63
    ensures forall k :: Tokens.Ordinal(k) != SyncCase as int
  {
  }

  /** The kinds that begin a statement, before which recovery is meant to stop. */
  predicate StatementKeyword(k: TokenKind)
  {
    k == Tokens.Class || k == Tokens.Fun || k == Tokens.Var || k == Tokens.For || k == Tokens.If
    || k == Tokens.While || k == Tokens.Print || k == Tokens.Return
  }

  /** Whether `synchronize` stops before a token of kind `k`: as written, when its integer
      value equals the case label (never); corrected, at a statement keyword. */
  predicate SyncPoint(k: TokenKind, v: Variant)
  {
    if v == AsWritten then Tokens.Ordinal(k) == SyncCase as int else StatementKeyword(k)
  }

  /** The loop of `synchronize`, with at least one token already skipped. */
  function SyncLoop(ts: seq<Token>, pos: nat, v: Variant): (p: nat)
    requires ValidTokens(ts) && 1 <= pos < |ts|
    ensures pos <= p < |ts|
    decreases |ts| - pos
  {
    if AtEnd(ts, pos) then pos
    else if ts[pos - 1].kind == Tokens.Semicolon then pos
    else if SyncPoint(ts[pos].kind, v) then pos
    else SyncLoop(ts, pos + 1, v)
  }

  /** `synchronize`: skips one token, then up to EOF, just past a `;`, or (corrected) up to a
      statement keyword. */
  function Synchronized(ts: seq<Token>, pos: nat, v: Variant): (p: nat)
    requires ValidTokens(ts) && pos < |ts|
    ensures pos <= p < |ts| && (!AtEnd(ts, pos) ==> pos < p)
  {
    if AtEnd(ts, pos) then pos else SyncLoop(ts, pos + 1, v)
  }

  /** The loop of `Parse` from `pos`, with `stmts` and `errs` collected: a declaration at a
      time up to EOF; after a failed one `synchronize` runs, and its (possibly nil)
      statement is kept all the same. */
  function ParseLoop(ts: seq<Token>, pos: nat, stmts: seq<Stmt>, errs: seq<ParseError>, v: Variant): (r: Parsed<seq<Stmt>>)
    requires ValidTokens(ts) && pos < |ts|
    ensures Forward(ts, pos, r) && Safe(v, r)
    ensures r.Parsed? ==> AtEnd(ts, r.pos) && stmts <= r.value && errs <= r.errs
    ensures v == Corrected && r.Parsed? && r.errs == [] && AllOk(stmts) ==> AllOk(r.value)
    decreases |ts| - pos
  {
    if AtEnd(ts, pos) then Parsed(stmts, pos, errs)
    else
      var d := ParseDeclaration(ts, pos, v);
      if d.Panic? then Panic
      else
        var p := if d.errs != [] then Synchronized(ts, d.pos, v) else d.pos;
        ParseLoop(ts, p, stmts + [d.value], errs + d.errs, v)
  }

  /** `NewParser(tokens).Parse()`: every declaration up to EOF, and the errors. The
      corrected parser never dereferences nil, and a program it parses without error has
      no nil node. */
  function ParseProgram(ts: seq<Token>, v: Variant): (r: Parsed<seq<Stmt>>)
    requires ValidTokens(ts)
    ensures Safe(v, r)
    ensures r.Parsed? ==> r.pos < |ts| && AtEnd(ts, r.pos)
    ensures v == Corrected && r.errs == [] ==> AllOk(r.value)
  {
    ParseLoop(ts, 0, [], [], v)
  }

  // ---------------------------------------------------------------------------------
  // The parser object

  /** `Parser`: the tokens and the cursor `current`. Its loops (`Parse`, `blockStatement`,
      `synchronize`, `match`) are written out; the recursive productions step the cursor by
      the corrected functions above. */
  class Parser {
    const tokens: seq<Token>
    var current: nat

    ghost predicate Valid()
      reads this
    {
      ValidTokens(tokens) && current < |tokens|
    }

    /** `NewParser`. */
    constructor (tokens: seq<Token>)
      requires ValidTokens(tokens)
      ensures Valid() && this.tokens == tokens && current == 0
    {
      this.tokens := tokens;
      current := 0;
    }

    predicate IsAtEnd()
      reads this
      requires Valid()
    {
      AtEnd(tokens, current)
    }

    predicate CheckCurrentKind(k: TokenKind)
      reads this
      requires Valid()
    {
      Check(tokens, current, k)
    }

    function Peek(): Token
      reads this
      requires Valid()
    {
      tokens[current]
    }

    function Previous(): Token
      reads this
      requires Valid() && 0 < current
    {
      tokens[current - 1]
    }

    /** `advance`: the token stepped over, or nothing at EOF, where the cursor stays. */
    method Advance() returns (t: Option<Token>)
      requires Valid()
      modifies this
      ensures Valid() && current == Advanced(tokens, old(current))
      ensures t == if AtEnd(tokens, old(current)) then None else Some(tokens[old(current)])
    {
      if IsAtEnd() {
        return None;
      }
      current := current + 1;
      return Some(Previous());
    }

    /** `match`: steps over the current token when it has one of `kinds`. */
    method Match(kinds: seq<TokenKind>) returns (matched: bool)
      requires Valid()
      modifies this
      ensures Valid() && matched == CheckAny(tokens, old(current), kinds)
      ensures current == if matched then old(current) + 1 else old(current)
    {
      for i := 0 to |kinds|
        invariant current == old(current)
        invariant forall j :: 0 <= j < i ==> !Check(tokens, current, kinds[j])
      {
        if CheckCurrentKind(kinds[i]) {
          var _ := Advance();
          return true;
        }
      }
      return false;
    }

    /** `consume`. */
    method Consume(k: TokenKind, message: string) returns (r: Result<Token, ParseError>)
      requires Valid()
      modifies this
      ensures Valid() && r == Consumed(tokens, old(current), k, message)
      ensures current == Skip(tokens, old(current), k)
    {
      if CheckCurrentKind(k) {
        var t := Advance();
        return Ok(t.value);
      }
      return Err(NewParseError(Peek(), message));
    }

    /** `synchronize`. */
    method Synchronize()
      requires Valid()
      modifies this
      ensures Valid() && current == Synchronized(tokens, old(current), Corrected)
    {
      var _ := Advance();
      while !IsAtEnd() && Previous().kind != Tokens.Semicolon && !StatementKeyword(Peek().kind)
        invariant Valid()
        invariant AtEnd(tokens, old(current)) ==> current == old(current)
        invariant !AtEnd(tokens, old(current)) ==>
          1 <= current && SyncLoop(tokens, current, Corrected) == Synchronized(tokens, old(current), Corrected)
        decreases |tokens| - current
      {
        var _ := Advance();
      }
    }

    /** `declaration`, one step of the cursor. */
    method Declaration() returns (s: Stmt, errs: seq<ParseError>)
      requires Valid()
      modifies this
      ensures Valid() && ParseDeclaration(tokens, old(current), Corrected) == Parsed(s, current, errs)
    {
      var r := ParseDeclaration(tokens, current, Corrected);
      s, errs, current := r.value, r.errs, r.pos;
    }

    /** `blockStatement`, just past the `{`. */
    method BlockStatement() returns (block: Stmt, errs: seq<ParseError>)
      requires Valid()
      modifies this
      ensures Valid() && BlockLoop(tokens, old(current), [], [], Corrected) == Parsed(block, current, errs)
    {
      var stmts := [];
      errs := [];
      while !(CheckCurrentKind(Tokens.RightBrace) || IsAtEnd())
        invariant Valid() && old(current) <= current
        invariant BlockLoop(tokens, old(current), [], [], Corrected) == BlockLoop(tokens, current, stmts, errs, Corrected)
        decreases |tokens| - current
      {
        var s, e := Declaration();
        errs := errs + e;
        stmts := stmts + [s];
      }
      var r := Consume(Tokens.RightBrace, "Expect '}' after block.");
      if r.Err? {
        errs := errs + [r.error];
      }
      block := Block(stmts);
    }

    /** `Parse`: the declarations up to EOF and their errors; after each failed one,
        `synchronize`. */
    method Parse() returns (stmts: seq<Stmt>, errs: seq<ParseError>)
      requires Valid()
      modifies this
      ensures Valid() && ParseLoop(tokens, old(current), [], [], Corrected) == Parsed(stmts, current, errs)
      ensures IsAtEnd() && (errs == [] ==> AllOk(stmts))
    {
      stmts, errs := [], [];
      while !IsAtEnd()
        invariant Valid() && old(current) <= current
        invariant ParseLoop(tokens, old(current), [], [], Corrected) == ParseLoop(tokens, current, stmts, errs, Corrected)
        decreases |tokens| - current
      {
        ghost var before, stmtsBefore, errsBefore := current, stmts, errs;
        var s, e := Declaration();
        ghost var next := if e != [] then Synchronized(tokens, current, Corrected) else current;
        assert ParseLoop(tokens, before, stmtsBefore, errsBefore, Corrected)
          == ParseLoop(tokens, next, stmtsBefore + [s], errsBefore + e, Corrected);
        if e != [] {
          errs := errs + e;
          Synchronize();
        } else {
          assert errs == errsBefore + e;
        }
        stmts := stmts + [s];
        assert current == next;
      }
    }
  }
}
