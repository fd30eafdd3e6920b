/** The syntax tree of the tree-walking interpreter: the expression nodes of
    golox/internal/expr/expr.go and the statement nodes of golox/internal/stmt/stmt.go,
    completed with every node the parser builds (variables, assignment, logical operators,
    calls, property access, `this`, `super` and classes).

    Go's nil `Expr`/`Stmt` interface values are the constructors `NoExpr` and `NoStmt`;
    optional pointer fields are `Option`s. A node that names a binding (a variable, an
    assignment, `this`, `super`) carries `id`, the position of its token in the token
    stream: the key under which the resolver records the binding's depth. */
module Ast {
  import opened Wrappers
  import opened Tokens

  /** `LiteralType`: the tag of a literal node. Booleans are `BoolType` with the number
      0 (false) or 1 (true). */
  datatype LiteralType = NumberType | StringType | BoolType | NilType

  datatype Expr =
    | NoExpr
    | Unary(op: Token, right: Expr)
    | Binary(left: Expr, op: Token, right: Expr)
    | Literal(litType: LiteralType, number: real, str: string)
    | Grouping(expression: Expr)
    | Variable(name: Token, id: nat)
    | Assign(name: Token, id: nat, value: Expr)
    | Logical(left: Expr, op: Token, right: Expr)
    | Call(callee: Expr, paren: Token, arguments: seq<Expr>)
    | Get(obj: Expr, name: Token)
    | Set(obj: Expr, name: Token, value: Expr)
    | This(keyword: Token, id: nat)
    | Super(keyword: Token, id: nat, methodName: Token)

  /** A function or method declaration (`FunctionStmt`); its body is a statement list. */
  datatype Function = Function(name: Token, params: seq<Token>, body: seq<Stmt>)

  datatype Stmt =
    | NoStmt
    | Expression(expression: Expr)
    | Print(expression: Expr)
    | Var(varName: Option<Token>, initializer: Option<Expr>)
    | Block(statements: seq<Stmt>)
    | If(condition: Expr, thenBranch: Stmt, elseBranch: Option<Stmt>)
    | While(condition: Expr, body: Stmt)
    | FunctionDecl(decl: Function)
    | Return(keyword: Token, value: Expr)
    | Class(name: Token, superclass: Option<Expr>, methods: seq<Function>)  // superclass: a Variable

  // ---------------------------------------------------------------------------------
  // Constructors of expr.go

  /** `NewUnary`: the operator and its one operand. */
  function NewUnary(op: Token, right: Expr): (e: Expr)
    ensures e.Unary? && e.op == op && e.right == right
  {
    Unary(op, right)
  }

  /** `NewBinary(left, right, op)`: takes the right operand before the operator, and stores
      them as the node's left operand, operator and right operand. */
  function NewBinary(left: Expr, right: Expr, op: Token): (e: Expr)
    ensures e.Binary? && e.left == left && e.op == op && e.right == right
  {
    Binary(left, op, right)
  }

  /** `NewLiteral`: the tag, the numeric payload and the string payload. */
  function NewLiteral(t: LiteralType, n: real, s: string): (e: Expr)
    ensures e.Literal? && e.litType == t && e.number == n && e.str == s
  {
    Literal(t, n, s)
  }

  /** `NewGroup`: wraps exactly one expression. */
  function NewGroup(inner: Expr): (e: Expr)
    ensures e.Grouping? && e.expression == inner
  {
    Grouping(inner)
  }

  /** The boolean literals the parser builds for `false` and `true`. */
  function BoolLiteral(b: bool): (e: Expr)
    ensures e.Literal? && e.litType == BoolType && (e.number != 0.0 <==> b)
  {
    NewLiteral(BoolType, if b then 1.0 else 0.0, "")
  }

  // ---------------------------------------------------------------------------------
  // DefaultVisitBlockStmt

  /** The errors of visiting `stmts` in order with `visit`, every statement's errors kept
      (Go's `errors.Join` of the non-nil results; the empty sequence is nil). */
  function JoinedErrors<E>(stmts: seq<Stmt>, visit: Stmt -> seq<E>): seq<E>
  {
    if stmts == [] then [] else JoinedErrors(stmts[..|stmts| - 1], visit) + visit(stmts[|stmts| - 1])
  }

  /** `DefaultVisitBlockStmt` with a visitor whose effect is the errors it returns: visits
      every statement in order, continuing past failures. */
  method DefaultVisitBlock<E>(stmts: seq<Stmt>, visit: Stmt -> seq<E>) returns (errs: seq<E>)
    ensures errs == JoinedErrors(stmts, visit)
  {
    errs := [];
    for k := 0 to |stmts|
      invariant errs == JoinedErrors(stmts[..k], visit)
    {
      assert stmts[..k + 1][..k] == stmts[..k];
      var err := visit(stmts[k]);
      if err != [] {
        errs := errs + err;
      }
    }
    assert stmts[..|stmts|] == stmts;
  }

  /** The joined error is nil exactly when every statement's visit succeeded. */
  lemma {:induction false} JoinedErrorsNil<E>(stmts: seq<Stmt>, visit: Stmt -> seq<E>)
    ensures JoinedErrors(stmts, visit) == [] <==> forall i :: 0 <= i < |stmts| ==> visit(stmts[i]) == []
  {
    if stmts != [] {
      var init := stmts[..|stmts| - 1];
      JoinedErrorsNil(init, visit);
      assert forall i :: 0 <= i < |init| ==> init[i] == stmts[i];
    }
  }

  /** Joining splits over a split of the statements: a later statement's errors come after
      an earlier one's. */
  lemma {:induction false} JoinedErrorsAppend<E>(a: seq<Stmt>, b: seq<Stmt>, visit: Stmt -> seq<E>)
    ensures JoinedErrors(a + b, visit) == JoinedErrors(a, visit) + JoinedErrors(b, visit)
    decreases |b|
  {
    if b == [] {
      assert a + b == a;
    } else {
      var b' := b[..|b| - 1];
      assert (a + b)[..|a + b| - 1] == a + b';
      JoinedErrorsAppend(a, b', visit);
    }
  }
}
