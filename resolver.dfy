/** The static pass of golox/internal/resolver/resolver.go: before the interpreter runs, every
    variable, assignment, `this` and `super` is bound to the number of scopes between its use
    and its declaration, and misplaced `return`, `this` and `super` are reported.

    The resolver's state is a stack of scopes (a scope maps a name to whether its declaration
    has finished), the interpreter's `locals` table (keyed by the node's `id`), and the kinds
    of the function and class being resolved. The pure functions below say what resolving a
    node does to that state; the `Resolver` class holds the same state in fields and its
    methods are proved to agree with them.

    Global code has no scope: with an empty stack `declare` and `define` do nothing, and a
    name bound nowhere is left out of `locals` (the interpreter then looks it up among the
    globals). The first error stops `Resolve`, and the scopes and kinds entered before it are
    left as they are: only an error-free resolution restores them. */
module LoxResolver {
  import opened Wrappers
  import Tokens
  import opened Ast
  import LoxParser

  type Token = Tokens.Token

  /** `functionType`: NONE, FUNCTION, METHOD, INIT. */
  datatype FunctionType = NotInFunction | InFunction | InMethod | InInitializer

  /** `classType`: NONe, CLASS, SUBCLASS. */
  datatype ClassType = NotInClass | InClass | InSubclass

  /** A scope maps a name to whether its declaration is finished (`define`d). */
  type Scope = map<string, bool>

  type ScopeStack = seq<Scope>

  /** `resolverError` (a token and a message), or the bare error of reading a variable in
      its own initializer. */
  datatype ResolveError = ResolverError(token: Token, message: string) | InitializerRead

  /** The Go panics of the resolver: `Accept` on a nil node, or a `VarStmt` without a name. */
  datatype Crash = NilExpression | NilStatement | NilVarName

  datatype RState = RState(scopes: ScopeStack, locals: map<nat, nat>, funcTy: FunctionType, classTy: ClassType)

  /** The state after resolving a node and the errors found (Go's `errors.Join` of them, the
      empty sequence being nil), or a panic. */
  datatype Resolution = Resolved(st: RState, errs: seq<ResolveError>) | Crashed(crash: Crash)

  /** The resolution went wrong: later siblings are not resolved. */
  predicate Stops(r: Resolution)
  {
    r.Crashed? || r.errs != []
  }

  /** `errs` found earlier, put in front of those of `r`. */
  function Prefixed(errs: seq<ResolveError>, r: Resolution): Resolution
  {
    if r.Crashed? then r else Resolved(r.st, errs + r.errs)
  }

  /** The outcome of a method of `Resolver` as a `Resolution`. */
  function Outcome(st: RState, errs: seq<ResolveError>, crash: Option<Crash>): Resolution
  {
    if crash.Some? then Crashed(crash.value) else Resolved(st, errs)
  }

  // ---------------------------------------------------------------------------------
  // scopeStack

  /** `push`: the scope becomes the innermost one, above the others. */
  function Push(s: ScopeStack, sc: Scope): (r: ScopeStack)
    ensures |r| == |s| + 1 && r[..|s|] == s && r[|s|] == sc
  {
    s + [sc]
  }

  /** `pop`: the rest of the stack and the innermost scope; an error on the empty stack. The
      two halves pushed back give the stack again. */
  function Pop(s: ScopeStack): (r: Result<(ScopeStack, Scope), string>)
    ensures r.Err? <==> s == []
    ensures r.Err? ==> r.error == "Empty scope stack"
    ensures r.Ok? ==> Push(r.value.0, r.value.1) == s
  {
    if s == [] then Err("Empty scope stack") else Ok((s[..|s| - 1], s[|s| - 1]))
  }

  /** `peek`: the innermost scope, the one `pop` would remove. */
  function Peek(s: ScopeStack): (r: Option<Scope>)
    ensures r.Some? <==> s != []
    ensures r.Some? ==> r.value == Pop(s).value.1
  {
    if s == [] then None else Some(s[|s| - 1])
  }

  /** Popping undoes pushing, and the pushed scope is the one on top. */
  lemma PopUndoesPush(s: ScopeStack, sc: Scope)
    ensures Pop(Push(s, sc)) == Ok((s, sc)) && Peek(Push(s, sc)) == Some(sc)
  {
    assert Push(s, sc)[..|s|] == s;
  }

  // ---------------------------------------------------------------------------------
  // Scopes and bindings

  /** `name` is declared and defined in `sc`. */
  predicate Binds(sc: Scope, name: string)
  {
    name in sc && sc[name]
  }

  /** The depth `resolveLocal` records: how many scopes lie above the innermost one that
      binds `name` to a finished declaration (a scope where it is only declared is passed
      over); none when no scope does. */
  function Lookup(scopes: ScopeStack, name: string): (r: Option<nat>)
    ensures r.Some? ==> r.value < |scopes| && Binds(scopes[|scopes| - 1 - r.value], name)
    ensures r.Some? ==> forall j :: |scopes| - 1 - r.value < j < |scopes| ==> !Binds(scopes[j], name)
    ensures r.None? ==> forall j :: 0 <= j < |scopes| ==> !Binds(scopes[j], name)
  {
    if scopes == [] then None
    else if Binds(scopes[|scopes| - 1], name) then Some(0)
    else
      var init := scopes[..|scopes| - 1];
      var inner := Lookup(init, name);
      assert forall j :: 0 <= j < |init| ==> init[j] == scopes[j];
      if inner.Some? then Some(inner.value + 1) else None
  }

  /** `resolveLocal`: the depth of the binding, recorded under the node's id. */
  function LocalResolved(st: RState, name: Token, id: nat): RState
  {
    var d := Lookup(st.scopes, name.lexeme);
    if d.Some? then st.(locals := st.locals[id := d.value]) else st
  }

  /** `beginScope`: a new, empty innermost scope. */
  function ScopeBegun(st: RState): RState
  {
    st.(scopes := Push(st.scopes, map[]))
  }

  /** `endScope`: the innermost scope is dropped; on the empty stack `pop`'s error is
      ignored by every caller and nothing changes. */
  function ScopeEnded(st: RState): RState
  {
    if st.scopes == [] then st else st.(scopes := Pop(st.scopes).value.0)
  }

  /** `declare`: in the innermost scope, `name` becomes declared but not defined; a name
      already there is an error. Globals are not tracked. */
  function Declared(st: RState, name: Token): (r: Result<RState, ResolveError>)
    ensures r.Err? <==> st.scopes != [] && name.lexeme in Peek(st.scopes).value
    ensures r.Err? ==> r.error == ResolverError(name, "Already a variable with this name in scope")
  {
    if st.scopes == [] then Ok(st)
    else
      var top := st.scopes[|st.scopes| - 1];
      if name.lexeme in top then Err(ResolverError(name, "Already a variable with this name in scope"))
      else Ok(st.(scopes := st.scopes[..|st.scopes| - 1] + [top[name.lexeme := false]]))
  }

  /** `define` (and the direct writes of `this` and `super`): in the innermost scope, the
      name's declaration is finished. */
  function Defined(st: RState, name: string): RState
  {
    if st.scopes == [] then st
    else
      var top := st.scopes[|st.scopes| - 1];
      st.(scopes := st.scopes[..|st.scopes| - 1] + [top[name := true]])
  }

  /** The check of `VisitVariableExpr`: the innermost scope has the name declared but not
      defined, that is, the variable is read in its own initializer. */
  predicate ReadsOwnInitializer(scopes: ScopeStack, name: string)
  {
    scopes != [] && name in scopes[|scopes| - 1] && !scopes[|scopes| - 1][name]
  }

  // ---------------------------------------------------------------------------------
  // Sizes for termination: unlike the interpreter, the resolver enters function bodies.

  function ExprNodes(e: Expr): (n: nat)
    ensures n >= 1
  {
    match e
    case NoExpr => 1
    case Literal(_, _, _) => 1
    case Variable(_, _) => 1
    case This(_, _) => 1
    case Super(_, _, _) => 1
    case Unary(_, right) => 1 + ExprNodes(right)
    case Grouping(inner) => 1 + ExprNodes(inner)
    case Binary(left, _, right) => 1 + ExprNodes(left) + ExprNodes(right)
    case Logical(left, _, right) => 1 + ExprNodes(left) + ExprNodes(right)
    case Assign(_, _, value) => 1 + ExprNodes(value)
    case Call(callee, _, args) => 1 + ExprNodes(callee) + ArgsNodes(args)
    case Get(obj, _) => 1 + ExprNodes(obj)
    case Set(obj, _, value) => 1 + ExprNodes(obj) + ExprNodes(value)
  }

  function ArgsNodes(args: seq<Expr>): nat
  {
    if args == [] then 0 else 1 + ExprNodes(args[0]) + ArgsNodes(args[1..])
  }

  function StmtNodes(s: Stmt): (n: nat)
    ensures n >= 1
  {
    match s
    case NoStmt => 1
    case Expression(e) => 1 + ExprNodes(e)
    case Print(e) => 1 + ExprNodes(e)
    case Var(_, init) => 1 + (if init.Some? then ExprNodes(init.value) else 0)
    case Block(stmts) => 1 + StmtsNodes(stmts)
    case If(cond, thenBranch, elseBranch) =>
      1 + ExprNodes(cond) + StmtNodes(thenBranch) + (if elseBranch.Some? then StmtNodes(elseBranch.value) else 0)
    case While(cond, body) => 1 + ExprNodes(cond) + StmtNodes(body)
    case FunctionDecl(f) => 1 + FunctionNodes(f)
    case Return(_, value) => 1 + ExprNodes(value)
    case Class(_, superclass, methods) =>
      1 + (if superclass.Some? then ExprNodes(superclass.value) else 0) + MethodsNodes(methods)
  }

  function StmtsNodes(stmts: seq<Stmt>): nat
  {
    if stmts == [] then 0 else 1 + StmtNodes(stmts[0]) + StmtsNodes(stmts[1..])
  }

  function FunctionNodes(f: Function): (n: nat)
    ensures n >= 1
  {
    1 + StmtsNodes(f.body)
  }

  function MethodsNodes(methods: seq<Function>): nat
  {
    if methods == [] then 0 else FunctionNodes(methods[0]) + MethodsNodes(methods[1..])
  }

  // ---------------------------------------------------------------------------------
  // Resolution

  /** `resolveExpr`. Binary and logical operators resolve their right operand first; a
      variable read in its own initializer is an error; `this` needs an enclosing class and
      `super` a subclass. Only `locals` changes. */
  function ExprResolution(st: RState, e: Expr): Resolution
    decreases ExprNodes(e), 1
  {
    match e
    case NoExpr => Crashed(NilExpression)
    case Literal(_, _, _) => Resolved(st, [])
    case Unary(_, right) => ExprResolution(st, right)
    case Grouping(inner) => ExprResolution(st, inner)
    case Get(obj, _) => ExprResolution(st, obj)
    case Binary(left, _, right) =>
      var r := ExprResolution(st, right);
      if Stops(r) then r else ExprResolution(r.st, left)
    case Logical(left, _, right) =>
      var r := ExprResolution(st, right);
      if Stops(r) then r else ExprResolution(r.st, left)
    case Set(obj, _, value) =>
      var r := ExprResolution(st, obj);
      if Stops(r) then r else ExprResolution(r.st, value)
    case Call(callee, _, args) =>
      var r := ExprResolution(st, callee);
      if Stops(r) then r else ArgsResolution(r.st, args)
    case Variable(name, id) =>
      if ReadsOwnInitializer(st.scopes, name.lexeme) then Resolved(st, [InitializerRead])
      else Resolved(LocalResolved(st, name, id), [])
    case Assign(name, id, value) =>
      var r := ExprResolution(st, value);
      if Stops(r) then r else Resolved(LocalResolved(r.st, name, id), [])
    case This(keyword, id) =>
      if st.classTy == NotInClass then Resolved(st, [ResolverError(keyword, "Can't use 'this' outside of class.")])
      else Resolved(LocalResolved(st, keyword, id), [])
    case Super(keyword, id, _) =>
      if st.classTy == NotInClass then Resolved(st, [ResolverError(keyword, "Can't use super outside of class.")])
      else if st.classTy != InSubclass then
        Resolved(st, [ResolverError(keyword, "Can't use super in class with no superclass.")])
      else Resolved(LocalResolved(st, keyword, id), [])
  }

  /** The arguments of `VisitCallExpr`, in order, up to the first error. */
  function ArgsResolution(st: RState, args: seq<Expr>): Resolution
    decreases ArgsNodes(args), 0
  {
    if args == [] then Resolved(st, [])
    else
      var r := ExprResolution(st, args[0]);
      if Stops(r) then r else ArgsResolution(r.st, args[1..])
  }

  /** `resolveStmt`. */
  function StmtResolution(st: RState, s: Stmt): Resolution
    decreases StmtNodes(s), 1
  {
    match s
    case NoStmt => Crashed(NilStatement)
    case Expression(e) => ExprResolution(st, e)
    case Print(e) => ExprResolution(st, e)
    case Var(name, init) =>
      if name.None? then Crashed(NilVarName)
      else (
        match Declared(st, name.value)
        case Err(err) => Resolved(st, [err])
        case Ok(st1) =>
          if init.None? then Resolved(Defined(st1, name.value.lexeme), [])
          else
            var r := ExprResolution(st1, init.value);
            if Stops(r) then r else Resolved(Defined(r.st, name.value.lexeme), []))
    case Block(stmts) =>
      var r := StmtsResolution(ScopeBegun(st), stmts);
      if Stops(r) then r else Resolved(ScopeEnded(r.st), [])
    case If(cond, thenBranch, elseBranch) =>
      var c := ExprResolution(st, cond);
      if Stops(c) then c
      else
        var t := StmtResolution(c.st, thenBranch);
        if Stops(t) || elseBranch.None? then t else StmtResolution(t.st, elseBranch.value)
    case While(cond, body) =>
      if cond.NoExpr? then StmtResolution(st, body)
      else
        var c := ExprResolution(st, cond);
        if Stops(c) then c else StmtResolution(c.st, body)
    case FunctionDecl(f) =>
      (match Declared(st, f.name)
       case Err(err) => Resolved(st, [err])
       case Ok(st1) => FunctionResolution(Defined(st1, f.name.lexeme), f, InFunction))
    case Return(keyword, value) =>
      if st.funcTy == NotInFunction then Resolved(st, [ResolverError(keyword, "Can't return from top-level code.")])
      else if value.NoExpr? then Resolved(st, [])
      else if st.funcTy == InInitializer then Resolved(st, [ResolverError(keyword, "Can't return value from inititalizer.")])
      else ExprResolution(st, value)
    case Class(name, superclass, methods) =>
      var st0 := st.(classTy := InClass);
      match Declared(st0, name)
      case Err(err) => Resolved(st0, [err])
      case Ok(st1) =>
        var st2 := Defined(st1, name.lexeme);
        if superclass.None? then ClassBodyResolution(st2, st.classTy, false, methods)
        else
          var sup := superclass.value;
          var st3 := st2.(classTy := InSubclass);
          if sup.Variable? && sup.name.lexeme == name.lexeme then
            Resolved(st3, [ResolverError(sup.name, "Can't inherit from itself.")])
          else
            var r := ExprResolution(st3, sup);
            if r.Crashed? then r
            else ClassBodyResolution(Defined(ScopeBegun(r.st), "super"), st.classTy, true, methods)
  }

  /** The end of `VisitClassStmt` once the class name (and the `super` scope) is in place:
      a scope binding `this`, every method resolved (continuing past errors), the scopes
      closed and the enclosing class kind `outer` restored. */
  function ClassBodyResolution(st: RState, outer: ClassType, hasSuper: bool, methods: seq<Function>): Resolution
    decreases MethodsNodes(methods), 2
  {
    var m := MethodsResolution(Defined(ScopeBegun(st), "this"), methods);
    if m.Crashed? then m
    else
      var closed := ScopeEnded(m.st);
      var closed' := if hasSuper then ScopeEnded(closed) else closed;
      Resolved(closed'.(classTy := outer), m.errs)
  }

  /** The loop of `VisitClassStmt`: each method is a function of kind INIT when named `init`
      and METHOD otherwise; every method's errors are kept. */
  function MethodsResolution(st: RState, methods: seq<Function>): Resolution
    decreases MethodsNodes(methods), 1
  {
    if methods == [] then Resolved(st, [])
    else
      var r := FunctionResolution(st, methods[0], MethodKind(methods[0]));
      if r.Crashed? then r
      else
        Prefixed(r.errs, MethodsResolution(r.st, methods[1..]))
  }

  /** A method named `init` is an initializer. */
  function MethodKind(m: Function): FunctionType
  {
    if m.name.lexeme == "init" then InInitializer else InMethod
  }

  /** One turn of the method loop, with the method's resolution `r` given. */
  lemma MethodsStep(st: RState, methods: seq<Function>, k: nat, r: Resolution)
    requires k < |methods| && r == FunctionResolution(st, methods[k], MethodKind(methods[k]))
    ensures r.Crashed? ==> MethodsResolution(st, methods[k..]) == r
    ensures r.Resolved? ==> MethodsResolution(st, methods[k..]) == Prefixed(r.errs, MethodsResolution(r.st, methods[k + 1..]))
  {
    assert methods[k..][1..] == methods[k + 1..];
  }

  /** Errors put in front twice are put in front once, joined. */
  lemma PrefixedTwice(a: seq<ResolveError>, b: seq<ResolveError>, r: Resolution)
    ensures Prefixed(a, Prefixed(b, r)) == Prefixed(a + b, r)
  {
    if r.Resolved? {
      assert a + (b + r.errs) == (a + b) + r.errs;
    }
  }

  /** `Resolve`: the statements in order, up to the first error. */
  function StmtsResolution(st: RState, stmts: seq<Stmt>): Resolution
    decreases StmtsNodes(stmts), 0
  {
    if stmts == [] then Resolved(st, [])
    else
      var r := StmtResolution(st, stmts[0]);
      if Stops(r) then r else StmtsResolution(r.st, stmts[1..])
  }

  /** `resolveFunction`: a scope holding the parameters, then the body, under the function
      kind `ty`; the scope is closed and the enclosing kind restored only on success. */
  function FunctionResolution(st: RState, f: Function, ty: FunctionType): Resolution
    decreases FunctionNodes(f), 0
  {
    var p := ParamsResolution(ScopeBegun(st.(funcTy := ty)), f.params);
    if Stops(p) then p
    else
      var b := StmtsResolution(p.st, f.body);
      if Stops(b) then b else Resolved(ScopeEnded(b.st).(funcTy := st.funcTy), [])
  }

  /** The parameter loop of `resolveFunction`: each parameter declared and defined, up to the
      first repeated name. */
  function ParamsResolution(st: RState, params: seq<Token>): Resolution
    decreases params
  {
    if params == [] then Resolved(st, [])
    else
      match Declared(st, params[0])
      case Err(err) => Resolved(st, [err])
      case Ok(st1) => ParamsResolution(Defined(st1, params[0].lexeme), params[1..])
  }

  // ---------------------------------------------------------------------------------
  // Sizes of parts

  lemma {:induction false} ArgNodesBelow(args: seq<Expr>, k: nat)
    requires k < |args|
    ensures ExprNodes(args[k]) < ArgsNodes(args)
  {
    if k > 0 {
      ArgNodesBelow(args[1..], k - 1);
    }
  }

  lemma {:induction false} StmtNodesBelow(stmts: seq<Stmt>, k: nat)
    requires k < |stmts|
    ensures StmtNodes(stmts[k]) < StmtsNodes(stmts)
  {
    if k > 0 {
      StmtNodesBelow(stmts[1..], k - 1);
    }
  }

  lemma {:induction false} MethodNodesBelow(methods: seq<Function>, k: nat)
    requires k < |methods|
    ensures FunctionNodes(methods[k]) <= MethodsNodes(methods)
  {
    if k > 0 {
      MethodNodesBelow(methods[1..], k - 1);
    }
  }

  // ---------------------------------------------------------------------------------
  // The resolver object

  /** `Resolver`: the scope stack, the interpreter's `locals` table (Go shares the map, so
      the interpreter sees every write) and the current function and class kinds. */
  class Resolver {
    var scopes: ScopeStack
    var locals: map<nat, nat>
    var funcTy: FunctionType
    var classTy: ClassType

    function Current(): RState
      reads this
    {
      RState(scopes, locals, funcTy, classTy)
    }

    /** `NewResolver`: no scope, outside any function and class, writing into `locals`. */
    constructor (locals: map<nat, nat>)
      ensures Current() == RState([], locals, NotInFunction, NotInClass)
    {
      scopes := [];
      this.locals := locals;
      funcTy := NotInFunction;
      classTy := NotInClass;
    }

    method BeginScope()
      modifies this
      ensures Current() == ScopeBegun(old(Current()))
    {
      scopes := Push(scopes, map[]);
    }

    /** `endScope`: `pop`'s error when there is no scope, the state then unchanged. */
    method EndScope() returns (err: Option<string>)
      modifies this
      ensures Current() == ScopeEnded(old(Current()))
      ensures err.Some? <==> old(scopes) == []
    {
      var popped := Pop(scopes);
      if popped.Err? {
        return Some(popped.error);
      }
      scopes := popped.value.0;
      err := None;
    }

    method Declare(name: Token) returns (err: Option<ResolveError>)
      modifies this
      ensures Declared(old(Current()), name) == if err.Some? then Err(err.value) else Ok(Current())
      ensures err.Some? ==> Current() == old(Current())
    {
      if scopes == [] {
        return None;
      }
      var top := Peek(scopes).value;
      if name.lexeme in top {
        return Some(ResolverError(name, "Already a variable with this name in scope"));
      }
      scopes := scopes[..|scopes| - 1] + [top[name.lexeme := false]];
      err := None;
    }

    method Define(name: string)
      modifies this
      ensures Current() == Defined(old(Current()), name)
    {
      if scopes != [] {
        var top := Peek(scopes).value;
        scopes := scopes[..|scopes| - 1] + [top[name := true]];
      }
    }

    /** `resolveLocal`: the scopes from the innermost out; the first that binds the name
        gives the depth, which `Interpreter.Resolve` records under `id`. */
    method ResolveLocal(name: Token, id: nat)
      modifies this
      ensures Current() == LocalResolved(old(Current()), name, id)
    {
      var i := |scopes| - 1;
      while i >= 0
        invariant -1 <= i < |scopes|
        invariant Current() == old(Current())
        invariant forall j :: i < j < |scopes| ==> !Binds(scopes[j], name.lexeme)
        decreases i
      {
        if name.lexeme in scopes[i] && scopes[i][name.lexeme] {
          assert Lookup(scopes, name.lexeme) == Some(|scopes| - 1 - i);
          locals := locals[id := |scopes| - 1 - i];
          return;
        }
        i := i - 1;
      }
    }

    // -------------------------------------------------------------------------------
    // Expressions

    method ResolveExpr(e: Expr) returns (errs: seq<ResolveError>, crash: Option<Crash>)
      modifies this
      decreases ExprNodes(e), 1
      ensures Outcome(Current(), errs, crash) == ExprResolution(old(Current()), e)
    {
      match e
      case NoExpr =>
        errs, crash := [], Some(NilExpression);
      case Literal(_, _, _) =>
        errs, crash := [], None;
      case Unary(_, right) =>
        errs, crash := ResolveExpr(right);
      case Grouping(inner) =>
        errs, crash := ResolveExpr(inner);
      case Get(obj, _) =>
        errs, crash := ResolveExpr(obj);
      case Binary(_, _, _) =>
        errs, crash := VisitOperands(e);
      case Logical(_, _, _) =>
        errs, crash := VisitOperands(e);
      case Set(_, _, _) =>
        errs, crash := VisitSet(e);
      case Call(_, _, _) =>
        errs, crash := VisitCall(e);
      case Variable(_, _) =>
        errs, crash := VisitVariable(e);
      case Assign(_, _, _) =>
        errs, crash := VisitAssign(e);
      case This(_, _) =>
        errs, crash := VisitThis(e);
      case Super(_, _, _) =>
        errs, crash := VisitSuper(e);
    }

    /** `VisitBinaryExpr` and `VisitLogicalExpr`: the right operand, then the left. */
    method VisitOperands(e: Expr) returns (errs: seq<ResolveError>, crash: Option<Crash>)
      requires e.Binary? || e.Logical?
      modifies this
      decreases ExprNodes(e), 0
      ensures Outcome(Current(), errs, crash) == ExprResolution(old(Current()), e)
    {
      errs, crash := ResolveExpr(e.right);
      if crash.Some? || errs != [] {
        return;
      }
      errs, crash := ResolveExpr(e.left);
    }

    /** `VisitSetExpr`: the object, then the value. */
    method VisitSet(e: Expr) returns (errs: seq<ResolveError>, crash: Option<Crash>)
      requires e.Set?
      modifies this
      decreases ExprNodes(e), 0
      ensures Outcome(Current(), errs, crash) == ExprResolution(old(Current()), e)
    {
      errs, crash := ResolveExpr(e.obj);
      if crash.Some? || errs != [] {
        return;
      }
      errs, crash := ResolveExpr(e.value);
    }

    /** `VisitCallExpr`: the callee, then the arguments in order. */
    method VisitCall(e: Expr) returns (errs: seq<ResolveError>, crash: Option<Crash>)
      requires e.Call?
      modifies this
      decreases ExprNodes(e), 0
      ensures Outcome(Current(), errs, crash) == ExprResolution(old(Current()), e)
    {
      errs, crash := ResolveExpr(e.callee);
      if crash.Some? || errs != [] {
        return;
      }
      var args := e.arguments;
      ghost var target := ArgsResolution(Current(), args);
      for k := 0 to |args|
        invariant target == ArgsResolution(Current(), args[k..])
      {
        assert args[k..][1..] == args[k + 1..];
        ArgNodesBelow(args, k);
        errs, crash := ResolveExpr(args[k]);
        if crash.Some? || errs != [] {
          return;
        }
      }
      errs, crash := [], None;
    }

    /** `VisitVariableExpr`: an error inside the variable's own initializer, else
        `resolveLocal`. */
    method VisitVariable(e: Expr) returns (errs: seq<ResolveError>, crash: Option<Crash>)
      requires e.Variable?
      modifies this
      decreases ExprNodes(e), 0
      ensures Outcome(Current(), errs, crash) == ExprResolution(old(Current()), e)
    {
      crash := None;
      if scopes != [] {
        var sc := Peek(scopes).value;
        if e.name.lexeme in sc && !sc[e.name.lexeme] {
          return [InitializerRead], None;
        }
      }
      ResolveLocal(e.name, e.id);
      errs := [];
    }

    /** `VisitAssignExpr`: the value, then `resolveLocal` of the name. */
    method VisitAssign(e: Expr) returns (errs: seq<ResolveError>, crash: Option<Crash>)
      requires e.Assign?
      modifies this
      decreases ExprNodes(e), 0
      ensures Outcome(Current(), errs, crash) == ExprResolution(old(Current()), e)
    {
      errs, crash := ResolveExpr(e.value);
      if crash.Some? || errs != [] {
        return;
      }
      ResolveLocal(e.name, e.id);
    }

    /** `VisitThisExpr`: an error outside a class, else `resolveLocal` of the keyword. */
    method VisitThis(e: Expr) returns (errs: seq<ResolveError>, crash: Option<Crash>)
      requires e.This?
      modifies this
      decreases ExprNodes(e), 0
      ensures Outcome(Current(), errs, crash) == ExprResolution(old(Current()), e)
    {
      crash := None;
      if classTy == NotInClass {
        return [ResolverError(e.keyword, "Can't use 'this' outside of class.")], None;
      }
      ResolveLocal(e.keyword, e.id);
      errs := [];
    }

    /** `VisitSuperExpr`: an error outside a class or in a class without a superclass, else
        `resolveLocal` of the keyword. */
    method VisitSuper(e: Expr) returns (errs: seq<ResolveError>, crash: Option<Crash>)
      requires e.Super?
      modifies this
      decreases ExprNodes(e), 0
      ensures Outcome(Current(), errs, crash) == ExprResolution(old(Current()), e)
    {
      crash := None;
      if classTy == NotInClass {
        return [ResolverError(e.keyword, "Can't use super outside of class.")], None;
      }
      if classTy != InSubclass {
        return [ResolverError(e.keyword, "Can't use super in class with no superclass.")], None;
      }
      ResolveLocal(e.keyword, e.id);
      errs := [];
    }

    // -------------------------------------------------------------------------------
    // Statements

    /** `Resolve`: the statements in order, returning at the first error. */
    method Resolve(stmts: seq<Stmt>) returns (errs: seq<ResolveError>, crash: Option<Crash>)
      modifies this
      decreases StmtsNodes(stmts), 0
      ensures Outcome(Current(), errs, crash) == StmtsResolution(old(Current()), stmts)
    {
      ghost var target := StmtsResolution(Current(), stmts);
      for k := 0 to |stmts|
        invariant target == StmtsResolution(Current(), stmts[k..])
      {
        assert stmts[k..][1..] == stmts[k + 1..];
        StmtNodesBelow(stmts, k);
        errs, crash := ResolveStmt(stmts[k]);
        if crash.Some? || errs != [] {
          return;
        }
      }
      errs, crash := [], None;
    }

    method ResolveStmt(s: Stmt) returns (errs: seq<ResolveError>, crash: Option<Crash>)
      modifies this
      decreases StmtNodes(s), 2
      ensures Outcome(Current(), errs, crash) == StmtResolution(old(Current()), s)
    {
      match s
      case NoStmt =>
        errs, crash := [], Some(NilStatement);
      case Expression(e) =>
        errs, crash := ResolveExpr(e);
      case Print(e) =>
        errs, crash := ResolveExpr(e);
      case Var(_, _) =>
        errs, crash := VisitVar(s);
      case Block(stmts) =>
        errs, crash := VisitBlock(s);
      case If(_, _, _) =>
        errs, crash := VisitIf(s);
      case While(_, _) =>
        errs, crash := VisitWhile(s);
      case FunctionDecl(_) =>
        errs, crash := VisitFunction(s);
      case Return(_, _) =>
        errs, crash := VisitReturn(s);
      case Class(_, _, _) =>
        errs, crash := VisitClass(s);
    }

    /** `VisitVarStmt`: declare, resolve the initializer, define. */
    method VisitVar(s: Stmt) returns (errs: seq<ResolveError>, crash: Option<Crash>)
      requires s.Var?
      modifies this
      decreases StmtNodes(s), 1
      ensures Outcome(Current(), errs, crash) == StmtResolution(old(Current()), s)
    {
      if s.varName.None? {
        return [], Some(NilVarName);
      }
      var name := s.varName.value;
      var err := Declare(name);
      if err.Some? {
        return [err.value], None;
      }
      if s.initializer.Some? {
        errs, crash := ResolveExpr(s.initializer.value);
        if crash.Some? || errs != [] {
          return;
        }
      }
      Define(name.lexeme);
      errs, crash := [], None;
    }

    /** `VisitBlockStmt`: a new scope around the statements, closed only when they resolve. */
    method VisitBlock(s: Stmt) returns (errs: seq<ResolveError>, crash: Option<Crash>)
      requires s.Block?
      modifies this
      decreases StmtNodes(s), 1
      ensures Outcome(Current(), errs, crash) == StmtResolution(old(Current()), s)
    {
      BeginScope();
      errs, crash := Resolve(s.statements);
      if crash.Some? || errs != [] {
        return;
      }
      var ignored := EndScope();
    }

    /** `VisitIfStmt`: condition, then branch, else branch, up to the first error. */
    method VisitIf(s: Stmt) returns (errs: seq<ResolveError>, crash: Option<Crash>)
      requires s.If?
      modifies this
      decreases StmtNodes(s), 1
      ensures Outcome(Current(), errs, crash) == StmtResolution(old(Current()), s)
    {
      errs, crash := ResolveExpr(s.condition);
      if crash.Some? || errs != [] {
        return;
      }
      errs, crash := ResolveStmt(s.thenBranch);
      if crash.Some? || errs != [] {
        return;
      }
      if s.elseBranch.Some? {
        errs, crash := ResolveStmt(s.elseBranch.value);
      }
    }

    /** `VisitWhileStmt`: the condition when there is one, then the body. */
    method VisitWhile(s: Stmt) returns (errs: seq<ResolveError>, crash: Option<Crash>)
      requires s.While?
      modifies this
      decreases StmtNodes(s), 1
      ensures Outcome(Current(), errs, crash) == StmtResolution(old(Current()), s)
    {
      if !s.condition.NoExpr? {
        errs, crash := ResolveExpr(s.condition);
        if crash.Some? || errs != [] {
          return;
        }
      }
      errs, crash := ResolveStmt(s.body);
    }

    /** `VisitFunctionStmt`: the name is declared and defined before the body is resolved,
        so the function can call itself. */
    method VisitFunction(s: Stmt) returns (errs: seq<ResolveError>, crash: Option<Crash>)
      requires s.FunctionDecl?
      modifies this
      decreases StmtNodes(s), 1
      ensures Outcome(Current(), errs, crash) == StmtResolution(old(Current()), s)
    {
      var err := Declare(s.decl.name);
      if err.Some? {
        return [err.value], None;
      }
      Define(s.decl.name.lexeme);
      errs, crash := ResolveFunction(s.decl, InFunction);
    }

    /** `VisitReturnStmt`: an error at top level, and for a value inside an initializer. */
    method VisitReturn(s: Stmt) returns (errs: seq<ResolveError>, crash: Option<Crash>)
      requires s.Return?
      modifies this
      decreases StmtNodes(s), 1
      ensures Outcome(Current(), errs, crash) == StmtResolution(old(Current()), s)
    {
      errs, crash := [], None;
      if funcTy == NotInFunction {
        return [ResolverError(s.keyword, "Can't return from top-level code.")], None;
      }
      if !s.value.NoExpr? {
        if funcTy == InInitializer {
          return [ResolverError(s.keyword, "Can't return value from inititalizer.")], None;
        }
        errs, crash := ResolveExpr(s.value);
      }
    }

    /** `VisitClassStmt` up to the methods: the class kind is set, the name declared and
        defined, and a superclass checked, resolved (its errors ignored) and bound to `super`
        in a scope of its own. */
    method VisitClass(s: Stmt) returns (errs: seq<ResolveError>, crash: Option<Crash>)
      requires s.Class?
      modifies this
      decreases StmtNodes(s), 1
      ensures Outcome(Current(), errs, crash) == StmtResolution(old(Current()), s)
    {
      var orig := classTy;
      classTy := InClass;
      var err := Declare(s.name);
      if err.Some? {
        return [err.value], None;
      }
      Define(s.name.lexeme);
      if s.superclass.Some? {
        classTy := InSubclass;
        var sup := s.superclass.value;
        if sup.Variable? && sup.name.lexeme == s.name.lexeme {
          return [ResolverError(sup.name, "Can't inherit from itself.")], None;
        }
        var ignored, c := ResolveExpr(sup);
        if c.Some? {
          return [], c;
        }
        BeginScope();
        Define("super");
      }
      errs, crash := ResolveClassBody(orig, s.superclass.Some?, s.methods);
    }

    /** The rest of `VisitClassStmt`: the `this` scope, the methods, then the scopes closed
        and the enclosing class kind restored. */
    method ResolveClassBody(outer: ClassType, hasSuper: bool, methods: seq<Function>)
      returns (errs: seq<ResolveError>, crash: Option<Crash>)
      modifies this
      decreases MethodsNodes(methods), 2
      ensures Outcome(Current(), errs, crash) == ClassBodyResolution(old(Current()), outer, hasSuper, methods)
    {
      BeginScope();
      Define("this");
      errs, crash := ResolveMethods(methods);
      if crash.Some? {
        return;
      }
      var ignored := EndScope();
      if hasSuper {
        ignored := EndScope();
      }
      classTy := outer;
    }

    /** The method loop of `VisitClassStmt`: every method is resolved, errors collected. */
    method ResolveMethods(methods: seq<Function>) returns (errs: seq<ResolveError>, crash: Option<Crash>)
      modifies this
      decreases MethodsNodes(methods), 1
      ensures Outcome(Current(), errs, crash) == MethodsResolution(old(Current()), methods)
    {
      ghost var target := MethodsResolution(Current(), methods);
      errs, crash := [], None;
      for k := 0 to |methods|
        invariant target == Prefixed(errs, MethodsResolution(Current(), methods[k..]))
      {
        MethodNodesBelow(methods, k);
        ghost var before := Current();
        var e, c := ResolveFunction(methods[k], MethodKind(methods[k]));
        MethodsStep(before, methods, k, Outcome(Current(), e, c));
        if c.Some? {
          return errs, c;
        }
        PrefixedTwice(errs, e, MethodsResolution(Current(), methods[k + 1..]));
        errs := errs + e;
      }
    }

    /** `resolveFunction`: under the kind `ty`, a scope with the parameters, then the body;
        the scope is closed and the enclosing kind restored only when both resolve. */
    method ResolveFunction(f: Function, ty: FunctionType) returns (errs: seq<ResolveError>, crash: Option<Crash>)
      modifies this
      decreases FunctionNodes(f), 0
      ensures Outcome(Current(), errs, crash) == FunctionResolution(old(Current()), f, ty)
    {
      var enclosing := funcTy;
      funcTy := ty;
      BeginScope();
      ghost var target := ParamsResolution(Current(), f.params);
      for k := 0 to |f.params|
        invariant target == ParamsResolution(Current(), f.params[k..])
      {
        assert f.params[k..][1..] == f.params[k + 1..];
        var err := Declare(f.params[k]);
        if err.Some? {
          return [err.value], None;
        }
        Define(f.params[k].lexeme);
      }
      errs, crash := Resolve(f.body);
      if crash.Some? || errs != [] {
        return;
      }
      var ignored := EndScope();
      funcTy := enclosing;
    }
  }
}
