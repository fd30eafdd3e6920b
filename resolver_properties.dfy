/** What resolution promises, proved about the functions of `LoxResolver`:

    - an expression only ever records depths: it leaves the scopes and the function and class
      kinds as they were;
    - a statement that resolves without error leaves every enclosing scope as it was (it can
      only add names to the innermost one) and restores the kinds; a function or a class body
      that resolves without error restores the scope stack exactly;
    - a tree without nil nodes, as the parser builds, never makes the resolver panic;
    - the depth recorded for a name is that of the innermost scope defining it, a name only
      declared there is looked up past it, and a variable read in its own initializer is an
      error. */
module LoxResolverProperties {
  import opened Wrappers
  import Tokens
  import opened Ast
  import opened LoxResolver
  import LoxParser

  type Token = Tokens.Token

  /** Same scopes and kinds; only `locals` may differ. */
  predicate Same(a: RState, b: RState)
  {
    a.scopes == b.scopes && a.funcTy == b.funcTy && a.classTy == b.classTy
  }

  /** Same kinds and as many scopes, every scope but the innermost one unchanged. */
  predicate Enclosing(a: RState, b: RState)
  {
    |b.scopes| == |a.scopes| && a.funcTy == b.funcTy && a.classTy == b.classTy
    && forall j :: 0 <= j < |a.scopes| - 1 ==> b.scopes[j] == a.scopes[j]
  }

  // ---------------------------------------------------------------------------------
  // Declaring and defining

  /** `declare` and `define` touch only the innermost scope. */
  lemma DeclareDefineEnclosing(st: RState, name: Token)
    ensures Declared(st, name).Ok? ==> Enclosing(st, Declared(st, name).value)
    ensures Enclosing(st, Defined(st, name.lexeme))
  {
  }

  /** A defined name is found in the innermost scope, at depth 0. */
  lemma DefinedIsInnermost(st: RState, name: string)
    requires st.scopes != []
    ensures Lookup(Defined(st, name).scopes, name) == Some(0)
  {
  }

  /** A name declared but not yet defined is read as its own initializer, and its
      declaration changes no depth: lookups pass over it to an outer binding. */
  lemma {:induction false} DeclaredIsPassedOver(st: RState, name: Token, n: string)
    requires st.scopes != [] && Declared(st, name).Ok?
    ensures ReadsOwnInitializer(Declared(st, name).value.scopes, name.lexeme)
    ensures Lookup(Declared(st, name).value.scopes, n) == Lookup(st.scopes, n)
  {
    var s := st.scopes;
    var s' := Declared(st, name).value.scopes;
    assert s'[..|s'| - 1] == s[..|s| - 1];
    assert !Binds(s'[|s'| - 1], n) ==> !Binds(s[|s| - 1], n);
  }

  /** `var a = a;` inside a scope where `a` is new: the initializer's read is an error. */
  lemma SelfInitializerFails(st: RState, name: Token, use: Token, id: nat)
    requires st.scopes != [] && name.lexeme !in st.scopes[|st.scopes| - 1] && use.lexeme == name.lexeme
    ensures StmtResolution(st, Var(Some(name), Some(Variable(use, id)))) == Resolved(Declared(st, name).value, [InitializerRead])
  {
  }

  // ---------------------------------------------------------------------------------
  // Scopes are restored

  lemma {:induction false} ExprKeepsScopes(st: RState, e: Expr)
    ensures ExprResolution(st, e).Resolved? ==> Same(st, ExprResolution(st, e).st)
    decreases ExprNodes(e), 1
  {
    match e
    case NoExpr =>
    case Literal(_, _, _) =>
    case Variable(_, _) =>
    case This(_, _) =>
    case Super(_, _, _) =>
    case Unary(_, right) => ExprKeepsScopes(st, right);
    case Grouping(inner) => ExprKeepsScopes(st, inner);
    case Get(obj, _) => ExprKeepsScopes(st, obj);
    case Assign(_, _, value) => ExprKeepsScopes(st, value);
    case Binary(left, _, right) => ExprPairKeepsScopes(st, right, left);
    case Logical(left, _, right) => ExprPairKeepsScopes(st, right, left);
    case Set(obj, _, value) => ExprPairKeepsScopes(st, obj, value);
    case Call(callee, _, args) =>
      ExprKeepsScopes(st, callee);
      var r := ExprResolution(st, callee);
      if !Stops(r) {
        ArgsKeepScopes(r.st, args);
      }
  }

  /** Two operands resolved one after the other. */
  lemma {:induction false} ExprPairKeepsScopes(st: RState, first: Expr, second: Expr)
    ensures var r := ExprResolution(st, first);
      var r2 := if Stops(r) then r else ExprResolution(r.st, second);
      r2.Resolved? ==> Same(st, r2.st)
    decreases ExprNodes(first) + ExprNodes(second), 0
  {
    ExprKeepsScopes(st, first);
    var r := ExprResolution(st, first);
    if !Stops(r) {
      ExprKeepsScopes(r.st, second);
    }
  }

  lemma {:induction false} ArgsKeepScopes(st: RState, args: seq<Expr>)
    ensures ArgsResolution(st, args).Resolved? ==> Same(st, ArgsResolution(st, args).st)
    decreases ArgsNodes(args), 0
  {
    if args != [] {
      ExprKeepsScopes(st, args[0]);
      var r := ExprResolution(st, args[0]);
      if !Stops(r) {
        ArgsKeepScopes(r.st, args[1..]);
      }
    }
  }

  /** The parameters are declared in the innermost scope. */
  lemma {:induction false} ParamsKeepEnclosing(st: RState, params: seq<Token>)
    ensures ParamsResolution(st, params).Resolved? && Enclosing(st, ParamsResolution(st, params).st)
    decreases params
  {
    if params != [] {
      DeclareDefineEnclosing(st, params[0]);
      if Declared(st, params[0]).Ok? {
        var st1 := Declared(st, params[0]).value;
        DeclareDefineEnclosing(st1, params[0]);
        ParamsKeepEnclosing(Defined(st1, params[0].lexeme), params[1..]);
      }
    }
  }

  /** A statement without error leaves the enclosing scopes and the kinds as they were. */
  lemma {:induction false} StmtKeepsEnclosing(st: RState, s: Stmt)
    ensures !Stops(StmtResolution(st, s)) ==> Enclosing(st, StmtResolution(st, s).st)
    decreases StmtNodes(s), 1
  {
    match s
    case NoStmt =>
    case Expression(e) => ExprKeepsScopes(st, e);
    case Print(e) => ExprKeepsScopes(st, e);
    case Return(_, value) => ExprKeepsScopes(st, value);
    case Var(_, _) => VarKeepsEnclosing(st, s);
    case Block(stmts) =>
      StmtsKeepEnclosing(ScopeBegun(st), stmts);
    case If(_, _, _) => IfKeepsEnclosing(st, s);
    case While(_, _) => WhileKeepsEnclosing(st, s);
    case FunctionDecl(f) =>
      DeclareDefineEnclosing(st, f.name);
      if Declared(st, f.name).Ok? {
        var st1 := Declared(st, f.name).value;
        DeclareDefineEnclosing(st1, f.name);
        FunctionRestores(Defined(st1, f.name.lexeme), f, InFunction);
      }
    case Class(_, _, _) => ClassKeepsEnclosing(st, s);
  }

  lemma {:induction false} IfKeepsEnclosing(st: RState, s: Stmt)
    requires s.If?
    ensures !Stops(StmtResolution(st, s)) ==> Enclosing(st, StmtResolution(st, s).st)
    decreases StmtNodes(s), 0
  {
    ExprKeepsScopes(st, s.condition);
    var c := ExprResolution(st, s.condition);
    if !Stops(c) {
      StmtKeepsEnclosing(c.st, s.thenBranch);
      var t := StmtResolution(c.st, s.thenBranch);
      if !Stops(t) && s.elseBranch.Some? {
        StmtKeepsEnclosing(t.st, s.elseBranch.value);
      }
    }
  }

  lemma {:induction false} WhileKeepsEnclosing(st: RState, s: Stmt)
    requires s.While?
    ensures !Stops(StmtResolution(st, s)) ==> Enclosing(st, StmtResolution(st, s).st)
    decreases StmtNodes(s), 0
  {
    if s.condition.NoExpr? {
      StmtKeepsEnclosing(st, s.body);
    } else {
      ExprKeepsScopes(st, s.condition);
      var c := ExprResolution(st, s.condition);
      if !Stops(c) {
        StmtKeepsEnclosing(c.st, s.body);
      }
    }
  }

  lemma {:induction false} VarKeepsEnclosing(st: RState, s: Stmt)
    requires s.Var?
    ensures !Stops(StmtResolution(st, s)) ==> Enclosing(st, StmtResolution(st, s).st)
    decreases StmtNodes(s), 0
  {
    if s.varName.Some? {
      var name := s.varName.value;
      DeclareDefineEnclosing(st, name);
      if Declared(st, name).Ok? {
        var st1 := Declared(st, name).value;
        if s.initializer.Some? {
          ExprKeepsScopes(st1, s.initializer.value);
          var r := ExprResolution(st1, s.initializer.value);
          if !Stops(r) {
            DeclareDefineEnclosing(r.st, name);
          }
        } else {
          DeclareDefineEnclosing(st1, name);
        }
      }
    }
  }

  lemma {:induction false} ClassKeepsEnclosing(st: RState, s: Stmt)
    requires s.Class?
    ensures !Stops(StmtResolution(st, s)) ==> Enclosing(st, StmtResolution(st, s).st)
    decreases StmtNodes(s), 0
  {
    var st0 := st.(classTy := InClass);
    DeclareDefineEnclosing(st0, s.name);
    if Declared(st0, s.name).Ok? {
      var st1 := Declared(st0, s.name).value;
      DeclareDefineEnclosing(st1, s.name);
      var st2 := Defined(st1, s.name.lexeme);
      if s.superclass.None? {
        ClassBodyRestores(st2, st.classTy, false, s.methods);
      } else {
        var st3 := st2.(classTy := InSubclass);
        ExprKeepsScopes(st3, s.superclass.value);
        var r := ExprResolution(st3, s.superclass.value);
        if r.Resolved? {
          ClassBodyRestores(Defined(ScopeBegun(r.st), "super"), st.classTy, true, s.methods);
        }
      }
    }
  }

  lemma {:induction false} StmtsKeepEnclosing(st: RState, stmts: seq<Stmt>)
    ensures !Stops(StmtsResolution(st, stmts)) ==> Enclosing(st, StmtsResolution(st, stmts).st)
    decreases StmtsNodes(stmts), 0
  {
    if stmts != [] {
      StmtKeepsEnclosing(st, stmts[0]);
      var r := StmtResolution(st, stmts[0]);
      if !Stops(r) {
        StmtsKeepEnclosing(r.st, stmts[1..]);
      }
    }
  }

  /** A function resolved without error leaves the scope stack and the kinds as they were. */
  lemma {:induction false} FunctionRestores(st: RState, f: Function, ty: FunctionType)
    ensures !Stops(FunctionResolution(st, f, ty)) ==> Same(st, FunctionResolution(st, f, ty).st)
    decreases FunctionNodes(f), 0
  {
    var st1 := ScopeBegun(st.(funcTy := ty));
    ParamsKeepEnclosing(st1, f.params);
    var p := ParamsResolution(st1, f.params);
    if !Stops(p) {
      StmtsKeepEnclosing(p.st, f.body);
      var b := StmtsResolution(p.st, f.body);
      if !Stops(b) {
        assert b.st.scopes[..|st.scopes|] == st.scopes;
      }
    }
  }

  /** Methods resolved without error leave the scope stack and the kinds as they were. */
  lemma {:induction false} MethodsRestore(st: RState, methods: seq<Function>)
    ensures !Stops(MethodsResolution(st, methods)) ==> Same(st, MethodsResolution(st, methods).st)
    decreases MethodsNodes(methods), 1
  {
    if methods != [] {
      FunctionRestores(st, methods[0], MethodKind(methods[0]));
      var r := FunctionResolution(st, methods[0], MethodKind(methods[0]));
      if r.Resolved? {
        MethodsRestore(r.st, methods[1..]);
      }
    }
  }

  /** A class body resolved without error closes the scopes it opened, the `super` one
      included, and restores the enclosing class kind. */
  lemma {:induction false} ClassBodyRestores(st: RState, outer: ClassType, hasSuper: bool, methods: seq<Function>)
    ensures var r := ClassBodyResolution(st, outer, hasSuper, methods);
      !Stops(r) ==>
        r.st.scopes == (if hasSuper && st.scopes != [] then st.scopes[..|st.scopes| - 1] else st.scopes)
        && r.st.funcTy == st.funcTy && r.st.classTy == outer
    decreases MethodsNodes(methods), 2
  {
    MethodsRestore(Defined(ScopeBegun(st), "this"), methods);
  }

  // ---------------------------------------------------------------------------------
  // No panic on the parser's trees

  lemma {:induction false} ExprNoCrash(st: RState, e: Expr)
    requires LoxParser.ExprOk(e)
    ensures !ExprResolution(st, e).Crashed?
    decreases ExprNodes(e), 1
  {
    match e
    case Literal(_, _, _) =>
    case Variable(_, _) =>
    case This(_, _) =>
    case Super(_, _, _) =>
    case Unary(_, right) => ExprNoCrash(st, right);
    case Grouping(inner) => ExprNoCrash(st, inner);
    case Get(obj, _) => ExprNoCrash(st, obj);
    case Assign(_, _, value) => ExprNoCrash(st, value);
    case Binary(left, _, right) => ExprPairNoCrash(st, right, left);
    case Logical(left, _, right) => ExprPairNoCrash(st, right, left);
    case Set(obj, _, value) => ExprPairNoCrash(st, obj, value);
    case Call(callee, _, args) =>
      ExprNoCrash(st, callee);
      var r := ExprResolution(st, callee);
      if !Stops(r) {
        ArgsNoCrash(r.st, args);
      }
  }

  lemma {:induction false} ExprPairNoCrash(st: RState, first: Expr, second: Expr)
    requires LoxParser.ExprOk(first) && LoxParser.ExprOk(second)
    ensures var r := ExprResolution(st, first);
      !(if Stops(r) then r else ExprResolution(r.st, second)).Crashed?
    decreases ExprNodes(first) + ExprNodes(second), 0
  {
    ExprNoCrash(st, first);
    var r := ExprResolution(st, first);
    if !Stops(r) {
      ExprNoCrash(r.st, second);
    }
  }

  lemma {:induction false} ArgsNoCrash(st: RState, args: seq<Expr>)
    requires forall i :: 0 <= i < |args| ==> LoxParser.ExprOk(args[i])
    ensures !ArgsResolution(st, args).Crashed?
    decreases ArgsNodes(args), 0
  {
    if args != [] {
      ExprNoCrash(st, args[0]);
      var r := ExprResolution(st, args[0]);
      if !Stops(r) {
        ArgsNoCrash(r.st, args[1..]);
      }
    }
  }

  lemma {:induction false} StmtNoCrash(st: RState, s: Stmt)
    requires LoxParser.StmtOk(s)
    ensures !StmtResolution(st, s).Crashed?
    decreases StmtNodes(s), 1
  {
    match s
    case Expression(e) => ExprNoCrash(st, e);
    case Print(e) => ExprNoCrash(st, e);
    case Return(_, value) =>
      if !value.NoExpr? {
        ExprNoCrash(st, value);
      }
    case Var(name, init) =>
      if Declared(st, name.value).Ok? && init.Some? {
        ExprNoCrash(Declared(st, name.value).value, init.value);
      }
    case Block(stmts) => StmtsNoCrash(ScopeBegun(st), stmts);
    case If(cond, thenBranch, elseBranch) =>
      ExprNoCrash(st, cond);
      var c := ExprResolution(st, cond);
      if !Stops(c) {
        StmtNoCrash(c.st, thenBranch);
        var t := StmtResolution(c.st, thenBranch);
        if !Stops(t) && elseBranch.Some? {
          StmtNoCrash(t.st, elseBranch.value);
        }
      }
    case While(cond, body) =>
      ExprNoCrash(st, cond);
      var c := ExprResolution(st, cond);
      if !Stops(c) {
        StmtNoCrash(c.st, body);
      }
    case FunctionDecl(f) =>
      if Declared(st, f.name).Ok? {
        FunctionNoCrash(Defined(Declared(st, f.name).value, f.name.lexeme), f, InFunction);
      }
    case Class(_, _, _) => ClassNoCrash(st, s);
  }

  lemma {:induction false} ClassNoCrash(st: RState, s: Stmt)
    requires s.Class? && LoxParser.StmtOk(s)
    ensures !StmtResolution(st, s).Crashed?
    decreases StmtNodes(s), 0
  {
    var st0 := st.(classTy := InClass);
    if Declared(st0, s.name).Ok? {
      var st2 := Defined(Declared(st0, s.name).value, s.name.lexeme);
      if s.superclass.None? {
        MethodsNoCrash(Defined(ScopeBegun(st2), "this"), s.methods);
      } else {
        var st3 := st2.(classTy := InSubclass);
        ExprNoCrash(st3, s.superclass.value);
        var r := ExprResolution(st3, s.superclass.value);
        MethodsNoCrash(Defined(ScopeBegun(Defined(ScopeBegun(r.st), "super")), "this"), s.methods);
      }
    }
  }

  lemma {:induction false} StmtsNoCrash(st: RState, stmts: seq<Stmt>)
    requires forall i :: 0 <= i < |stmts| ==> LoxParser.StmtOk(stmts[i])
    ensures !StmtsResolution(st, stmts).Crashed?
    decreases StmtsNodes(stmts), 0
  {
    if stmts != [] {
      StmtNoCrash(st, stmts[0]);
      var r := StmtResolution(st, stmts[0]);
      if !Stops(r) {
        StmtsNoCrash(r.st, stmts[1..]);
      }
    }
  }

  lemma {:induction false} FunctionNoCrash(st: RState, f: Function, ty: FunctionType)
    requires LoxParser.FunctionOk(f)
    ensures !FunctionResolution(st, f, ty).Crashed?
    decreases FunctionNodes(f), 0
  {
    var st1 := ScopeBegun(st.(funcTy := ty));
    ParamsKeepEnclosing(st1, f.params);
    var p := ParamsResolution(st1, f.params);
    if !Stops(p) {
      StmtsNoCrash(p.st, f.body);
    }
  }

  lemma {:induction false} MethodsNoCrash(st: RState, methods: seq<Function>)
    requires forall m :: 0 <= m < |methods| ==> LoxParser.FunctionOk(methods[m])
    ensures !MethodsResolution(st, methods).Crashed?
    decreases MethodsNodes(methods), 1
  {
    if methods != [] {
      FunctionNoCrash(st, methods[0], MethodKind(methods[0]));
      var r := FunctionResolution(st, methods[0], MethodKind(methods[0]));
      MethodsNoCrash(r.st, methods[1..]);
    }
  }
}
