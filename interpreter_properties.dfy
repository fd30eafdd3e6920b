/** Properties of the evaluator of golox/internal/interpreter: evaluation order and
    short-circuiting, call checks, resolved variable access, statement sequencing, function
    parameters and results, class declarations, and the two places where interpreter.go does
    not do what it evidently means to (`return;` and the environment `executeStmts` leaves
    behind on an error). */
module LoxInterpreterProperties {
  import opened Wrappers
  import Tokens
  import opened Ast
  import opened LoxValues
  import opened Environment
  import opened LoxClasses
  import opened LoxInterpreter
  import opened LoxInterpreterGrowth

  type Token = Tokens.Token

  // ---------------------------------------------------------------------------------
  // Expressions

  /** `or` with a truthy left operand and `and` with a falsy one yield the left operand
      (its error included) and never evaluate the right one; otherwise the result is the
      right operand's, evaluated after the left and without looking at the left's error. */
  lemma ShortCircuit(st: State, left: Expr, op: Token, right: Expr, other: Expr, fuel: nat)
    requires Eval(st, left, fuel).Evaluated?
    ensures var l := Eval(st, left, fuel);
      (op.kind == Tokens.Or) == IsTruthy(l.v) ==>
        Eval(st, Logical(left, op, right), fuel) == l && Eval(st, Logical(left, op, other), fuel) == l
    ensures var l := Eval(st, left, fuel);
      (op.kind == Tokens.Or) != IsTruthy(l.v) ==> Eval(st, Logical(left, op, right), fuel) == Eval(l.st, right, fuel)
  {
  }

  /** Arguments are evaluated left to right: evaluating `a + b` is evaluating `a`, then,
      unless it failed or stopped, `b` from the state `a` left. */
  lemma {:induction false} EvalArgsAppend(st: State, a: seq<Expr>, b: seq<Expr>, fuel: nat)
    ensures EvalArgs(st, a + b, fuel) ==
      (var ra := EvalArgs(st, a, fuel);
       if ra.ArgsHalt? || ra.err.Some? then ra
       else
         var rb := EvalArgs(ra.st, b, fuel);
         if rb.ArgsHalt? then rb else Argued(rb.st, ra.values + rb.values, rb.err))
    decreases |a|
  {
    if a == [] {
      assert a + b == b;
      var rb := EvalArgs(st, b, fuel);
      if rb.Argued? {
        assert [] + rb.values == rb.values;
      }
    } else {
      assert (a + b)[0] == a[0] && (a + b)[1..] == a[1..] + b;
      var r := Eval(st, a[0], fuel);
      if r.Evaluated? && r.err.None? {
        EvalArgsAppend(r.st, a[1..], b, fuel);
        var ra := EvalArgs(r.st, a[1..], fuel);
        if ra.Argued? && ra.err.None? {
          var rb := EvalArgs(ra.st, b, fuel);
          if rb.Argued? {
            assert [r.v] + (ra.values + rb.values) == ([r.v] + ra.values) + rb.values;
          }
        }
      }
    }
  }

  /** The callee is evaluated first: when it fails or stops, no argument is evaluated, so
      the arguments do not matter. */
  lemma CalleeBeforeArguments(st: State, callee: Expr, paren: Token, args: seq<Expr>, others: seq<Expr>, fuel: nat)
    requires Eval(st, callee, fuel).EvalHalt? || Eval(st, callee, fuel).err.Some?
    ensures Eval(st, Call(callee, paren, args), fuel) == Eval(st, Call(callee, paren, others), fuel)
  {
  }

  predicate Callable(v: Value)
  {
    v.Fn? || v.Cls? || v.ClassRef? || v.Clock?
  }

  function Arity(v: Value): nat
    requires Callable(v)
  {
    match v
    case Fn(f) => FunctionArity(f)
    case Cls(c) => ClassArity(c)
    case ClassRef(c) => ClassArity(c)
    case Clock => 0
  }

  /** A call of a value that is not a function or a class, or with a number of arguments
      other than the arity, is an error at the closing parenthesis that changes nothing.
      A call with the right number of arguments stops the run (the clock, or no fuel) or
      does its work: a function call adds its parameters' environment, a class call adds
      the instance. */
  lemma CallChecks(st: State, v: Value, paren: Token, args: seq<Value>, fuel: nat)
    ensures !Callable(v) ==>
      CallValue(st, v, paren, args, fuel) == Evaluated(st, Nil, Some(RuntimeError(paren, "Can call only functions and classes.")))
    ensures Callable(v) && |args| != Arity(v) ==>
      CallValue(st, v, paren, args, fuel) == Evaluated(st, Nil, Some(ArityError(paren, Arity(v), |args|)))
    ensures Callable(v) && |args| == Arity(v) && CallValue(st, v, paren, args, fuel).Evaluated? ==>
      var r := CallValue(st, v, paren, args, fuel);
      |st.frames| < |r.st.frames| || |st.instances| < |r.st.instances|
  {
    if Callable(v) && |args| == Arity(v) {
      match v
      case Fn(f) =>
        var r := CallFunction(st, f, args, fuel);
        if r.Evaluated? {
          var (fs, id) := NewEnvironment(st.frames, f.closure);
          var st1 := st.(frames := DefineParams(fs, id, f.declaration.params, args));
          DefineParamsExtends(fs, id, f.declaration.params, args);
          ExecuteStmtsGrows(st1, f.declaration.body, id, fuel - 1);
        }
      case Cls(c) =>
        if CallClass(st, c, args, fuel).Evaluated? {
          ClassCallMakesInstance(st, c, args, fuel);
        }
      case ClassRef(c) =>
        if CallClass(st, c, args, fuel).Evaluated? {
          ClassCallMakesInstance(st, c, args, fuel);
        }
      case Clock =>
    }
  }

  /** When the resolver's depth for a variable is the distance of the nearest environment
      binding it, reading the variable is the dynamic `get` from the current environment. */
  lemma ResolvedReadIsNearest(st: State, name: Token, id: nat, fuel: nat)
    requires WellFormed(st.frames) && st.env < |st.frames|
    requires id in st.locals && NearestAt(st.frames, st.env, st.locals[id], name.lexeme)
    ensures Environment.Get(st.frames, st.env, name).Done?
    ensures Eval(st, Variable(name, id), fuel) == Evaluated(st, Environment.Get(st.frames, st.env, name).value, None)
  {
    var d := st.locals[id];
    GetFindsNearest(st.frames, st.env, name);
    var e: nat :| NearestAt(st.frames, st.env, e, name.lexeme)
      && GetAt(st.frames, st.env, e, name.lexeme) == Environment.Get(st.frames, st.env, name);
    assert e == d;
  }

  /** Likewise, assigning a resolved variable writes where the dynamic `assign` from the
      current environment writes. */
  lemma ResolvedAssignIsNearest(st: State, name: Token, id: nat, v: Value)
    requires WellFormed(st.frames) && st.env < |st.frames|
    requires id in st.locals && NearestAt(st.frames, st.env, st.locals[id], name.lexeme)
    ensures Environment.Assign(st.frames, st.env, name, v).Done?
    ensures AssignVar(st, name, id, v) == Evaluated(st.(frames := Environment.Assign(st.frames, st.env, name, v).value), v, None)
  {
    GetFindsNearest(st.frames, st.env, name);
    AssignWritesNearest(st.frames, st.env, name, v);
  }

  // ---------------------------------------------------------------------------------
  // Statements

  /** Statements run in order and the first signal stops them: running `a + b` is running
      `a`, then, unless it signalled or stopped, `b`. */
  lemma {:induction false} ExecStmtsAppend(st: State, a: seq<Stmt>, b: seq<Stmt>, fuel: nat)
    ensures ExecStmts(st, a + b, fuel) ==
      (var ra := ExecStmts(st, a, fuel); if ra.ExecHalt? || ra.signal.Some? then ra else ExecStmts(ra.st, b, fuel))
    decreases |a|
  {
    if a == [] {
      assert a + b == b;
    } else {
      assert (a + b)[0] == a[0] && (a + b)[1..] == a[1..] + b;
      var r := Exec(st, a[0], fuel);
      if r.Executed? && r.signal.None? {
        ExecStmtsAppend(r.st, a[1..], b, fuel);
      }
    }
  }

  /** `Interpret` continues past errors: the signals of `a + b` are those of `a` followed
      by those of `b`, unless `a` stopped the run. */
  lemma {:induction false} InterpretAppend(st: State, a: seq<Stmt>, b: seq<Stmt>, fuel: nat)
    ensures InterpretAll(st, a + b, fuel) ==
      (var ra := InterpretAll(st, a, fuel);
       if ra.halt.Some? then ra
       else var rb := InterpretAll(ra.st, b, fuel); Run(rb.st, ra.errs + rb.errs, rb.halt))
    decreases |a|
  {
    if a == [] {
      assert a + b == b;
    } else {
      assert (a + b)[0] == a[0] && (a + b)[1..] == a[1..] + b;
      match Exec(st, a[0], fuel)
      case ExecHalt(h) =>
      case Executed(st1, signal) =>
        InterpretAppend(st1, a[1..], b, fuel);
        var ra := InterpretAll(st1, a[1..], fuel);
        if ra.halt.None? {
          var rb := InterpretAll(ra.st, b, fuel);
          assert Signals(signal) + (ra.errs + rb.errs) == (Signals(signal) + ra.errs) + rb.errs;
        }
    }
  }

  /** Each parameter is bound, in the call's own environment, to the argument at its
      position (a later parameter of the same name wins); no other environment changes. */
  lemma {:induction false} DefineParamsBinds(frames: Frames, id: nat, params: seq<Token>, args: seq<Value>, i: nat)
    requires |params| <= |args| && id < |frames| && i < |params|
    requires forall j :: i < j < |params| ==> params[j].lexeme != params[i].lexeme
    ensures var fs := DefineParams(frames, id, params, args);
      && |fs| == |frames|
      && params[i].lexeme in fs[id].values && fs[id].values[params[i].lexeme] == args[i]
      && forall j :: 0 <= j < |frames| && j != id ==> fs[j] == frames[j]
    decreases |params|
  {
    var init := params[..|params| - 1];
    DefineParamsOnlyOwn(frames, id, init, args);
    if i < |params| - 1 {
      DefineParamsBinds(frames, id, init, args, i);
    }
  }

  lemma {:induction false} DefineParamsOnlyOwn(frames: Frames, id: nat, params: seq<Token>, args: seq<Value>)
    requires |params| <= |args| && id < |frames|
    ensures var fs := DefineParams(frames, id, params, args);
      |fs| == |frames| && forall j :: 0 <= j < |frames| && j != id ==> fs[j] == frames[j]
    decreases |params|
  {
    if params != [] {
      DefineParamsOnlyOwn(frames, id, params[..|params| - 1], args);
    }
  }

  /** `LoxFunction.call` for any body. The call frame encloses the closure and binds the
      parameters, and the body runs in it; say it ends in state `st2` with signal `s`.
      An initializer then yields `this` from its closure whatever the body did. Otherwise
      a `Return` signal yields its value, normal completion yields nil, and an error is
      returned with nil. A halt inside the body halts the call. The caller's environment
      is back in place, and the state has only grown. */
  lemma CallFunctionCases(st: State, f: LoxFunction, args: seq<Value>, fuel: nat, fs: Frames, id: nat, r: Execution)
    requires fuel >= 1 && |args| >= |f.declaration.params|
    requires (fs, id) == NewEnvironment(st.frames, f.closure)
    requires r == ExecuteStmts(st.(frames := DefineParams(fs, id, f.declaration.params, args)), f.declaration.body, id, fuel - 1)
    ensures r.ExecHalt? ==> CallFunction(st, f, args, fuel) == EvalHalt(r.halt)
    ensures r.Executed? && f.isInit ==>
      CallFunction(st, f, args, fuel) == FromOutcome(r.st, GetAt(r.st.frames, f.closure, 0, "this"))
    ensures r.Executed? && !f.isInit && r.signal.None? ==>
      CallFunction(st, f, args, fuel) == Evaluated(r.st, Nil, None)
    ensures r.Executed? && !f.isInit && r.signal.Some? && r.signal.value.Returning? ==>
      CallFunction(st, f, args, fuel) == Evaluated(r.st, r.signal.value.value, None)
    ensures r.Executed? && !f.isInit && r.signal.Some? && r.signal.value.Raised? ==>
      CallFunction(st, f, args, fuel) == Evaluated(r.st, Nil, Some(r.signal.value.error))
    ensures r.Executed? ==> r.st.env == st.env && Grows(st, r.st)
  {
    var st1 := st.(frames := DefineParams(fs, id, f.declaration.params, args));
    DefineParamsExtends(fs, id, f.declaration.params, args);
    ExecuteStmtsGrows(st1, f.declaration.body, id, fuel - 1);
    if r.Executed? {
      GrowsTrans(st, st1, r.st);
    }
  }

  /** A function whose body ends in `return e;` returns what `e` evaluates to, when the
      statements before it complete normally and `e` raises no error (nil for a bare
      `return;` in the corrected model); the state is the one `e` left, with the caller's
      environment back in place. */
  lemma FunctionReturnsItsValue(st: State, f: LoxFunction, args: seq<Value>, fuel: nat, fs: Frames, id: nat,
                                prefix: seq<Stmt>, keyword: Token, value: Expr, st1: State, v: Value, st2: State)
    requires fuel >= 1 && |args| >= |f.declaration.params| && !f.isInit
    requires f.declaration.body == prefix + [Return(keyword, value)]
    requires (fs, id) == NewEnvironment(st.frames, f.closure)
    requires ExecStmts(st.(frames := DefineParams(fs, id, f.declaration.params, args), env := id), prefix, fuel - 1)
      == Executed(st1, None)
    requires value.NoExpr? ==> st2 == st1 && v == Nil
    requires !value.NoExpr? ==> Eval(st1, value, fuel - 1) == Evaluated(st2, v, None)
    ensures CallFunction(st, f, args, fuel) == Evaluated(st2.(env := st.env), v, None)
  {
    var st0 := st.(frames := DefineParams(fs, id, f.declaration.params, args));
    ExecStmtsAppend(st0.(env := id), prefix, [Return(keyword, value)], fuel - 1);
    assert Exec(st1, Return(keyword, value), fuel - 1) == Executed(st2, Some(Returning(v)));
    assert ExecStmts(st1, [Return(keyword, value)], fuel - 1) == Executed(st2, Some(Returning(v)));
  }

  /** The methods map of a class statement: a name is a key exactly when some method has
      it; its entry is the last method of that name, closing over `closure`, an
      initializer exactly when the name is "init". */
  lemma {:induction false} MethodTableLastWins(methods: seq<Function>, closure: nat, name: string)
    ensures name in MethodTable(methods, closure) <==> exists k :: 0 <= k < |methods| && methods[k].name.lexeme == name
    ensures forall k ::
      (0 <= k < |methods| && methods[k].name.lexeme == name
       && forall j :: k < j < |methods| ==> methods[j].name.lexeme != name) ==>
        MethodTable(methods, closure)[name] == LoxFunction(methods[k], closure, name == "init")
    decreases |methods|
  {
    if methods != [] {
      var init := methods[..|methods| - 1];
      MethodTableLastWins(init, closure, name);
      assert forall k :: 0 <= k < |init| ==> init[k] == methods[k];
    }
  }

  /** Every method of the table closes over `closure` and is an initializer exactly when
      it is named "init". */
  lemma {:induction false} MethodTableClosures(methods: seq<Function>, closure: nat)
    ensures forall name :: name in MethodTable(methods, closure) ==>
      MethodTable(methods, closure)[name].closure == closure
      && (MethodTable(methods, closure)[name].isInit <==> name == "init")
      && MethodTable(methods, closure)[name].declaration.name.lexeme == name
    decreases |methods|
  {
    if methods != [] {
      MethodTableClosures(methods[..|methods| - 1], closure);
    }
  }

  /** A class statement without a superclass binds its name, in the current environment,
      to the class whose methods close over that environment. */
  lemma ClassDeclarationBindsName(st: State, name: Token, methods: seq<Function>, fuel: nat)
    requires st.env < |st.frames|
    ensures var r := Exec(st, Class(name, None, methods), fuel);
      && r.Executed? && r.signal.None? && r.st.env == st.env
      && name.lexeme in r.st.frames[st.env].values
      && r.st.frames[st.env].values[name.lexeme] == Cls(LoxClass(name, MethodTable(methods, st.env), None))
  {
    var frames1 := Define(st.frames, st.env, name.lexeme, Nil);
    DefineOnlyOwn(st.frames, st.env, name.lexeme, Nil);
  }

  /** A subclass's methods close over a new environment that binds `super` to the
      superclass and is enclosed by the class statement's environment; the class name is
      then bound to the class. */
  lemma SubclassMethodsSeeSuper(st: State, name: Token, superclass: LoxClass, methods: seq<Function>)
    requires st.env < |st.frames| && name.lexeme in st.frames[st.env].values
    ensures var r := DeclareClass(st, name, Some(superclass), methods);
      && r.Executed? && r.signal.None? && r.st.env == st.env
      && var c := r.st.frames[st.env].values[name.lexeme];
      && c.Cls? && c.c.superclass == Some(superclass)
      && forall m :: m in c.c.methods ==>
           GetAt(r.st.frames, c.c.methods[m].closure, 0, "super") == Done(ClassRef(superclass))
           && r.st.frames[c.c.methods[m].closure].enclosing == Some(st.env)
  {
    var n := |st.frames|;
    var (fs, id) := NewEnvironment(st.frames, st.env);
    var frames1 := Define(fs, id, "super", ClassRef(superclass));
    DefineOnlyOwn(fs, id, "super", ClassRef(superclass));
    MethodTableClosures(methods, id);
    var klass := LoxClass(name, MethodTable(methods, id), Some(superclass));
    assert frames1[st.env] == st.frames[st.env];
    var frames2 := Define(frames1, st.env, name.lexeme, Cls(klass));
    DefineOnlyOwn(frames1, st.env, name.lexeme, Cls(klass));
    assert frames2[n] == frames1[n];
  }

  // ---------------------------------------------------------------------------------
  // `return;` as written

  /** `VisitReturnStmt` as written: evaluates `Value` whatever it is, so a bare `return;`
      (a nil `Value`) is `Accept` on a nil expression. */
  function ExecReturnAsWritten(st: State, value: Expr, fuel: nat): Execution
  {
    var r := Eval(st, value, fuel);
    if r.EvalHalt? then ExecHalt(r.halt)
    else if r.err.Some? then Executed(r.st, Raise(r.err))
    else Executed(r.st, Some(Returning(r.v)))
  }

  /** As written, `return;` stops the run; as intended it returns nil. With a value both
      agree. */
  lemma BareReturnAsWritten(st: State, keyword: Token, value: Expr, fuel: nat)
    ensures ExecReturnAsWritten(st, NoExpr, fuel) == ExecHalt(NilNode)
    ensures Exec(st, Return(keyword, NoExpr), fuel) == Executed(st, Some(Returning(Nil)))
    ensures !value.NoExpr? ==> Exec(st, Return(keyword, value), fuel) == ExecReturnAsWritten(st, value, fuel)
  {
  }

  // ---------------------------------------------------------------------------------
  // `executeStmts` as written

  /** `execute` as written. `VisitBlockStmt` and `VisitWhileStmt` have pointer receivers,
      so when `executeStmts` returns early without restoring the environment the caller
      keeps the inner one; every other visitor runs on a copy of the interpreter (or does
      not change the environment), which ends the leak. */
  function ExecAsWritten(st: State, s: Stmt, fuel: nat): Execution
    decreases fuel, StmtSize(s), 1
  {
    match s
    case Block(stmts) =>
      var (fs, id) := NewEnvironment(st.frames, st.env);
      ExecStmtsAsWritten(st.(frames := fs, env := id), stmts, st.env, fuel)
    case While(cond, body) => WhileAsWritten(st, cond, body, fuel)
    case _ => Exec(st, s, fuel)
  }

  /** `executeStmts` as written: runs the statements in the current environment; the
      previous environment `restore` is put back only when every statement completed. */
  function ExecStmtsAsWritten(st: State, stmts: seq<Stmt>, restore: nat, fuel: nat): Execution
    decreases fuel, StmtsSize(stmts), 1
  {
    if stmts == [] then Executed(st.(env := restore), None)
    else
      var r := ExecAsWritten(st, stmts[0], fuel);
      if r.ExecHalt? || r.signal.Some? then r
      else ExecStmtsAsWritten(r.st, stmts[1..], restore, fuel)
  }

  /** `VisitWhileStmt` as written: the body's leak is the loop's. */
  function WhileAsWritten(st: State, cond: Expr, body: Stmt, fuel: nat): Execution
    decreases fuel, ExprSize(cond) + StmtSize(body), 2
  {
    if fuel == 0 then ExecHalt(OutOfFuel)
    else
      var r := Eval(st, cond, fuel);
      if r.EvalHalt? then ExecHalt(r.halt)
      else if r.err.Some? then Executed(r.st, Raise(r.err))
      else if !IsTruthy(r.v) then Executed(r.st, None)
      else
        var b := ExecAsWritten(r.st, body, fuel);
        if b.ExecHalt? || b.signal.Some? then b
        else WhileAsWritten(b.st, cond, body, fuel - 1)
  }

  /** `Interpret` as written: each top-level statement runs in whatever environment the
      previous one left. */
  function InterpretAsWritten(st: State, stmts: seq<Stmt>, fuel: nat): Run
    decreases |stmts|
  {
    if stmts == [] then Run(st, [], None)
    else match ExecAsWritten(st, stmts[0], fuel)
      case ExecHalt(h) => Run(st, [], Some(h))
      case Executed(st1, signal) =>
        var rest := InterpretAsWritten(st1, stmts[1..], fuel);
        Run(rest.st, Signals(signal) + rest.errs, rest.halt)
  }

  /** Two states that differ at most in the current environment. */
  predicate SameButEnv(a: State, b: State)
  {
    a.frames == b.frames && a.instances == b.instances && a.locals == b.locals && a.out == b.out
  }

  /** A statement as written and as intended stop alike and signal alike; their states
      differ at most in the current environment, and only when something was signalled. */
  predicate Agree(a: Execution, c: Execution)
  {
    (a.ExecHalt? <==> c.ExecHalt?) && (a.ExecHalt? ==> a.halt == c.halt)
    && (a.Executed? ==> a.signal == c.signal && SameButEnv(a.st, c.st) && (a.signal.None? ==> a.st == c.st))
  }

  lemma {:induction false} ExecAsWrittenAgrees(st: State, s: Stmt, fuel: nat)
    ensures Agree(ExecAsWritten(st, s, fuel), Exec(st, s, fuel))
    decreases fuel, StmtSize(s), 2
  {
    match s
    case Block(stmts) =>
      var (fs, id) := NewEnvironment(st.frames, st.env);
      StmtsAsWrittenAgree(st.(frames := fs, env := id), stmts, st.env, fuel);
    case While(cond, body) =>
      WhileAsWrittenAgrees(st, cond, body, fuel);
    case _ =>
  }

  lemma {:induction false} StmtsAsWrittenAgree(st: State, stmts: seq<Stmt>, restore: nat, fuel: nat)
    ensures var a := ExecStmtsAsWritten(st, stmts, restore, fuel);
      var c := ExecStmts(st, stmts, fuel);
      && (a.ExecHalt? <==> c.ExecHalt?) && (a.ExecHalt? ==> a.halt == c.halt)
      && (a.Executed? ==> a.signal == c.signal && SameButEnv(a.st, c.st) && (a.signal.None? ==> a.st == c.st.(env := restore)))
    decreases fuel, StmtsSize(stmts), 1
  {
    if stmts != [] {
      ExecAsWrittenAgrees(st, stmts[0], fuel);
      var r := Exec(st, stmts[0], fuel);
      if r.Executed? && r.signal.None? {
        StmtsAsWrittenAgree(r.st, stmts[1..], restore, fuel);
      }
    }
  }

  /** `WhileAsWritten` whose condition stopped, failed or did not hold. */
  lemma WrittenConditionEnds(st: State, cond: Expr, body: Stmt, fuel: nat, r: Evaluation)
    requires fuel > 0 && r == Eval(st, cond, fuel)
    requires r.EvalHalt? || r.err.Some? || !IsTruthy(r.v)
    ensures WhileAsWritten(st, cond, body, fuel) ==
      if r.EvalHalt? then ExecHalt(r.halt) else Executed(r.st, Raise(r.err))
  {
  }

  /** One turn of `WhileAsWritten` whose condition held. */
  lemma WrittenBodyRan(st: State, cond: Expr, body: Stmt, fuel: nat, r: Evaluation, a: Execution)
    requires fuel > 0 && r == Eval(st, cond, fuel) && r.Evaluated? && r.err.None? && IsTruthy(r.v)
    requires a == ExecAsWritten(r.st, body, fuel)
    ensures WhileAsWritten(st, cond, body, fuel) ==
      if a.ExecHalt? || a.signal.Some? then a else WhileAsWritten(a.st, cond, body, fuel - 1)
  {
  }

  lemma {:induction false} WhileAsWrittenAgrees(st: State, cond: Expr, body: Stmt, fuel: nat)
    ensures Agree(WhileAsWritten(st, cond, body, fuel), ExecWhile(st, cond, body, fuel))
    decreases fuel, ExprSize(cond) + StmtSize(body), 3
  {
    if fuel > 0 {
      var r := Eval(st, cond, fuel);
      if r.Evaluated? && r.err.None? && IsTruthy(r.v) {
        var b := Exec(r.st, body, fuel);
        if b.ExecHalt? || b.signal.Some? {
          BodyStopsAgrees(st, cond, body, fuel, r, b, WhileAsWritten(st, cond, body, fuel), ExecWhile(st, cond, body, fuel));
        } else {
          BodyEndsAgrees(st, cond, body, fuel, r, b, WhileAsWritten(st, cond, body, fuel), ExecWhile(st, cond, body, fuel));
        }
      } else {
        WhileConditionEnds(st, cond, body, fuel, r);
        WrittenConditionEnds(st, cond, body, fuel, r);
      }
    }
  }

  /** A turn of the loop whose body stops or signals: both loops end with their bodies. */
  lemma {:induction false} BodyStopsAgrees(st: State, cond: Expr, body: Stmt, fuel: nat, r: Evaluation, b: Execution, w: Execution, e: Execution)
    requires fuel > 0 && r == Eval(st, cond, fuel) && r.Evaluated? && r.err.None? && IsTruthy(r.v)
    requires b == Exec(r.st, body, fuel) && (b.ExecHalt? || b.signal.Some?)
    requires w == WhileAsWritten(st, cond, body, fuel) && e == ExecWhile(st, cond, body, fuel)
    ensures Agree(w, e)
    decreases fuel, ExprSize(cond) + StmtSize(body), 2
  {
    ExecAsWrittenAgrees(r.st, body, fuel);
    WhileBodyRan(st, cond, body, fuel, r, b);
    WrittenBodyRan(st, cond, body, fuel, r, ExecAsWritten(r.st, body, fuel));
  }

  /** A turn of the loop whose body completes: both loops go on from the same state. */
  lemma {:induction false} BodyEndsAgrees(st: State, cond: Expr, body: Stmt, fuel: nat, r: Evaluation, b: Execution, w: Execution, e: Execution)
    requires fuel > 0 && r == Eval(st, cond, fuel) && r.Evaluated? && r.err.None? && IsTruthy(r.v)
    requires b == Exec(r.st, body, fuel) && b.Executed? && b.signal.None?
    requires w == WhileAsWritten(st, cond, body, fuel) && e == ExecWhile(st, cond, body, fuel)
    ensures Agree(w, e)
    decreases fuel, ExprSize(cond) + StmtSize(body), 2
  {
    var a := ExecAsWritten(r.st, body, fuel);
    ExecAsWrittenAgrees(r.st, body, fuel);
    assert a == b;
    WrittenBodyRan(st, cond, body, fuel, r, a);
    assert w == WhileAsWritten(b.st, cond, body, fuel - 1);
    WhileBodyRan(st, cond, body, fuel, r, b);
    WhileAsWrittenAgrees(b.st, cond, body, fuel - 1);
  }

  /** `{ nil(); } var a = 1; print a;` */
  const Paren: Token := Tokens.Token(Tokens.RightParenthesis, ")", "", 0.0, 0)
  const NameA: Token := Tokens.Token(Tokens.Identifier, "a", "", 0.0, 0)
  const LeakingProgram: seq<Stmt> := [
    Block([LeakingCall()]),
    Var(Some(NameA), Some(Literal(NumberType, 1.0, ""))),
    Print(Variable(NameA, 12))
  ]

  /** As written, the failed call leaves the block's environment current, so `a` is defined
      there and the global lookup of `a` fails: two errors, nothing printed. */
  lemma LeakHidesLaterGlobals()
    ensures InterpretAsWritten(Initial(), LeakingProgram, 1).errs
      == [Raised(RuntimeError(Paren, "Can call only functions and classes.")), Raised(UndefinedVariable(NameA))]
    ensures InterpretAsWritten(Initial(), LeakingProgram, 1).st.out == []
  {
    var st0 := Initial();
    var call := LeakingCall();
    var err := RuntimeError(Paren, "Can call only functions and classes.");
    var fs := st0.frames + [Frame(map[], Some(0))];
    var inner := st0.(frames := fs, env := 1);
    FailedCallSignals(inner);
    assert LeakingProgram[0] == Block([call]);
    assert ExecStmtsAsWritten(inner, [call], 0, 1) == Executed(inner, Some(Raised(err)));
    assert ExecAsWritten(st0, LeakingProgram[0], 1) == Executed(inner, Some(Raised(err)));
    var st2 := inner.(frames := fs[1 := Frame(map["a" := Num(1.0)], Some(0))]);
    assert ExecAsWritten(inner, LeakingProgram[1], 1) == Executed(st2, None);
    assert Environment.Get(st2.frames, 0, NameA) == Failed(UndefinedVariable(NameA));
    assert ExecAsWritten(st2, LeakingProgram[2], 1) == Executed(st2, Some(Raised(UndefinedVariable(NameA))));
    assert LeakingProgram[1..][1..] == LeakingProgram[2..] && LeakingProgram[2..][1..] == [];
    assert InterpretAsWritten(st2, LeakingProgram[2..], 1) == Run(st2, [Raised(UndefinedVariable(NameA))], None);
    assert InterpretAsWritten(inner, LeakingProgram[1..], 1) == Run(st2, [Raised(UndefinedVariable(NameA))], None);
  }

  /** As intended, the block's environment is left behind, `a` is a global, and 1 is
      printed after the one error. */
  lemma RestoredEnvironmentKeepsGlobals()
    ensures InterpretAll(Initial(), LeakingProgram, 1).errs == [Raised(RuntimeError(Paren, "Can call only functions and classes."))]
    ensures InterpretAll(Initial(), LeakingProgram, 1).st.out == [Num(1.0)]
  {
    var st0 := Initial();
    var call := LeakingCall();
    var err := RuntimeError(Paren, "Can call only functions and classes.");
    var fs := st0.frames + [Frame(map[], Some(0))];
    var inner := st0.(frames := fs, env := 1);
    FailedCallSignals(inner);
    assert LeakingProgram[0] == Block([call]);
    assert ExecStmts(inner, [call], 1) == Executed(inner, Some(Raised(err)));
    var st1 := st0.(frames := fs);
    assert Exec(st0, LeakingProgram[0], 1) == Executed(st1, Some(Raised(err)));
    var st2 := st1.(frames := fs[0 := Frame(map["clock" := Clock, "a" := Num(1.0)], None)]);
    assert Exec(st1, LeakingProgram[1], 1) == Executed(st2, None);
    assert Environment.Get(st2.frames, 0, NameA) == Done(Num(1.0));
    var st3 := st2.(out := [Num(1.0)]);
    assert Exec(st2, LeakingProgram[2], 1) == Executed(st3, None);
    assert LeakingProgram[1..][1..] == LeakingProgram[2..] && LeakingProgram[2..][1..] == [];
    assert InterpretAll(st3, [], 1) == Run(st3, [], None);
    assert InterpretAll(st2, LeakingProgram[2..], 1) == Run(st3, [], None);
    assert InterpretAll(st1, LeakingProgram[1..], 1) == Run(st3, [], None);
  }

  function LeakingCall(): Stmt
  {
    Expression(Call(Literal(NilType, 0.0, ""), Paren, []))
  }

  /** `nil();` is the error "Can call only functions and classes." and changes nothing. */
  lemma FailedCallSignals(st: State)
    ensures Exec(st, LeakingCall(), 1) == Executed(st, Some(Raised(RuntimeError(Paren, "Can call only functions and classes."))))
  {
    var callee := Literal(NilType, 0.0, "");
    assert Eval(st, callee, 1) == Evaluated(st, Nil, None);
    assert EvalArgs(st, [], 1) == Argued(st, [], None);
  }
}
