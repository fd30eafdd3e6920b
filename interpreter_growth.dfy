/** What every evaluation step keeps: the current environment is the one it started in
    (blocks and calls restore theirs), the resolver's table is untouched, environments and
    instances are only added, never removed or relinked, an instance never changes class,
    and printing only appends. */
module LoxInterpreterGrowth {
  import opened Wrappers
  import Tokens
  import opened Ast
  import opened LoxValues
  import opened Environment
  import opened LoxClasses
  import opened LoxInterpreter

  /** `b` is `a` with frames possibly added: same enclosing links for the frames of `a`. */
  ghost predicate Extends(a: Frames, b: Frames)
  {
    |a| <= |b| && forall i :: 0 <= i < |a| ==> b[i].enclosing == a[i].enclosing
  }

  /** `b` is `a` with instances possibly added and fields possibly changed. */
  ghost predicate InstancesExtend(a: seq<Instance>, b: seq<Instance>)
  {
    |a| <= |b| && forall i :: 0 <= i < |a| ==> b[i].klass == a[i].klass
  }

  ghost predicate Grows(a: State, b: State)
  {
    b.env == a.env && b.locals == a.locals && Extends(a.frames, b.frames)
    && InstancesExtend(a.instances, b.instances) && a.out <= b.out
  }

  lemma GrowsTrans(a: State, b: State, c: State)
    requires Grows(a, b) && Grows(b, c)
    ensures Grows(a, c)
  {
  }

  // ---------------------------------------------------------------------------------
  // Steps on the arenas

  lemma DefineExtends(frames: Frames, id: nat, name: string, v: Value)
    ensures Extends(frames, Define(frames, id, name, v)) && |Define(frames, id, name, v)| == |frames|
  {
  }

  lemma {:induction false} AssignExtends(frames: Frames, id: nat, name: Token, v: Value)
    ensures Environment.Assign(frames, id, name, v).Done? ==> Extends(frames, Environment.Assign(frames, id, name, v).value)
    decreases id
  {
    if id < |frames| && name.lexeme !in frames[id].values && frames[id].enclosing.Some? {
      var p := frames[id].enclosing.value;
      if p < id {
        AssignExtends(frames, p, name, v);
      }
    }
  }

  lemma AssignAtExtends(frames: Frames, id: nat, distance: int, name: string, v: Value)
    ensures AssignAt(frames, id, distance, name, v).Done? ==> Extends(frames, AssignAt(frames, id, distance, name, v).value)
  {
  }

  lemma {:induction false} DefineParamsExtends(frames: Frames, id: nat, params: seq<Token>, args: seq<Value>)
    requires |params| <= |args|
    ensures Extends(frames, DefineParams(frames, id, params, args))
    decreases |params|
  {
    if params != [] {
      DefineParamsExtends(frames, id, params[..|params| - 1], args);
    }
  }

  lemma BindExtends(frames: Frames, f: LoxFunction, instance: nat)
    ensures Extends(frames, Bind(frames, f, instance).0)
  {
  }

  // ---------------------------------------------------------------------------------
  // Evaluation

  lemma {:induction false} EvalGrows(st: State, e: Expr, fuel: nat)
    ensures Eval(st, e, fuel).Evaluated? ==> Grows(st, Eval(st, e, fuel).st)
    decreases fuel, ExprSize(e), 2
  {
    match e
    case NoExpr =>
    case Literal(_, _, _) =>
    case Variable(_, _) =>
    case This(_, _) =>
    case Grouping(inner) =>
      EvalGrows(st, inner, fuel);
    case Unary(_, right) =>
      EvalGrows(st, right, fuel);
    case Binary(_, _, _) =>
      EvalOperandsGrows(st, e, fuel);
    case Logical(_, _, _) =>
      EvalOperandsGrows(st, e, fuel);
    case Assign(_, _, _) =>
      EvalAssignGrows(st, e, fuel);
    case Call(callee, paren, args) =>
      EvalCallGrows(st, callee, paren, args, fuel);
    case Get(_, _) =>
      EvalPropertyGrows(st, e, fuel);
    case Set(_, _, _) =>
      EvalPropertyGrows(st, e, fuel);
    case Super(keyword, id, methodName) =>
      SuperGrows(st, keyword, id, methodName);
  }

  lemma {:induction false} EvalOperandsGrows(st: State, e: Expr, fuel: nat)
    requires e.Binary? || e.Logical?
    ensures Eval(st, e, fuel).Evaluated? ==> Grows(st, Eval(st, e, fuel).st)
    decreases fuel, ExprSize(e), 1
  {
    EvalGrows(st, e.left, fuel);
    var l := Eval(st, e.left, fuel);
    if l.Evaluated? {
      EvalGrows(l.st, e.right, fuel);
      var r := Eval(l.st, e.right, fuel);
      if r.Evaluated? {
        GrowsTrans(st, l.st, r.st);
      }
    }
  }

  lemma {:induction false} EvalAssignGrows(st: State, e: Expr, fuel: nat)
    requires e.Assign?
    ensures Eval(st, e, fuel).Evaluated? ==> Grows(st, Eval(st, e, fuel).st)
    decreases fuel, ExprSize(e), 1
  {
    EvalGrows(st, e.value, fuel);
    var r := Eval(st, e.value, fuel);
    if r.Evaluated? && r.err.None? {
      AssignVarGrows(r.st, e.name, e.id, r.v);
      var a := AssignVar(r.st, e.name, e.id, r.v);
      if a.Evaluated? {
        GrowsTrans(st, r.st, a.st);
      }
    }
  }

  lemma {:induction false} EvalPropertyGrows(st: State, e: Expr, fuel: nat)
    requires e.Get? || e.Set?
    ensures Eval(st, e, fuel).Evaluated? ==> Grows(st, Eval(st, e, fuel).st)
    decreases fuel, ExprSize(e), 1
  {
    EvalGrows(st, e.obj, fuel);
    var o := Eval(st, e.obj, fuel);
    if o.Evaluated? && o.err.None? && o.v.Inst? {
      if e.Get? {
        BindGrowsState(o.st, o.v.id, e.name);
        var g := GetProperty(o.st, o.v.id, e.name);
        if g.Evaluated? {
          GrowsTrans(st, o.st, g.st);
        }
      } else {
        EvalGrows(o.st, e.value, fuel);
        var r := Eval(o.st, e.value, fuel);
        if r.Evaluated? {
          GrowsTrans(st, o.st, r.st);
          var w := SetProperty(r.st, o.v.id, e.name, r.v);
          if r.err.None? && w.Evaluated? {
            GrowsTrans(st, r.st, w.st);
          }
        }
      }
    }
  }

  lemma AssignVarGrows(st: State, name: Token, id: nat, v: Value)
    ensures AssignVar(st, name, id, v).Evaluated? ==> Grows(st, AssignVar(st, name, id, v).st)
  {
    if id in st.locals {
      AssignAtExtends(st.frames, st.env, st.locals[id], name.lexeme, v);
    } else {
      AssignExtends(st.frames, Globals, name, v);
    }
  }

  lemma BindGrowsState(st: State, id: nat, name: Token)
    ensures GetProperty(st, id, name).Evaluated? ==> Grows(st, GetProperty(st, id, name).st)
  {
    if id < |st.instances| && name.lexeme !in st.instances[id].fields {
      match FindMethod(st.instances[id].klass, name.lexeme)
      case Some(m) => BindExtends(st.frames, m, id);
      case None =>
    }
  }

  lemma SuperGrows(st: State, keyword: Token, id: nat, methodName: Token)
    ensures SuperMethod(st, keyword, id, methodName).Evaluated? ==> Grows(st, SuperMethod(st, keyword, id, methodName).st)
  {
    var r := SuperMethod(st, keyword, id, methodName);
    if r.Evaluated? && r.v.Fn? {
      var dist: int := if id in st.locals then st.locals[id] else 0;
      var s := GetAt(st.frames, st.env, dist, keyword.lexeme).value;
      var inst := GetAt(st.frames, st.env, dist - 1, "this").value;
      BindExtends(st.frames, FindMethod(s.c, methodName.lexeme).value, inst.id);
    }
  }

  lemma {:induction false} EvalCallGrows(st: State, callee: Expr, paren: Token, args: seq<Expr>, fuel: nat)
    ensures var r := Eval(st, Call(callee, paren, args), fuel); r.Evaluated? ==> Grows(st, r.st)
    decreases fuel, ExprSize(Call(callee, paren, args)), 1
  {
    EvalGrows(st, callee, fuel);
    var c := Eval(st, callee, fuel);
    if c.Evaluated? && c.err.None? {
      EvalArgsGrows(c.st, args, fuel);
      var a := EvalArgs(c.st, args, fuel);
      if a.Argued? {
        GrowsTrans(st, c.st, a.st);
        if a.err.None? {
          CallValueGrows(a.st, c.v, paren, a.values, fuel);
          var r := CallValue(a.st, c.v, paren, a.values, fuel);
          if r.Evaluated? {
            GrowsTrans(st, a.st, r.st);
          }
        }
      }
    }
  }

  lemma {:induction false} EvalArgsGrows(st: State, args: seq<Expr>, fuel: nat)
    ensures EvalArgs(st, args, fuel).Argued? ==> Grows(st, EvalArgs(st, args, fuel).st)
    decreases fuel, ArgsSize(args), 0
  {
    if args != [] {
      EvalGrows(st, args[0], fuel);
      var r := Eval(st, args[0], fuel);
      if r.Evaluated? && r.err.None? {
        EvalArgsGrows(r.st, args[1..], fuel);
        var rest := EvalArgs(r.st, args[1..], fuel);
        if rest.Argued? {
          GrowsTrans(st, r.st, rest.st);
        }
      }
    }
  }

  lemma {:induction false} CallValueGrows(st: State, callee: Value, paren: Token, args: seq<Value>, fuel: nat)
    ensures CallValue(st, callee, paren, args, fuel).Evaluated? ==> Grows(st, CallValue(st, callee, paren, args, fuel).st)
    decreases fuel, 0, 3
  {
    match callee
    case Fn(f) =>
      CallFunctionGrows(st, f, args, fuel);
    case Cls(c) =>
      CallClassGrows(st, c, args, fuel);
    case ClassRef(c) =>
      CallClassGrows(st, c, args, fuel);
    case _ =>
  }

  lemma {:induction false} CallClassGrows(st: State, c: LoxClass, args: seq<Value>, fuel: nat)
    ensures CallClass(st, c, args, fuel).Evaluated? ==> Grows(st, CallClass(st, c, args, fuel).st)
    decreases fuel, 0, 2
  {
    var id := |st.instances|;
    var st1 := st.(instances := st.instances + [Instance(c, map[])]);
    match FindMethod(c, "init")
    case None =>
    case Some(m) =>
      var (fs, bound) := Bind(st1.frames, m, id);
      BindExtends(st1.frames, m, id);
      CallFunctionGrows(st1.(frames := fs), bound, args, fuel);
      var r := CallFunction(st1.(frames := fs), bound, args, fuel);
      if r.Evaluated? {
        GrowsTrans(st, st1.(frames := fs), r.st);
      }
  }

  lemma {:induction false} CallFunctionGrows(st: State, f: LoxFunction, args: seq<Value>, fuel: nat)
    ensures CallFunction(st, f, args, fuel).Evaluated? ==> Grows(st, CallFunction(st, f, args, fuel).st)
    decreases fuel, 0, 1
  {
    if fuel > 0 && |args| >= |f.declaration.params| {
      var (fs, id) := NewEnvironment(st.frames, f.closure);
      var st1 := st.(frames := DefineParams(fs, id, f.declaration.params, args));
      DefineParamsExtends(fs, id, f.declaration.params, args);
      ExecuteStmtsGrows(st1, f.declaration.body, id, fuel - 1);
      var r := ExecuteStmts(st1, f.declaration.body, id, fuel - 1);
      if r.Executed? {
        GrowsTrans(st, st1, r.st);
      }
    }
  }

  // ---------------------------------------------------------------------------------
  // Execution

  lemma {:induction false} ExecuteStmtsGrows(st: State, stmts: seq<Stmt>, env: nat, fuel: nat)
    ensures ExecuteStmts(st, stmts, env, fuel).Executed? ==> Grows(st, ExecuteStmts(st, stmts, env, fuel).st)
    decreases fuel, StmtsSize(stmts), 1
  {
    ExecStmtsGrows(st.(env := env), stmts, fuel);
  }

  lemma {:induction false} ExecStmtsGrows(st: State, stmts: seq<Stmt>, fuel: nat)
    ensures ExecStmts(st, stmts, fuel).Executed? ==> Grows(st, ExecStmts(st, stmts, fuel).st)
    decreases fuel, StmtsSize(stmts), 0
  {
    if stmts != [] {
      ExecGrows(st, stmts[0], fuel);
      var r := Exec(st, stmts[0], fuel);
      if r.Executed? && r.signal.None? {
        ExecStmtsGrows(r.st, stmts[1..], fuel);
        var rest := ExecStmts(r.st, stmts[1..], fuel);
        if rest.Executed? {
          GrowsTrans(st, r.st, rest.st);
        }
      }
    }
  }

  lemma {:induction false} ExecGrows(st: State, s: Stmt, fuel: nat)
    ensures Exec(st, s, fuel).Executed? ==> Grows(st, Exec(st, s, fuel).st)
    decreases fuel, StmtSize(s), 2
  {
    match s
    case NoStmt =>
    case FunctionDecl(decl) =>
      DefineExtends(st.frames, st.env, decl.name.lexeme, Fn(LoxFunction(decl, st.env, false)));
    case Expression(e) =>
      EvalGrows(st, e, fuel);
    case Print(e) =>
      EvalGrows(st, e, fuel);
    case Return(_, value) =>
      EvalGrows(st, value, fuel);
    case Var(name, init) =>
      if init.Some? {
        EvalGrows(st, init.value, fuel);
        var r := Eval(st, init.value, fuel);
        if r.Evaluated? && r.err.None? && name.Some? {
          DefineExtends(r.st.frames, r.st.env, name.value.lexeme, r.v);
        }
      } else if name.Some? {
        DefineExtends(st.frames, st.env, name.value.lexeme, Nil);
      }
    case Block(stmts) =>
      var (fs, id) := NewEnvironment(st.frames, st.env);
      ExecuteStmtsGrows(st.(frames := fs), stmts, id, fuel);
      var r := ExecuteStmts(st.(frames := fs), stmts, id, fuel);
      if r.Executed? {
        GrowsTrans(st, st.(frames := fs), r.st);
      }
    case If(cond, thenBranch, elseBranch) =>
      EvalGrows(st, cond, fuel);
      var r := Eval(st, cond, fuel);
      if r.Evaluated? && r.err.None? {
        if IsTruthy(r.v) {
          ExecGrows(r.st, thenBranch, fuel);
          var b := Exec(r.st, thenBranch, fuel);
          if b.Executed? {
            GrowsTrans(st, r.st, b.st);
          }
        } else if elseBranch.Some? {
          ExecGrows(r.st, elseBranch.value, fuel);
          var b := Exec(r.st, elseBranch.value, fuel);
          if b.Executed? {
            GrowsTrans(st, r.st, b.st);
          }
        }
      }
    case While(cond, body) =>
      ExecWhileGrows(st, cond, body, fuel);
    case Class(name, superclass, methods) =>
      ClassGrows(st, name, superclass, methods, fuel);
  }

  lemma {:induction false} ClassGrows(st: State, name: Token, superclass: Option<Expr>, methods: seq<Function>, fuel: nat)
    ensures var r := Exec(st, Class(name, superclass, methods), fuel); r.Executed? ==> Grows(st, r.st)
    decreases fuel, StmtSize(Class(name, superclass, methods)), 1
  {
    var st1 := st.(frames := Define(st.frames, st.env, name.lexeme, Nil));
    DefineExtends(st.frames, st.env, name.lexeme, Nil);
    if superclass.None? {
      DeclareClassGrows(st1, name, None, methods);
      var r := DeclareClass(st1, name, None, methods);
      if r.Executed? {
        GrowsTrans(st, st1, r.st);
      }
    } else {
      EvalGrows(st1, superclass.value, fuel);
      var r := Eval(st1, superclass.value, fuel);
      if r.Evaluated? {
        GrowsTrans(st, st1, r.st);
        if r.err.None? && r.v.Cls? {
          DeclareClassGrows(r.st, name, Some(r.v.c), methods);
          var d := DeclareClass(r.st, name, Some(r.v.c), methods);
          if d.Executed? {
            GrowsTrans(st, r.st, d.st);
          }
        }
      }
    }
  }

  lemma DeclareClassGrows(st: State, name: Token, superclass: Option<LoxClass>, methods: seq<Function>)
    ensures DeclareClass(st, name, superclass, methods).Executed? ==> Grows(st, DeclareClass(st, name, superclass, methods).st)
  {
    var (frames, closure) :=
      if superclass.Some? then
        var (fs, id) := NewEnvironment(st.frames, st.env);
        (Define(fs, id, "super", ClassRef(superclass.value)), id)
      else (st.frames, st.env);
    assert Extends(st.frames, frames);
    var klass := LoxClass(name, MethodTable(methods, closure), superclass);
    AssignExtends(frames, st.env, name, Cls(klass));
  }

  lemma {:induction false} ExecWhileGrows(st: State, cond: Expr, body: Stmt, fuel: nat)
    ensures ExecWhile(st, cond, body, fuel).Executed? ==> Grows(st, ExecWhile(st, cond, body, fuel).st)
    decreases fuel, ExprSize(cond) + StmtSize(body), 1
  {
    if fuel > 0 {
      EvalGrows(st, cond, fuel);
      var r := Eval(st, cond, fuel);
      if r.Evaluated? && r.err.None? && IsTruthy(r.v) {
        ExecGrows(r.st, body, fuel);
        var b := Exec(r.st, body, fuel);
        if b.Executed? {
          GrowsTrans(st, r.st, b.st);
          if b.signal.None? {
            ExecWhileGrows(b.st, cond, body, fuel - 1);
            var w := ExecWhile(b.st, cond, body, fuel - 1);
            if w.Executed? {
              GrowsTrans(st, b.st, w.st);
            }
          }
        }
      }
    }
  }

  /** A class call makes a new instance of that class, with no error, whatever its
      initializer did; the instance is the result. */
  lemma ClassCallMakesInstance(st: State, c: LoxClass, args: seq<Value>, fuel: nat)
    requires CallClass(st, c, args, fuel).Evaluated?
    ensures var r := CallClass(st, c, args, fuel);
      && r.v == Inst(|st.instances|) && r.err == None
      && |st.instances| < |r.st.instances| && r.st.instances[|st.instances|].klass == c
      && r.st.env == st.env
  {
    var id := |st.instances|;
    var st1 := st.(instances := st.instances + [Instance(c, map[])]);
    match FindMethod(c, "init")
    case None =>
    case Some(m) =>
      var (fs, bound) := Bind(st1.frames, m, id);
      CallFunctionGrows(st1.(frames := fs), bound, args, fuel);
  }
}
