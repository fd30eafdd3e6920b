/** The tree-walking evaluator of golox/internal/interpreter/interpreter.go together with
    `LoxFunction.Call` (loxcallable.go) and `LoxClass.Call` (loxclass.go).

    The interpreter's state is the arena of environments, the arena of instances, the index
    of the current environment, the resolver's `locals` table and the values printed so far.
    Evaluation is a family of mutually recursive functions bounded by `fuel`: a function
    call and each iteration of a `while` loop spend one unit, so every function is total and
    a program that runs out of fuel stops with `OutOfFuel`. The `Interpreter` class holds the
    same state in fields; its statement methods are proved to agree with the functions. */
module LoxInterpreter {
  import opened Wrappers
  import Tokens
  import opened Ast
  import opened LoxValues
  import opened Environment
  import opened LoxClasses
  import Printer

  type Token = Tokens.Token

  /** The global environment is the first frame of the arena. */
  const Globals: nat := 0

  datatype State = State(frames: Frames, instances: seq<Instance>, env: nat, locals: map<nat, nat>, out: seq<Value>)

  /** What a statement hands back instead of nil: an error, or the `stmt.Return` signal
      carrying the returned value. */
  datatype Signal = Raised(error: Error) | Returning(value: Value)

  /** An expression's value and error (Go returns both), or a stop of the whole run. */
  datatype Evaluation = Evaluated(st: State, v: Value, err: Option<Error>) | EvalHalt(halt: Halt)

  /** Evaluated call arguments, the first error, or a stop. */
  datatype Arguments = Argued(st: State, values: seq<Value>, err: Option<Error>) | ArgsHalt(halt: Halt)

  /** A statement's signal (none for normal completion), or a stop. */
  datatype Execution = Executed(st: State, signal: Option<Signal>) | ExecHalt(halt: Halt)

  /** `NewInterpreter`: a global environment in which `clock` is defined, no locals. */
  function Initial(): (st: State)
    ensures st.env == Globals && |st.frames| == 1 && WellFormed(st.frames)
    ensures st.frames[Globals].values == map["clock" := Clock] && st.frames[Globals].enclosing == None
  {
    State(Define(NewGlobal(), Globals, "clock", Clock), [], Globals, map[], [])
  }

  // ---------------------------------------------------------------------------------
  // Sizes for termination: a function body counts 1, since it runs only through a call,
  // and a call spends fuel.

  function ExprSize(e: Expr): (n: nat)
    ensures n >= 1
    decreases e, 1
  {
    match e
    case NoExpr => 1
    case Literal(_, _, _) => 1
    case Variable(_, _) => 1
    case This(_, _) => 1
    case Super(_, _, _) => 1
    case Unary(_, right) => 1 + ExprSize(right)
    case Grouping(inner) => 1 + ExprSize(inner)
    case Binary(left, _, right) => 1 + ExprSize(left) + ExprSize(right)
    case Logical(left, _, right) => 1 + ExprSize(left) + ExprSize(right)
    case Assign(_, _, value) => 1 + ExprSize(value)
    case Call(callee, _, args) => 1 + ExprSize(callee) + ArgsSize(args)
    case Get(obj, _) => 1 + ExprSize(obj)
    case Set(obj, _, value) => 1 + ExprSize(obj) + ExprSize(value)
  }

  function ArgsSize(args: seq<Expr>): nat
    decreases args, 0
  {
    if args == [] then 0 else 1 + ExprSize(args[0]) + ArgsSize(args[1..])
  }

  function StmtSize(s: Stmt): (n: nat)
    ensures n >= 1
    decreases s, 1
  {
    match s
    case NoStmt => 1
    case FunctionDecl(_) => 1
    case Expression(e) => 1 + ExprSize(e)
    case Print(e) => 1 + ExprSize(e)
    case Var(_, init) => 1 + (if init.Some? then ExprSize(init.value) else 0)
    case Block(stmts) => 1 + StmtsSize(stmts)
    case If(cond, thenBranch, elseBranch) =>
      1 + ExprSize(cond) + StmtSize(thenBranch) + (if elseBranch.Some? then StmtSize(elseBranch.value) else 0)
    case While(cond, body) => 1 + ExprSize(cond) + StmtSize(body)
    case Return(_, value) => 1 + ExprSize(value)
    case Class(_, superclass, _) => 1 + (if superclass.Some? then ExprSize(superclass.value) else 0)
  }

  function StmtsSize(stmts: seq<Stmt>): nat
    decreases stmts, 0
  {
    if stmts == [] then 0 else 1 + StmtSize(stmts[0]) + StmtsSize(stmts[1..])
  }

  // ---------------------------------------------------------------------------------
  // Steps that do not evaluate subexpressions

  function FromOutcome(st: State, o: Outcome<Value>): Evaluation
  {
    match o
    case Done(v) => Evaluated(st, v, None)
    case Failed(e) => Evaluated(st, Nil, Some(e))
    case Halted(h) => EvalHalt(h)
  }

  function FromComputed(st: State, c: Computed): Evaluation
  {
    match c
    case Computed(v, err) => Evaluated(st, v, err)
    case Stopped(h) => EvalHalt(h)
  }

  /** `lookUpVar`: a resolved name is read `locals[id]` links out from the current
      environment; an unresolved one is looked up from the globals. */
  function LookUpVar(st: State, name: Token, id: nat): Evaluation
  {
    if id in st.locals then FromOutcome(st, GetAt(st.frames, st.env, st.locals[id], name.lexeme))
    else FromOutcome(st, Environment.Get(st.frames, Globals, name))
  }

  /** The assignment step of `VisitAssignExpr`: `assignAt` for a resolved name, else
      `assign` from the globals; the value is returned together with any error. */
  function AssignVar(st: State, name: Token, id: nat, v: Value): Evaluation
  {
    if id in st.locals then
      match AssignAt(st.frames, st.env, st.locals[id], name.lexeme, v)
      case Done(fs) => Evaluated(st.(frames := fs), v, None)
      case Failed(e) => Evaluated(st, v, Some(e))
      case Halted(h) => EvalHalt(h)
    else
      match Environment.Assign(st.frames, Globals, name, v)
      case Done(fs) => Evaluated(st.(frames := fs), v, None)
      case Failed(e) => Evaluated(st, v, Some(e))
      case Halted(h) => EvalHalt(h)
  }

  /** `VisitGetExpr` on an instance: `LoxInstance.get`. */
  function GetProperty(st: State, id: nat, name: Token): Evaluation
  {
    var (fs, o) := InstanceGet(st.frames, st.instances, id, name);
    FromOutcome(st.(frames := fs), o)
  }

  /** `VisitSetExpr` on an instance: `LoxInstance.set`, yielding the value. */
  function SetProperty(st: State, id: nat, name: Token, v: Value): Evaluation
  {
    match InstanceSet(st.instances, id, name, v)
    case Done(insts) => Evaluated(st.(instances := insts), v, None)
    case Failed(e) => Evaluated(st, Nil, Some(e))
    case Halted(h) => EvalHalt(h)
  }

  /** `VisitSuperExpr`: `super` at the resolved distance (0 when unresolved) must be a
      `*LoxClass` and `this` one link nearer a `*LoxInstance` (else the type assertion
      panics); the superclass chain's method is bound to the instance. */
  function SuperMethod(st: State, keyword: Token, id: nat, methodName: Token): Evaluation
  {
    var dist: int := if id in st.locals then st.locals[id] else 0;
    match GetAt(st.frames, st.env, dist, keyword.lexeme)
    case Halted(h) => EvalHalt(h)
    case Failed(e) => Evaluated(st, Nil, Some(e))
    case Done(s) =>
      if !s.ClassRef? then EvalHalt(NotAClass)
      else match GetAt(st.frames, st.env, dist - 1, "this")
        case Halted(h) => EvalHalt(h)
        case Failed(e) => Evaluated(st, Nil, Some(e))
        case Done(inst) =>
          if !inst.Inst? then EvalHalt(NotAnInstance)
          else match FindMethod(s.c, methodName.lexeme)
            case None =>
              Evaluated(st, Nil, Some(RuntimeError(methodName, "Undefined property " + methodName.lexeme + ".")))
            case Some(m) =>
              var (fs, bound) := Bind(st.frames, m, inst.id);
              Evaluated(st.(frames := fs), Fn(bound), None)
  }

  /** The arity error of `VisitCallExpr`, at the closing parenthesis. */
  function ArityError(paren: Token, arity: nat, count: nat): Error
  {
    RuntimeError(paren, "Expected " + Printer.IntText(arity) + " arguments but got " + Printer.IntText(count) + ".")
  }

  /** The parameter loop of `LoxFunction.Call`: defines each parameter, in order, to the
      argument at its position; a later parameter of the same name overwrites. */
  function DefineParams(frames: Frames, id: nat, params: seq<Token>, args: seq<Value>): Frames
    requires |params| <= |args|
  {
    if params == [] then frames
    else Define(DefineParams(frames, id, params[..|params| - 1], args), id, params[|params| - 1].lexeme, args[|params| - 1])
  }

  /** The methods map of `VisitClassStmt`: every method closes over `closure`, `isInit`
      exactly for "init", and a later method of the same name replaces an earlier one. */
  function MethodTable(methods: seq<Function>, closure: nat): map<string, LoxFunction>
  {
    if methods == [] then map[]
    else
      var m := methods[|methods| - 1];
      MethodTable(methods[..|methods| - 1], closure)[m.name.lexeme := LoxFunction(m, closure, m.name.lexeme == "init")]
  }

  /** The rest of `VisitClassStmt` once the superclass (if any) is known: methods close over
      a new environment binding `super` when there is a superclass, and the class value is
      assigned over the nil the name was defined to. */
  function DeclareClass(st: State, name: Token, superclass: Option<LoxClass>, methods: seq<Function>): Execution
  {
    var (frames, closure) :=
      if superclass.Some? then
        var (fs, id) := NewEnvironment(st.frames, st.env);
        (Define(fs, id, "super", ClassRef(superclass.value)), id)
      else (st.frames, st.env);
    var klass := LoxClass(name, MethodTable(methods, closure), superclass);
    match Environment.Assign(frames, st.env, name, Cls(klass))
    case Done(fs) => Executed(st.(frames := fs), None)
    case Failed(e) => Executed(st.(frames := frames), Some(Raised(e)))
    case Halted(h) => ExecHalt(h)
  }

  /** An expression's error as a statement's signal. */
  function Raise(err: Option<Error>): Option<Signal>
  {
    if err.Some? then Some(Raised(err.value)) else None
  }

  // ---------------------------------------------------------------------------------
  // Evaluation

  /** `evaluate`: the visitor of the expression's kind. An operand's error is returned
      with a nil value and stops the evaluation of the remaining operands, except that a
      logical operator does not look at its left operand's error. */
  function Eval(st: State, e: Expr, fuel: nat): Evaluation
    decreases fuel, ExprSize(e), 0
  {
    match e
    case NoExpr => EvalHalt(NilNode)
    case Literal(t, n, s) => Evaluated(st, LiteralValue(t, n, s), None)
    case Grouping(inner) => Eval(st, inner, fuel)
    case Unary(op, right) =>
      var r := Eval(st, right, fuel);
      if r.EvalHalt? then r
      else if r.err.Some? then Evaluated(r.st, Nil, r.err)
      else FromComputed(r.st, UnaryValue(op, r.v))
    case Binary(left, op, right) =>
      var l := Eval(st, left, fuel);
      if l.EvalHalt? then l
      else if l.err.Some? then Evaluated(l.st, Nil, l.err)
      else
        var r := Eval(l.st, right, fuel);
        if r.EvalHalt? then r
        else if r.err.Some? then Evaluated(r.st, Nil, r.err)
        else FromComputed(r.st, BinaryValue(op, l.v, r.v))
    case Logical(left, op, right) =>
      var l := Eval(st, left, fuel);
      if l.EvalHalt? then l
      else if (op.kind == Tokens.Or) == IsTruthy(l.v) then l
      else Eval(l.st, right, fuel)
    case Variable(name, id) => LookUpVar(st, name, id)
    case This(keyword, id) => LookUpVar(st, keyword, id)
    case Assign(name, id, value) =>
      var r := Eval(st, value, fuel);
      if r.EvalHalt? || r.err.Some? then r
      else AssignVar(r.st, name, id, r.v)
    case Call(callee, paren, args) =>
      var c := Eval(st, callee, fuel);
      if c.EvalHalt? then c
      else if c.err.Some? then Evaluated(c.st, Nil, c.err)
      else
        var a := EvalArgs(c.st, args, fuel);
        if a.ArgsHalt? then EvalHalt(a.halt)
        else if a.err.Some? then Evaluated(a.st, Nil, a.err)
        else CallValue(a.st, c.v, paren, a.values, fuel)
    case Get(obj, name) =>
      var o := Eval(st, obj, fuel);
      if o.EvalHalt? then o
      else if o.err.Some? then Evaluated(o.st, Nil, o.err)
      else if o.v.Inst? then GetProperty(o.st, o.v.id, name)
      else Evaluated(o.st, Nil, Some(RuntimeError(name, "Can get properties only on classes.")))
    case Set(obj, name, value) =>
      var o := Eval(st, obj, fuel);
      if o.EvalHalt? then o
      else if o.err.Some? then Evaluated(o.st, Nil, o.err)
      else if o.v.Inst? then
        var r := Eval(o.st, value, fuel);
        if r.EvalHalt? then r
        else if r.err.Some? then Evaluated(r.st, Nil, r.err)
        else SetProperty(r.st, o.v.id, name, r.v)
      else Evaluated(o.st, Nil, Some(RuntimeError(name, "Can set properties only on classes.")))
    case Super(keyword, id, methodName) => SuperMethod(st, keyword, id, methodName)
  }

  /** The argument loop of `VisitCallExpr`: left to right, stopping at the first error. */
  function EvalArgs(st: State, args: seq<Expr>, fuel: nat): Arguments
    decreases fuel, ArgsSize(args), 0
  {
    if args == [] then Argued(st, [], None)
    else
      var r := Eval(st, args[0], fuel);
      if r.EvalHalt? then ArgsHalt(r.halt)
      else if r.err.Some? then Argued(r.st, [], r.err)
      else
        var rest := EvalArgs(r.st, args[1..], fuel);
        if rest.ArgsHalt? then rest
        else Argued(rest.st, [r.v] + rest.values, rest.err)
  }

  /** The `LoxCallable` case of `VisitCallExpr`: functions and classes (and the native
      `clock`) check the argument count against their arity and are called; anything else
      is "Can call only functions and classes.". */
  function CallValue(st: State, callee: Value, paren: Token, args: seq<Value>, fuel: nat): Evaluation
    decreases fuel, 0, 3
  {
    match callee
    case Fn(f) =>
      if |args| != FunctionArity(f) then Evaluated(st, Nil, Some(ArityError(paren, FunctionArity(f), |args|)))
      else CallFunction(st, f, args, fuel)
    case Cls(c) =>
      if |args| != ClassArity(c) then Evaluated(st, Nil, Some(ArityError(paren, ClassArity(c), |args|)))
      else CallClass(st, c, args, fuel)
    case ClassRef(c) =>
      if |args| != ClassArity(c) then Evaluated(st, Nil, Some(ArityError(paren, ClassArity(c), |args|)))
      else CallClass(st, c, args, fuel)
    case Clock =>
      if |args| != 0 then Evaluated(st, Nil, Some(ArityError(paren, 0, |args|)))
      else EvalHalt(ClockCall)
    case _ => Evaluated(st, Nil, Some(RuntimeError(paren, "Can call only functions and classes.")))
  }

  /** `LoxClass.Call`: a new instance with no fields; a found `init` is bound to it and
      called, its result and error discarded; the instance is the result. */
  function CallClass(st: State, c: LoxClass, args: seq<Value>, fuel: nat): Evaluation
    decreases fuel, 0, 2
  {
    var id := |st.instances|;
    var st1 := st.(instances := st.instances + [Instance(c, map[])]);
    match FindMethod(c, "init")
    case None => Evaluated(st1, Inst(id), None)
    case Some(m) =>
      var (fs, bound) := Bind(st1.frames, m, id);
      var r := CallFunction(st1.(frames := fs), bound, args, fuel);
      if r.EvalHalt? then r else Evaluated(r.st, Inst(id), None)
  }

  /** `LoxFunction.Call`: a new environment enclosed by the closure binds the parameters;
      the body runs in it. An initializer yields `this` from its closure whatever the body
      did; otherwise a `Return` signal yields its value, an error is returned, and normal
      completion yields nil. */
  function CallFunction(st: State, f: LoxFunction, args: seq<Value>, fuel: nat): Evaluation
    decreases fuel, 0, 1
  {
    if fuel == 0 then EvalHalt(OutOfFuel)
    else if |args| < |f.declaration.params| then EvalHalt(MissingArgument)
    else
      var (fs, id) := NewEnvironment(st.frames, f.closure);
      var r := ExecuteStmts(st.(frames := DefineParams(fs, id, f.declaration.params, args)), f.declaration.body, id, fuel - 1);
      match r
      case ExecHalt(h) => EvalHalt(h)
      case Executed(st2, signal) =>
        if f.isInit then FromOutcome(st2, GetAt(st2.frames, f.closure, 0, "this"))
        else match signal
          case None => Evaluated(st2, Nil, None)
          case Some(Returning(v)) => Evaluated(st2, v, None)
          case Some(Raised(err)) => Evaluated(st2, Nil, Some(err))
  }

  // ---------------------------------------------------------------------------------
  // Execution

  /** `executeStmts` with the environment restored whatever the statements did: the
      statements run in `env`, stopping at the first signal. */
  function ExecuteStmts(st: State, stmts: seq<Stmt>, env: nat, fuel: nat): Execution
    decreases fuel, StmtsSize(stmts), 1
  {
    match ExecStmts(st.(env := env), stmts, fuel)
    case ExecHalt(h) => ExecHalt(h)
    case Executed(st2, signal) => Executed(st2.(env := st.env), signal)
  }

  /** The statements in order, in the current environment, up to the first signal. */
  function ExecStmts(st: State, stmts: seq<Stmt>, fuel: nat): Execution
    decreases fuel, StmtsSize(stmts), 0
  {
    if stmts == [] then Executed(st, None)
    else
      var r := Exec(st, stmts[0], fuel);
      if r.ExecHalt? || r.signal.Some? then r
      else ExecStmts(r.st, stmts[1..], fuel)
  }

  /** `execute`: the visitor of the statement's kind. */
  function Exec(st: State, s: Stmt, fuel: nat): Execution
    decreases fuel, StmtSize(s), 0
  {
    match s
    case NoStmt => ExecHalt(NilNode)
    case Expression(e) =>
      var r := Eval(st, e, fuel);
      if r.EvalHalt? then ExecHalt(r.halt) else Executed(r.st, Raise(r.err))
    case Print(e) =>
      var r := Eval(st, e, fuel);
      if r.EvalHalt? then ExecHalt(r.halt)
      else if r.err.Some? then Executed(r.st, Raise(r.err))
      else Executed(r.st.(out := r.st.out + [r.v]), None)
    case Var(name, init) =>
      if init.Some? then
        var r := Eval(st, init.value, fuel);
        if r.EvalHalt? then ExecHalt(r.halt)
        else if r.err.Some? then Executed(r.st, Raise(r.err))
        else if name.None? then ExecHalt(NilName)
        else Executed(r.st.(frames := Define(r.st.frames, r.st.env, name.value.lexeme, r.v)), None)
      else if name.None? then ExecHalt(NilName)
      else Executed(st.(frames := Define(st.frames, st.env, name.value.lexeme, Nil)), None)
    case Block(stmts) =>
      var (fs, id) := NewEnvironment(st.frames, st.env);
      ExecuteStmts(st.(frames := fs), stmts, id, fuel)
    case If(cond, thenBranch, elseBranch) =>
      var r := Eval(st, cond, fuel);
      if r.EvalHalt? then ExecHalt(r.halt)
      else if r.err.Some? then Executed(r.st, Raise(r.err))
      else if IsTruthy(r.v) then Exec(r.st, thenBranch, fuel)
      else if elseBranch.Some? then Exec(r.st, elseBranch.value, fuel)
      else Executed(r.st, None)
    case While(cond, body) => ExecWhile(st, cond, body, fuel)
    case FunctionDecl(decl) =>
      Executed(st.(frames := Define(st.frames, st.env, decl.name.lexeme, Fn(LoxFunction(decl, st.env, false)))), None)
    case Return(_, value) =>
      if value.NoExpr? then Executed(st, Some(Returning(Nil)))
      else
        var r := Eval(st, value, fuel);
        if r.EvalHalt? then ExecHalt(r.halt)
        else if r.err.Some? then Executed(r.st, Raise(r.err))
        else Executed(r.st, Some(Returning(r.v)))
    case Class(name, superclass, methods) =>
      var st1 := st.(frames := Define(st.frames, st.env, name.lexeme, Nil));
      if superclass.None? then DeclareClass(st1, name, None, methods)
      else
        var r := Eval(st1, superclass.value, fuel);
        if r.EvalHalt? then ExecHalt(r.halt)
        else if r.err.Some? then Executed(r.st, Raise(r.err))
        else if !r.v.Cls? then
          Executed(r.st, Some(Raised(RuntimeError(SuperclassName(superclass.value, name), "Superclass must be class."))))
        else DeclareClass(r.st, name, Some(r.v.c), methods)
  }

  /** The name token of a class statement's superclass, a variable expression. */
  function SuperclassName(e: Expr, className: Token): Token
  {
    if e.Variable? then e.name else className
  }

  /** `VisitWhileStmt`: the condition, then the body, until the condition is falsy or
      something is signalled; each iteration spends one unit of fuel. */
  function ExecWhile(st: State, cond: Expr, body: Stmt, fuel: nat): Execution
    decreases fuel, ExprSize(cond) + StmtSize(body), 1
  {
    if fuel == 0 then ExecHalt(OutOfFuel)
    else
      var r := Eval(st, cond, fuel);
      if r.EvalHalt? then ExecHalt(r.halt)
      else if r.err.Some? then Executed(r.st, Raise(r.err))
      else if !IsTruthy(r.v) then Executed(r.st, None)
      else
        var b := Exec(r.st, body, fuel);
        if b.ExecHalt? || b.signal.Some? then b
        else ExecWhile(b.st, cond, body, fuel - 1)
  }

  /** A while loop whose condition, evaluated in `st` to `r`, stops, fails or is falsy ends
      there, with the condition's error if it has one. */
  lemma WhileConditionEnds(st: State, cond: Expr, body: Stmt, fuel: nat, r: Evaluation)
    requires fuel > 0 && r == Eval(st, cond, fuel)
    requires r.EvalHalt? || r.err.Some? || !IsTruthy(r.v)
    ensures ExecWhile(st, cond, body, fuel) ==
      if r.EvalHalt? then ExecHalt(r.halt) else Executed(r.st, Raise(r.err))
  {
  }

  /** A while loop whose condition, evaluated in `st` to `r`, is truthy runs the body, with
      outcome `b`; a stop or a signal ends the loop, otherwise it starts over from `b`'s
      state with one unit of fuel less. */
  lemma WhileBodyRan(st: State, cond: Expr, body: Stmt, fuel: nat, r: Evaluation, b: Execution)
    requires fuel > 0 && r == Eval(st, cond, fuel) && r.Evaluated? && r.err.None? && IsTruthy(r.v)
    requires b == Exec(r.st, body, fuel)
    ensures ExecWhile(st, cond, body, fuel) ==
      if b.ExecHalt? || b.signal.Some? then b else ExecWhile(b.st, cond, body, fuel - 1)
  {
  }

  /** What a statement run by the interpreter amounts to, once it has left the state `st`. */
  function ExecOutcome(st: State, signal: Option<Signal>, halt: Option<Halt>): Execution
  {
    if halt.Some? then ExecHalt(halt.value) else Executed(st, signal)
  }

  /** What an expression evaluated by the interpreter amounts to, once it has left the state `st`. */
  function EvalOutcome(st: State, v: Value, err: Option<Error>, halt: Option<Halt>): Evaluation
  {
    if halt.Some? then EvalHalt(halt.value) else Evaluated(st, v, err)
  }

  /** The outcome of `Interpret`: the final state, every statement's signal in order (each
      printed and joined into the returned error), and the stop that ended the run early,
      if any. */
  datatype Run = Run(st: State, errs: seq<Signal>, halt: Option<Halt>)

  function Signals(signal: Option<Signal>): seq<Signal>
  {
    if signal.Some? then [signal.value] else []
  }

  /** `Interpret`: every top-level statement in turn, continuing past errors. */
  function InterpretAll(st: State, stmts: seq<Stmt>, fuel: nat): Run
    decreases |stmts|
  {
    if stmts == [] then Run(st, [], None)
    else match Exec(st, stmts[0], fuel)
      case ExecHalt(h) => Run(st, [], Some(h))
      case Executed(st1, signal) =>
        var rest := InterpretAll(st1, stmts[1..], fuel);
        Run(rest.st, Signals(signal) + rest.errs, rest.halt)
  }

  // ---------------------------------------------------------------------------------
  // The interpreter object

  class Interpreter {
    var frames: Frames
    var instances: seq<Instance>
    var env: nat
    var locals: map<nat, nat>
    var out: seq<Value>

    function Current(): State
      reads this
    {
      State(frames, instances, env, locals, out)
    }

    /** The outcome a statement method reports: the signal and the fields, or the stop. */

    /** `NewInterpreter`. */
    constructor ()
      ensures Current() == Initial()
    {
      frames := Define(NewGlobal(), Globals, "clock", Clock);
      instances := [];
      env := Globals;
      locals := map[];
      out := [];
    }

    method Load(st: State)
      modifies this
      ensures Current() == st
    {
      frames, instances, env, locals, out := st.frames, st.instances, st.env, st.locals, st.out;
    }

    /** `Resolve`: records the depth the resolver found for the node `id`. */
    method Resolve(id: nat, depth: nat)
      modifies this
      ensures locals == old(locals)[id := depth]
      ensures frames == old(frames) && instances == old(instances) && env == old(env) && out == old(out)
    {
      locals := locals[id := depth];
    }

    /** `evaluate`. */
    method Evaluate(e: Expr, fuel: nat) returns (v: Value, err: Option<Error>, halt: Option<Halt>)
      modifies this
      ensures EvalOutcome(Current(), v, err, halt) == Eval(old(Current()), e, fuel)
    {
      var r := Eval(Current(), e, fuel);
      if r.EvalHalt? {
        v, err, halt := Nil, None, Some(r.halt);
      } else {
        Load(r.st);
        v, err, halt := r.v, r.err, None;
      }
    }

    /** `Interpret`: executes each statement, collecting what each one signals. */
    method Interpret(stmts: seq<Stmt>, fuel: nat) returns (errs: seq<Signal>, halt: Option<Halt>)
      modifies this
      ensures var r := InterpretAll(old(Current()), stmts, fuel);
        r.errs == errs && r.halt == halt && (halt.None? ==> r.st == Current())
    {
      errs := [];
      halt := None;
      ghost var st0 := Current();
      for k := 0 to |stmts|
        invariant InterpretAll(st0, stmts, fuel)
               == (var rest := InterpretAll(Current(), stmts[k..], fuel); Run(rest.st, errs + rest.errs, rest.halt))
      {
        assert stmts[k..][0] == stmts[k] && stmts[k..][1..] == stmts[k + 1..];
        var signal, h := Execute(stmts[k], fuel);
        if h.Some? {
          halt := h;
          return;
        }
        errs := errs + Signals(signal);
      }
    }

    /** `executeStmts` with the previous environment restored on every path. */
    method ExecuteStatements(stmts: seq<Stmt>, bodyEnv: nat, fuel: nat) returns (signal: Option<Signal>, halt: Option<Halt>)
      modifies this
      decreases fuel, StmtsSize(stmts), 1
      ensures ExecOutcome(Current(), signal, halt) == ExecuteStmts(old(Current()), stmts, bodyEnv, fuel)
    {
      var previous := env;
      ghost var inner := old(Current()).(env := bodyEnv);
      env := bodyEnv;
      signal, halt := None, None;
      var k := 0;
      while k < |stmts|
        invariant 0 <= k <= |stmts|
        invariant ExecStmts(inner, stmts, fuel) == ExecStmts(Current(), stmts[k..], fuel)
        invariant signal.None? && halt.None?
      {
        assert stmts[k..][0] == stmts[k] && stmts[k..][1..] == stmts[k + 1..];
        StmtSizeBelow(stmts, k);
        ghost var before := Current();
        signal, halt := Execute(stmts[k], fuel);
        if halt.Some? {
          return;
        }
        if signal.Some? {
          assert ExecStmts(before, stmts[k..], fuel) == Executed(Current(), signal);
          env := previous;
          return;
        }
        k := k + 1;
      }
      assert stmts[k..] == [];
      assert ExecStmts(inner, stmts, fuel) == Executed(Current(), None);
      env := previous;
    }

    /** `execute`. */
    method Execute(s: Stmt, fuel: nat) returns (signal: Option<Signal>, halt: Option<Halt>)
      modifies this
      decreases fuel, StmtSize(s), 0
      ensures ExecOutcome(Current(), signal, halt) == Exec(old(Current()), s, fuel)
    {
      signal, halt := None, None;
      match s
      case NoStmt =>
        halt := Some(NilNode);
      case Expression(e) =>
        var v, err, h := Evaluate(e, fuel);
        signal, halt := Raise(err), h;
      case Print(e) =>
        var v, err, h := Evaluate(e, fuel);
        halt := h;
        if h.None? {
          if err.Some? {
            signal := Raise(err);
          } else {
            out := out + [v];
          }
        }
      case Var(name, init) =>
        var v, err, h := Nil, None, None;
        if init.Some? {
          v, err, h := Evaluate(init.value, fuel);
        }
        if h.Some? {
          halt := h;
        } else if err.Some? {
          signal := Raise(err);
        } else if name.None? {
          halt := Some(NilName);
        } else {
          frames := Define(frames, env, name.value.lexeme, v);
        }
      case Block(stmts) =>
        var fs, id := NewEnvironment(frames, env).0, |frames|;
        frames := fs;
        signal, halt := ExecuteStatements(stmts, id, fuel);
      case If(cond, thenBranch, elseBranch) =>
        var v, err, h := Evaluate(cond, fuel);
        if h.Some? {
          halt := h;
        } else if err.Some? {
          signal := Raise(err);
        } else if IsTruthy(v) {
          signal, halt := Execute(thenBranch, fuel);
        } else if elseBranch.Some? {
          signal, halt := Execute(elseBranch.value, fuel);
        }
      case While(cond, body) =>
        signal, halt := VisitWhile(cond, body, fuel);
      case FunctionDecl(decl) =>
        frames := Define(frames, env, decl.name.lexeme, Fn(LoxFunction(decl, env, false)));
      case Return(_, value) =>
        if value.NoExpr? {
          signal := Some(Returning(Nil));
        } else {
          var v, err, h := Evaluate(value, fuel);
          if h.Some? {
            halt := h;
          } else if err.Some? {
            signal := Raise(err);
          } else {
            signal := Some(Returning(v));
          }
        }
      case Class(name, superclass, methods) =>
        signal, halt := VisitClass(name, superclass, methods, fuel);
    }

    /** `VisitWhileStmt`. */
    method VisitWhile(cond: Expr, body: Stmt, fuel: nat) returns (signal: Option<Signal>, halt: Option<Halt>)
      modifies this
      decreases fuel, ExprSize(cond) + StmtSize(body), 2
      ensures ExecOutcome(Current(), signal, halt) == ExecWhile(old(Current()), cond, body, fuel)
    {
      signal, halt := RunWhile(cond, body, fuel, ExecWhile(Current(), cond, body, fuel));
    }

    /** The loop of `VisitWhileStmt`, run until it ends as `target` says it does. */
    method RunWhile(cond: Expr, body: Stmt, fuel: nat, ghost target: Execution)
      returns (signal: Option<Signal>, halt: Option<Halt>)
      requires target == ExecWhile(Current(), cond, body, fuel)
      modifies this
      decreases fuel, ExprSize(cond) + StmtSize(body), 1
      ensures ExecOutcome(Current(), signal, halt) == target
    {
      var budget: nat := fuel;
      var done := false;
      signal, halt := None, None;
      while !done
        invariant budget <= fuel
        invariant !done ==> target == ExecWhile(Current(), cond, body, budget)
        invariant done ==> ExecOutcome(Current(), signal, halt) == target
        decreases budget, if done then 0 else 1
      {
        if budget == 0 {
          signal, halt := None, Some(OutOfFuel);
          done := true;
        } else {
          done, signal, halt := WhileStep(cond, body, budget, target);
          if !done {
            budget := budget - 1;
          }
        }
      }
    }

    /** One test of the condition of a `while` loop and, when it holds, one run of its body. */
    method WhileStep(cond: Expr, body: Stmt, budget: nat, ghost target: Execution)
      returns (done: bool, signal: Option<Signal>, halt: Option<Halt>)
      requires budget > 0 && target == ExecWhile(Current(), cond, body, budget)
      modifies this
      decreases budget, ExprSize(cond) + StmtSize(body), 0
      ensures done ==> ExecOutcome(Current(), signal, halt) == target
      ensures !done ==> target == ExecWhile(Current(), cond, body, budget - 1)
    {
      ghost var before := Current();
      var v, err, h := Evaluate(cond, budget);
      ghost var tested := EvalOutcome(Current(), v, err, h);
      if h.Some? || err.Some? || !IsTruthy(v) {
        WhileConditionEnds(before, cond, body, budget, tested);
        return true, Raise(err), h;
      }
      signal, halt := Execute(body, budget);
      WhileBodyRan(before, cond, body, budget, tested, ExecOutcome(Current(), signal, halt));
      done := halt.Some? || signal.Some?;
    }

    /** `VisitClassStmt`. */
    method VisitClass(name: Token, superclass: Option<Expr>, methods: seq<Function>, fuel: nat)
      returns (signal: Option<Signal>, halt: Option<Halt>)
      modifies this
      decreases fuel, StmtSize(Class(name, superclass, methods)), 0
      ensures ExecOutcome(Current(), signal, halt) == Exec(old(Current()), Class(name, superclass, methods), fuel)
    {
      signal, halt := None, None;
      frames := Define(frames, env, name.lexeme, Nil);
      var super: Option<LoxClass> := None;
      if superclass.Some? {
        var v, err, h := Evaluate(superclass.value, fuel);
        if h.Some? {
          halt := h;
          return;
        }
        if err.Some? {
          signal := Raise(err);
          return;
        }
        if !v.Cls? {
          signal := Some(Raised(RuntimeError(SuperclassName(superclass.value, name), "Superclass must be class.")));
          return;
        }
        super := Some(v.c);
      }
      ghost var before := Current();
      var enclosing := env;
      if super.Some? {
        frames := frames + [Frame(map[], Some(enclosing))];
        env := |frames| - 1;
        frames := Define(frames, env, "super", ClassRef(super.value));
      }
      var table: map<string, LoxFunction> := map[];
      for k := 0 to |methods|
        invariant table == MethodTable(methods[..k], env)
      {
        assert methods[..k + 1][..k] == methods[..k];
        var m := methods[k];
        table := table[m.name.lexeme := LoxFunction(m, env, m.name.lexeme == "init")];
      }
      assert methods[..|methods|] == methods;
      var closure := env;
      env := enclosing;
      var klass := LoxClass(name, table, super);
      assert DeclareClass(before, name, super, methods) == (
        match Environment.Assign(frames, env, name, Cls(klass))
        case Done(fs) => Executed(before.(frames := fs), None)
        case Failed(e) => Executed(before.(frames := frames), Some(Raised(e)))
        case Halted(h) => ExecHalt(h));
      match Environment.Assign(frames, env, name, Cls(klass))
      case Done(fs) =>
        frames := fs;
      case Failed(e) =>
        signal := Some(Raised(e));
      case Halted(h) =>
        halt := Some(h);
    }

    /** `LoxFunction.Call`: a new environment enclosed by the closure, the parameter loop,
      the body, and the result. */
    method Call(f: LoxFunction, args: seq<Value>, fuel: nat) returns (v: Value, err: Option<Error>, halt: Option<Halt>)
      modifies this
      ensures EvalOutcome(Current(), v, err, halt) == CallFunction(old(Current()), f, args, fuel)
    {
      v, err, halt := Nil, None, None;
      if fuel == 0 {
        halt := Some(OutOfFuel);
        return;
      }
      var params := f.declaration.params;
      if |args| < |params| {
        halt := Some(MissingArgument);
        return;
      }
      var id := |frames|;
      frames := frames + [Frame(map[], Some(f.closure))];
      ghost var fs := frames;
      for k := 0 to |params|
        invariant frames == DefineParams(fs, id, params[..k], args)
        invariant instances == old(instances) && env == old(env) && locals == old(locals) && out == old(out)
      {
        assert params[..k + 1][..k] == params[..k];
        frames := Define(frames, id, params[k].lexeme, args[k]);
      }
      assert params[..|params|] == params;
      assert Current() == old(Current()).(frames := DefineParams(NewEnvironment(old(frames), f.closure).0, id, params, args));
      var signal, h := ExecuteStatements(f.declaration.body, id, fuel - 1);
      if h.Some? {
        halt := h;
      } else if f.isInit {
        match GetAt(frames, f.closure, 0, "this")
        case Done(t) =>
          v := t;
        case Failed(e) =>
          err := Some(e);
        case Halted(hh) =>
          halt := Some(hh);
      } else if signal.Some? {
        match signal.value
        case Returning(r) =>
          v := r;
        case Raised(e) =>
          err := Some(e);
      }
    }
  }

  /** A statement of a list is smaller than the list. */
  lemma {:induction false} StmtSizeBelow(stmts: seq<Stmt>, k: nat)
    requires k < |stmts|
    ensures StmtSize(stmts[k]) < StmtsSize(stmts)
  {
    if k > 0 {
      StmtSizeBelow(stmts[1..], k - 1);
      assert stmts[1..][k - 1] == stmts[k];
    }
  }
}
