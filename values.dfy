/** The runtime values of the tree-walking interpreter and the operators of
    golox/internal/interpreter/interpreter.go that work on values alone: truthiness,
    equality, the operand checks, and the unary and binary operators.

    Go's `any` values are the constructors of `Value`. Numbers are exact reals rather than
    float64. Environments and instances are kept in arenas (sequences indexed by `nat`), so a
    closure or a `*LoxInstance` pointer is an index, and two Go values that share a map share
    an index. */
module LoxValues {
  import opened Wrappers
  import Tokens
  import opened Ast

  type Token = Tokens.Token

  /** `LoxFunction`: the declaration, the environment it closes over and whether it is a
      class's `init`. */
  datatype LoxFunction = LoxFunction(declaration: Function, closure: nat, isInit: bool)

  /** `LoxClass`: the name token, the methods by name and the superclass. */
  datatype LoxClass = LoxClass(name: Token, methods: map<string, LoxFunction>, superclass: Option<LoxClass>)

  datatype Value =
    | Nil
    | Bool(b: bool)
    | Num(n: real)
    | Str(s: string)
    | Fn(f: LoxFunction)
    | Cls(c: LoxClass)       // a `LoxClass` value, as a class statement stores it
    | ClassRef(c: LoxClass)  // the `*LoxClass` a subclass's environment binds to `super`
    | Inst(id: nat)          // a `*LoxInstance`
    | Clock                  // the native `clock`

  /** `LoxInstance`: the class it was made from and its own fields. */
  datatype Instance = Instance(klass: LoxClass, fields: map<string, Value>)

  /** An `Environment`: its own bindings and the index of the enclosing one. */
  datatype Frame = Frame(values: map<string, Value>, enclosing: Option<nat>)

  /** The errors evaluation returns: `runtimeError` and the "Undefined variable" errors of
      the environment. */
  datatype Error =
    | RuntimeError(token: Token, message: string)
    | UndefinedVariable(name: Token)

  /** What stops the whole run instead of returning an error: Go panics, the behaviours this
      model does not capture, and running out of fuel. */
  datatype Halt =
    | OutOfFuel
    | NilNode          // `Accept` called on a nil Expr or Stmt
    | NilName          // a `VarStmt` whose `Name` pointer is nil
    | NotAClass        // the type assertion `super.(*LoxClass)` fails
    | NotAnInstance    // the type assertion `inst.(*LoxInstance)` fails
    | NoEnclosing      // walking enclosing links past the global environment
    | MissingArgument  // a parameter with no argument (`args[i]` out of range)
    | NotANumber       // the assertion `l.(float64)` or `r.(float64)` fails on a bool
    | NonFinite        // float64 division by zero: infinities and NaN are not modelled
    | ClockCall        // `clock()` reads the wall clock
    | BadReference     // an arena index out of range; a well-formed state has none

  /** A step that produced a `T`, returned an error, or stopped the run. */
  datatype Outcome<T> = Done(value: T) | Failed(error: Error) | Halted(halt: Halt)

  /** The outcome of an operator applied to evaluated operands. */
  datatype Computed = Computed(v: Value, err: Option<Error>) | Stopped(halt: Halt)

  // ---------------------------------------------------------------------------------
  // Truthiness and equality

  /** `isTruthy`: nil and false are false, every other value is true. */
  predicate IsTruthy(v: Value)
  {
    match v
    case Nil => false
    case Bool(b) => b
    case _ => true
  }

  /** The dynamic types `checkOperandsComparable` admits: float64, bool, string and nil. */
  predicate Comparable(v: Value)
  {
    v.Nil? || v.Bool? || v.Num? || v.Str?
  }

  /** `isEqual` on comparable operands: Go's interface equality, the same dynamic type and
      the same value (nil equals nil). */
  predicate IsEqual(a: Value, b: Value)
    requires Comparable(a) && Comparable(b)
  {
    (a.Nil? && b.Nil?) || a == b
  }

  // ---------------------------------------------------------------------------------
  // Operand checks

  function CheckOperandNumber(op: Token, v: Value): (err: Option<Error>)
    ensures err == None <==> v.Num?
    ensures err.Some? ==> err.value == RuntimeError(op, "Operand must be number")
  {
    if v.Num? then None else Some(RuntimeError(op, "Operand must be number"))
  }

  /** `checkOperandsNumber` as written: it lets bool operands through as well, and the
      `float64` assertion after it then panics. */
  function CheckOperandsNumberAsWritten(op: Token, l: Value, r: Value): Option<Error>
  {
    if (r.Num? || r.Bool?) && (l.Num? || l.Bool?) then None
    else Some(RuntimeError(op, "Operands must be numbers"))
  }

  /** `checkOperandsNumber` admitting exactly the operands the arithmetic after it can use. */
  function CheckOperandsNumber(op: Token, l: Value, r: Value): (err: Option<Error>)
    ensures err == None <==> l.Num? && r.Num?
    ensures err.Some? ==> err.value == RuntimeError(op, "Operands must be numbers")
  {
    if r.Num? && l.Num? then None else Some(RuntimeError(op, "Operands must be numbers"))
  }

  function CheckOperandsComparable(op: Token, l: Value, r: Value): (err: Option<Error>)
    ensures err == None <==> Comparable(l) && Comparable(r)
    ensures err.Some? ==> err.value == RuntimeError(op, "Operands must be numbers, bools, strings to be comparable")
  {
    if Comparable(r) && Comparable(l) then None
    else Some(RuntimeError(op, "Operands must be numbers, bools, strings to be comparable"))
  }

  // ---------------------------------------------------------------------------------
  // Operators on evaluated operands

  /** The tail of `VisitUnaryExpr` once the operand has been evaluated without error. */
  function UnaryValue(op: Token, v: Value): Computed
  {
    if op.kind.Minus? then
      var err := CheckOperandNumber(op, v);
      if err.Some? then Computed(Nil, err) else Computed(Num(-v.n), None)
    else if op.kind.Bang? then Computed(Bool(!IsTruthy(v)), None)
    else Computed(Nil, None)
  }

  /** An arithmetic or ordering operator on two numbers. */
  function Arithmetic(kind: Tokens.TokenKind, a: real, b: real): Computed
  {
    if kind.Minus? then Computed(Num(a - b), None)
    else if kind.Star? then Computed(Num(a * b), None)
    else if kind.Slash? then (if b == 0.0 then Stopped(NonFinite) else Computed(Num(a / b), None))
    else if kind.Greater? then Computed(Bool(a > b), None)
    else if kind.GreaterEqual? then Computed(Bool(a >= b), None)
    else if kind.Less? then Computed(Bool(a < b), None)
    else if kind.LessEqual? then Computed(Bool(a <= b), None)
    else Computed(Nil, None)
  }

  /** The operators that go through `checkOperandsNumber`. */
  predicate IsArithmetic(kind: Tokens.TokenKind)
  {
    kind.Minus? || kind.Star? || kind.Slash? || kind.Greater? || kind.GreaterEqual? || kind.Less? || kind.LessEqual?
  }

  /** `+`: numbers add and strings concatenate; a number or string on the left with a
      right operand of another type gives nil and no error; any other left operand is an
      error. */
  function Plus(op: Token, l: Value, r: Value): Computed
  {
    match l
    case Num(a) => if r.Num? then Computed(Num(a + r.n), None) else Computed(Nil, None)
    case Str(a) => if r.Str? then Computed(Str(a + r.s), None) else Computed(Nil, None)
    case _ => Computed(Nil, Some(RuntimeError(op, "Operands must be numbers or strings")))
  }

  /** `==` (`equal`) or `!=` on two operands: on comparable operands the two are each
      other's negation, on any other an error. */
  function Equality(op: Token, l: Value, r: Value, equal: bool): (c: Computed)
    ensures c.Computed?
    ensures Comparable(l) && Comparable(r) ==> c == Computed(Bool(equal <==> l == r), None)
    ensures !(Comparable(l) && Comparable(r)) ==> c.err.Some? && c.v == Nil
  {
    var err := CheckOperandsComparable(op, l, r);
    if err.Some? then Computed(Nil, err)
    else Computed(Bool(if equal then IsEqual(l, r) else !IsEqual(l, r)), None)
  }

  /** The tail of `VisitBinaryExpr` once both operands have been evaluated without error. */
  function BinaryValue(op: Token, l: Value, r: Value): Computed
  {
    if op.kind.Plus? then Plus(op, l, r)
    else if op.kind.EqualEqual? then Equality(op, l, r, true)
    else if op.kind.BangEqual? then Equality(op, l, r, false)
    else if IsArithmetic(op.kind) then
      var err := CheckOperandsNumber(op, l, r);
      if err.Some? then Computed(Nil, err) else Arithmetic(op.kind, l.n, r.n)
    else Computed(Nil, None)
  }

  /** The tail of `VisitBinaryExpr` as written: `checkOperandsNumber` lets a bool through,
      and the `float64` assertion on it then panics. */
  function BinaryValueAsWritten(op: Token, l: Value, r: Value): Computed
  {
    if op.kind.Plus? then Plus(op, l, r)
    else if op.kind.EqualEqual? then Equality(op, l, r, true)
    else if op.kind.BangEqual? then Equality(op, l, r, false)
    else if IsArithmetic(op.kind) then
      var err := CheckOperandsNumberAsWritten(op, l, r);
      if err.Some? then Computed(Nil, err)
      else if l.Bool? || r.Bool? then Stopped(NotANumber)
      else Arithmetic(op.kind, l.n, r.n)
    else Computed(Nil, None)
  }

  /** The literal value `VisitLiteralExpr` gives for each tag. */
  function LiteralValue(t: LiteralType, n: real, s: string): Value
  {
    match t
    case NumberType => Num(n)
    case StringType => Str(s)
    case BoolType => Bool(n != 0.0)
    case NilType => Nil
  }

  // ---------------------------------------------------------------------------------
  // Properties

  /** Exactly nil and false are falsy. */
  lemma TruthyCases(v: Value)
    ensures !IsTruthy(v) <==> v == Nil || v == Bool(false)
  {
  }

  /** Equality holds only between values of the same dynamic type, and on those it is value
      equality; it is reflexive and symmetric. */
  lemma EqualityByType(a: Value, b: Value)
    requires Comparable(a) && Comparable(b)
    ensures IsEqual(a, b) <==> a == b
    ensures IsEqual(a, b) ==> (a.Num? <==> b.Num?) && (a.Str? <==> b.Str?) && (a.Bool? <==> b.Bool?)
    ensures IsEqual(a, a) && (IsEqual(a, b) <==> IsEqual(b, a))
  {
  }

  /** The checks as written let bool operands through, so `true < 1` reaches the float64
      assertion with a bool; the corrected check rejects it with the runtime error. */
  lemma BoolPassesNumberCheck(op: Token)
    ensures CheckOperandsNumberAsWritten(op, Bool(true), Num(1.0)) == None
    ensures !Bool(true).Num?
    ensures CheckOperandsNumber(op, Bool(true), Num(1.0)) == Some(RuntimeError(op, "Operands must be numbers"))
  {
  }

  /** The corrected check admits a subset of what the written one admits, and they agree on
      every pair without a bool. */
  lemma NumberCheckAgreement(op: Token, l: Value, r: Value)
    ensures CheckOperandsNumber(op, l, r) == None ==> CheckOperandsNumberAsWritten(op, l, r) == None
    ensures !l.Bool? && !r.Bool? ==> CheckOperandsNumber(op, l, r) == CheckOperandsNumberAsWritten(op, l, r)
  {
  }

  /** The written operators and the corrected ones agree whenever no operand is a bool;
      an arithmetic or ordering operator with a bool and a number or bool halts as written,
      where the corrected check returns the runtime error. */
  lemma BinaryAsWrittenAgreement(op: Token, l: Value, r: Value)
    ensures !l.Bool? && !r.Bool? ==> BinaryValueAsWritten(op, l, r) == BinaryValue(op, l, r)
    ensures IsArithmetic(op.kind) && (l.Num? || l.Bool?) && (r.Num? || r.Bool?) && (l.Bool? || r.Bool?) ==>
      BinaryValueAsWritten(op, l, r) == Stopped(NotANumber)
      && BinaryValue(op, l, r) == Computed(Nil, Some(RuntimeError(op, "Operands must be numbers")))
    ensures BinaryValueAsWritten(op, l, r).Stopped? <==>
      (IsArithmetic(op.kind) && (l.Num? || l.Bool?) && (r.Num? || r.Bool?) && (l.Bool? || r.Bool?))
      || BinaryValue(op, l, r).Stopped?
  {
  }

  /** `true - 1`: the written operator panics, the corrected one reports the error. */
  lemma TrueMinusOne(op: Token)
    requires op.kind == Tokens.Minus
    ensures BinaryValueAsWritten(op, Bool(true), Num(1.0)) == Stopped(NotANumber)
    ensures BinaryValue(op, Bool(true), Num(1.0)) == Computed(Nil, Some(RuntimeError(op, "Operands must be numbers")))
  {
  }

  /** The type rules of `+`. */
  lemma PlusTypes(op: Token, l: Value, r: Value)
    ensures Plus(op, l, r).Computed?
    ensures l.Num? && r.Num? ==> Plus(op, l, r) == Computed(Num(l.n + r.n), None)
    ensures l.Str? && r.Str? ==> Plus(op, l, r) == Computed(Str(l.s + r.s), None)
    ensures (l.Num? && r.Str?) || (l.Str? && r.Num?) ==> Plus(op, l, r) == Computed(Nil, None)
    ensures Plus(op, l, r).err.Some? <==> !l.Num? && !l.Str?
  {
  }

  /** Every binary operator other than `+`, `==` and `!=` gives a number or a bool from two
      numbers and the "Operands must be numbers" error otherwise; `/` by zero stops. */
  lemma ArithmeticTypes(op: Token, l: Value, r: Value)
    requires IsArithmetic(op.kind)
    ensures !(l.Num? && r.Num?) ==> BinaryValue(op, l, r) == Computed(Nil, Some(RuntimeError(op, "Operands must be numbers")))
    ensures l.Num? && r.Num? ==>
      (BinaryValue(op, l, r).Stopped? <==> op.kind == Tokens.Slash && r.n == 0.0)
    ensures l.Num? && r.Num? && BinaryValue(op, l, r).Computed? ==>
      BinaryValue(op, l, r).err == None
      && (op.kind in {Tokens.Minus, Tokens.Star, Tokens.Slash} <==> BinaryValue(op, l, r).v.Num?)
      && (op.kind in {Tokens.Greater, Tokens.GreaterEqual, Tokens.Less, Tokens.LessEqual} <==> BinaryValue(op, l, r).v.Bool?)
  {
  }

  /** Negation flips numbers and `!` is the complement of truthiness. */
  lemma UnaryTypes(op: Token, v: Value)
    ensures op.kind == Tokens.Minus ==>
      UnaryValue(op, v) == if v.Num? then Computed(Num(-v.n), None) else Computed(Nil, Some(RuntimeError(op, "Operand must be number")))
    ensures op.kind == Tokens.Bang ==> UnaryValue(op, v) == Computed(Bool(!IsTruthy(v)), None)
  {
  }
}
