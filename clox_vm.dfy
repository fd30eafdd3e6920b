/** The stack machine of clox/vm.c. Values are the doubles `run` treats them as, modelled
    as exact reals. `push` and `pop` do no bounds checks in C; overrunning the 256-slot
    stack, popping an empty one, reading past the code or past the constants is undefined
    behaviour there and is an explicit outcome here. */
module CloxVm {
  import opened Wrappers
  import opened CloxMemory
  import opened CloxChunk

  /** `STACK_MAX` of clox/vm.h. */
  const StackMax: nat := 256

  datatype InterpretResult = InterpretOk | InterpretCompileError | InterpretRuntimeError

  /** How `run` ends: OP_RETURN with the value it prints, or undefined behaviour. */
  datatype Outcome =
    | Returned(printed: real)
    | StackUnderflow
    | StackOverflow
    | CodeOverrun
    | ConstantOutOfRange
    | DivisionByZero

  /** One trip round the dispatch loop: go on at `ip` with `stack`, or stop. */
  datatype Step = Next(ip: nat, stack: seq<real>) | Stop(outcome: Outcome, stack: seq<real>)

  /** The result of `run`: its outcome and the stack it leaves. */
  datatype Final = Final(outcome: Outcome, stack: seq<real>)

  function Apply(op: OpCode, a: real, b: real): real
    requires op == OpAdd || op == OpSubtract || op == OpMultiply || (op == OpDivide && b != 0.0)
  {
    match op
    case OpAdd => a + b
    case OpSubtract => a - b
    case OpMultiply => a * b
    case OpDivide => a / b
  }

  /** `BINARY_OP`: pop b, pop a, push `a op b`. */
  function BinaryStep(op: OpCode, ip: nat, stack: seq<real>): Step
    requires op == OpAdd || op == OpSubtract || op == OpMultiply || op == OpDivide
  {
    if |stack| < 2 then Stop(StackUnderflow, stack)
    else
      var b := stack[|stack| - 1];
      var a := stack[|stack| - 2];
      if op == OpDivide && b == 0.0 then Stop(DivisionByZero, stack)
      else Next(ip + 1, stack[..|stack| - 2] + [Apply(op, a, b)])
  }

  /** One instruction at `ip`. A byte that is no instruction falls through the `switch`
      and the loop goes on with the next byte. */
  function Exec(code: seq<byte>, constants: seq<real>, ip: nat, stack: seq<real>): (s: Step)
    requires ip < |code|
    ensures s.Next? ==> s.ip > ip
  {
    match OpOf(code[ip])
    case Some(OpConstant) =>
      if ip + 1 >= |code| then Stop(CodeOverrun, stack)
      else if code[ip + 1] as int >= |constants| then Stop(ConstantOutOfRange, stack)
      else if |stack| >= StackMax then Stop(StackOverflow, stack)
      else Next(ip + 2, stack + [constants[code[ip + 1]]])
    case Some(OpNegate) =>
      if |stack| == 0 then Stop(StackUnderflow, stack)
      else Next(ip + 1, stack[..|stack| - 1] + [-stack[|stack| - 1]])
    case Some(OpReturn) =>
      if |stack| == 0 then Stop(StackUnderflow, stack)
      else Stop(Returned(stack[|stack| - 1]), stack[..|stack| - 1])
    case Some(op) => BinaryStep(op, ip, stack)
    case None => Next(ip + 1, stack)
  }

  /** `run` from `ip`: dispatch until an instruction stops it or the code runs out. */
  function Run(code: seq<byte>, constants: seq<real>, ip: nat, stack: seq<real>): Final
    decreases |code| - ip
  {
    if ip >= |code| then Final(CodeOverrun, stack)
    else match Exec(code, constants, ip, stack)
      case Next(ip', stack') => Run(code, constants, ip', stack')
      case Stop(o, stack') => Final(o, stack')
  }

  /** What `interpret` ends with: the compiler failed, or `run` ended with an outcome. */
  datatype Interpreted = CompileFailed | Ran(outcome: Outcome)

  /** The `InterpretResult` an interpretation returns, where the C code defines one. */
  function ResultOf(i: Interpreted): Option<InterpretResult>
  {
    match i
    case CompileFailed => Some(InterpretCompileError)
    case Ran(Returned(_)) => Some(InterpretOk)
    case Ran(_) => None
  }

  class VM {
    /** `Value stack[STACK_MAX]` and `stackTop`, as the index of the first free slot. */
    var stack: array<real>
    var stackTop: int
    /** `chunk` (null until `interpret` sets it) and the constant pool it carries. */
    var chunk: Chunk?
    var constants: seq<real>
    /** `ip`, as an offset into the chunk's code. */
    var ip: int

    ghost predicate Valid()
      reads this
    {
      stack.Length == StackMax && 0 <= stackTop <= StackMax && ip >= 0
    }

    /** The values on the stack, bottom first. */
    ghost function Stack(): seq<real>
      reads this, stack
      requires Valid()
    {
      stack[..stackTop]
    }

    /** A VM passed to `initVM`. */
    constructor ()
      ensures Valid() && fresh(stack) && Stack() == [] && chunk == null && ip == 0
    {
      stack := new real[StackMax];
      stackTop := 0;
      chunk := null;
      constants := [];
      ip := 0;
    }

    /** `resetStack`: the stack is empty again; its slots keep their old values. */
    method ResetStack()
      requires Valid()
      modifies this
      ensures Valid() && Stack() == [] && stack == old(stack)
      ensures chunk == old(chunk) && ip == old(ip) && constants == old(constants)
    {
      stackTop := 0;
    }

    /** `initVM`: an empty stack, no chunk and no instruction pointer. */
    method Init()
      requires Valid()
      modifies this
      ensures Valid() && Stack() == [] && stack == old(stack) && chunk == null && ip == 0
    {
      ResetStack();
      chunk := null;
      ip := 0;
    }

    /** `freeVM`: frees the chunk the VM points at (which must exist) and reinitialises. */
    method Free()
      requires Valid() && chunk != null && chunk.Valid()
      modifies this, chunk
      ensures Valid() && Stack() == [] && chunk == null && ip == 0
      ensures old(chunk).Valid() && old(chunk).Contents() == []
    {
      chunk.Free();
      Init();
    }

    /** `push`: writes at `stackTop`, then moves it up. */
    method Push(v: real)
      requires Valid() && stackTop < StackMax
      modifies this, stack
      ensures Valid() && stack == old(stack) && Stack() == old(Stack()) + [v]
      ensures chunk == old(chunk) && ip == old(ip) && constants == old(constants)
    {
      stack[stackTop] := v;
      stackTop := stackTop + 1;
    }

    /** `pop`: moves `stackTop` down, then reads the slot. */
    method Pop() returns (v: real)
      requires Valid() && stackTop > 0
      modifies this
      ensures Valid() && stack == old(stack)
      ensures v == old(Stack())[|old(Stack())| - 1] && Stack() == old(Stack())[..|old(Stack())| - 1]
      ensures chunk == old(chunk) && ip == old(ip) && constants == old(constants)
    {
      stackTop := stackTop - 1;
      v := stack[stackTop];
    }

    /** `BINARY_OP(op)`: pops b, then a, and pushes `a op b`. */
    method BinaryOp(op: OpCode) returns (stop: Option<Outcome>)
      requires Valid() && (op == OpAdd || op == OpSubtract || op == OpMultiply || op == OpDivide)
      modifies this, stack
      ensures Valid() && stack == old(stack) && chunk == old(chunk) && constants == old(constants)
      ensures ip == old(ip)
      ensures match BinaryStep(op, 0, old(Stack()))
        case Next(_, st) => stop == None && Stack() == st
        case Stop(o, st) => stop == Some(o) && Stack() == st
    {
      if stackTop < 2 {
        return Some(StackUnderflow);
      }
      ghost var below := Stack()[..stackTop - 2];
      var b := Pop();
      var a := Pop();
      assert Stack() == below;
      if op == OpDivide && b == 0.0 {
        Push(a);
        Push(b);
        return Some(DivisionByZero);
      }
      Push(Apply(op, a, b));
      return None;
    }

    /** One trip round `run`'s loop: reads the instruction byte at `ip` and dispatches on
        it. */
    method Dispatch() returns (stop: Option<Outcome>)
      requires Valid() && chunk != null && chunk.Valid() && ip < chunk.count
      modifies this, stack
      ensures Valid() && stack == old(stack) && chunk == old(chunk) && constants == old(constants)
      ensures match Exec(chunk.Contents(), constants, old(ip), old(Stack()))
        case Next(ip', st) => stop == None && ip == ip' && Stack() == st
        case Stop(o, st) => stop == Some(o) && Stack() == st
    {
      var instruction := chunk.code[ip];
      ip := ip + 1;
      match OpOf(instruction)
      case Some(OpConstant) =>
        if ip >= chunk.count {
          return Some(CodeOverrun);
        }
        var index := chunk.code[ip];
        ip := ip + 1;
        if index as int >= |constants| {
          return Some(ConstantOutOfRange);
        }
        if stackTop >= StackMax {
          return Some(StackOverflow);
        }
        Push(constants[index]);
        return None;
      case Some(OpNegate) =>
        if stackTop == 0 {
          return Some(StackUnderflow);
        }
        var v := Pop();
        Push(-v);
        return None;
      case Some(OpReturn) =>
        if stackTop == 0 {
          return Some(StackUnderflow);
        }
        var v := Pop();
        return Some(Returned(v));
      case Some(op) =>
        stop := BinaryOp(op);
      case None =>
        return None;
    }

    /** `run`: the dispatch loop over the chunk's code, from `ip`. */
    method RunLoop() returns (outcome: Outcome)
      requires Valid() && chunk != null && chunk.Valid()
      modifies this, stack
      ensures Valid() && stack == old(stack) && chunk == old(chunk) && constants == old(constants)
      ensures var f := Run(chunk.Contents(), constants, old(ip), old(Stack()));
        outcome == f.outcome && Stack() == f.stack
    {
      ghost var code := chunk.Contents();
      ghost var goal := Run(code, constants, ip, Stack());
      while ip < chunk.count
        invariant Valid() && stack == old(stack) && chunk == old(chunk) && constants == old(constants)
        invariant chunk.Valid() && chunk.Contents() == code
        invariant Run(code, constants, ip, Stack()) == goal
        decreases chunk.count - ip
      {
        var stop := Dispatch();
        if stop.Some? {
          return stop.value;
        }
      }
      return CodeOverrun;
    }

    /** `interpret`, given what the compiler left: `compiled` is the chunk `compile` filled
        and `ok` its result. On failure the chunk is freed and the compile error returned;
        otherwise the VM runs the chunk from its first byte and then frees it. */
    method Interpret(compiled: Chunk, pool: seq<real>, ok: bool) returns (r: Interpreted)
      requires Valid() && compiled.Valid()
      modifies this, stack, compiled
      ensures Valid() && stack == old(stack)
      ensures compiled.Valid() && compiled.Contents() == []
      ensures !ok ==> r == CompileFailed && Stack() == old(Stack())
      ensures ok ==> var f := Run(old(compiled.Contents()), pool, 0, old(Stack()));
        r == Ran(f.outcome) && Stack() == f.stack
    {
      if !ok {
        compiled.Free();
        return CompileFailed;
      }
      chunk := compiled;
      constants := pool;
      ip := 0;
      var outcome := RunLoop();
      compiled.Free();
      return Ran(outcome);
    }
  }

  // ---------------------------------------------------------------------------------
  // Properties

  /** `BINARY_OP` pops the right operand first: with a below b on top, the result is
      `a op b` in b's place and the stack is one shorter. */
  lemma BinaryOperandOrder(code: seq<byte>, constants: seq<real>, ip: nat, below: seq<real>, a: real, b: real)
    requires ip < |code| && OpOf(code[ip]) == Some(OpSubtract)
    ensures Exec(code, constants, ip, below + [a, b]) == Next(ip + 1, below + [a - b])
  {
    var s := below + [a, b];
    assert s[..|s| - 2] == below;
  }

  /** Division by the value on top; dividing by zero is the only way it stops. */
  lemma DivideOperandOrder(code: seq<byte>, constants: seq<real>, ip: nat, below: seq<real>, a: real, b: real)
    requires ip < |code| && OpOf(code[ip]) == Some(OpDivide)
    ensures b != 0.0 ==> Exec(code, constants, ip, below + [a, b]) == Next(ip + 1, below + [a / b])
    ensures b == 0.0 <==> Exec(code, constants, ip, below + [a, b]).Stop?
  {
    var s := below + [a, b];
    assert s[..|s| - 2] == below;
  }

  /** OP_NEGATE replaces the top with its negation and keeps the depth. */
  lemma NegateKeepsDepth(code: seq<byte>, constants: seq<real>, ip: nat, stack: seq<real>)
    requires ip < |code| && OpOf(code[ip]) == Some(OpNegate) && |stack| > 0
    ensures var s := Exec(code, constants, ip, stack);
      s.Next? && |s.stack| == |stack| && s.stack[..|stack| - 1] == stack[..|stack| - 1]
      && s.stack[|stack| - 1] == -stack[|stack| - 1]
  {
  }

  /** OP_CONSTANT pushes the constant its operand byte indexes and skips the operand. */
  lemma ConstantPushes(code: seq<byte>, constants: seq<real>, ip: nat, stack: seq<real>)
    requires ip + 1 < |code| && OpOf(code[ip]) == Some(OpConstant)
    requires (code[ip + 1] as int) < |constants| && |stack| < StackMax
    ensures Exec(code, constants, ip, stack) == Next(ip + 2, stack + [constants[code[ip + 1]]])
  {
  }

  /** OP_RETURN prints the popped top and ends the loop with INTERPRET_OK. */
  lemma ReturnPrintsTop(code: seq<byte>, constants: seq<real>, ip: nat, stack: seq<real>, v: real)
    requires ip < |code| && OpOf(code[ip]) == Some(OpReturn)
    ensures Run(code, constants, ip, stack + [v]) == Final(Returned(v), stack)
    ensures ResultOf(Ran(Run(code, constants, ip, stack + [v]).outcome)) == Some(InterpretOk)
  {
    assert (stack + [v])[..|stack|] == stack;
  }

  /** No step lets the stack outgrow its 256 slots. */
  lemma {:induction false} StackStaysBounded(code: seq<byte>, constants: seq<real>, ip: nat, stack: seq<real>)
    requires |stack| <= StackMax
    ensures |Run(code, constants, ip, stack).stack| <= StackMax
    decreases |code| - ip
  {
    if ip < |code| {
      match Exec(code, constants, ip, stack)
      case Next(ip', stack') => StackStaysBounded(code, constants, ip', stack');
      case Stop(_, _) =>
    }
  }

  /** `run` never reports a runtime error: when the C code defines a result, it is OK. */
  lemma RunIsOkOrUndefined(code: seq<byte>, constants: seq<real>, ip: nat, stack: seq<real>)
    ensures ResultOf(Ran(Run(code, constants, ip, stack).outcome)) != Some(InterpretRuntimeError)
  {
  }

  /** The chunk clox/main.c builds: (1.2 + 3.4) / 5.6, then return. */
  lemma MainChunkPrintsQuotient()
    ensures Run([0, 0, 0, 1, 1, 0, 2, 4, 6], [1.2, 3.4, 5.6], 0, []) == Final(Returned((1.2 + 3.4) / 5.6), [])
  {
    var code: seq<byte> := [0, 0, 0, 1, 1, 0, 2, 4, 6];
    var k: seq<real> := [1.2, 3.4, 5.6];
    assert Exec(code, k, 0, []) == Next(2, [1.2]);
    assert Exec(code, k, 2, [1.2]) == Next(4, [1.2, 3.4]);
    BinaryOperandAdd(code, k, 4, 1.2, 3.4);
    assert Exec(code, k, 5, [4.6]) == Next(7, [4.6, 5.6]);
    DivideOperandOrder(code, k, 7, [], 4.6, 5.6);
    ReturnPrintsTop(code, k, 8, [], 4.6 / 5.6);
  }

  lemma BinaryOperandAdd(code: seq<byte>, constants: seq<real>, ip: nat, a: real, b: real)
    requires ip < |code| && OpOf(code[ip]) == Some(OpAdd)
    ensures Exec(code, constants, ip, [a, b]) == Next(ip + 1, [a + b])
  {
  }
}
