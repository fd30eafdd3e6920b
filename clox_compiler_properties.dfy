/** Properties of the clox compiler: the code it emits keeps the VM's value stack in step,
    `!=`, `>=` and `<=` compute the comparisons they name, and the comparison operators bind
    as tightly as their place in the table says only in the corrected table. */
module CloxCompilerProperties {
  import opened Wrappers
  import opened CloxCompiler
  import opened CloxMemory

  // ---------------------------------------------------------------------------------
  // Stack depth

  /** The depth of the value stack after one byte of code, or None when the instruction
      would pop more values than the stack holds. The seven instructions of clox/vm.c move
      the stack as that file runs them (its `OP_RETURN` pops the value it prints); the others
      as their names say. The operand of `OP_CONSTANT` is read with it. */
  function StepDepth(c: Code, depth: nat): Option<nat>
  {
    match c
    case Operand(_) => Some(depth)
    case Instruction(op) =>
      match op
      case OpConstant | OpFalse | OpTrue | OpNil => Some(depth + 1)
      case OpNegate | OpNot => if depth >= 1 then Some(depth) else None
      case OpAdd | OpSubtract | OpMultiply | OpDivide | OpEqual | OpGreater | OpLess =>
        if depth >= 2 then Some(depth - 1) else None
      case OpPrint | OpPop | OpReturn => if depth >= 1 then Some(depth - 1) else None
  }

  /** The depth after running straight-line code from `depth`, or None on an underflow. */
  function RunDepth(code: seq<Code>, depth: nat): Option<nat>
    decreases |code|
  {
    if code == [] then Some(depth)
    else
      match StepDepth(code[0], depth)
      case None => None
      case Some(d) => RunDepth(code[1..], d)
  }

  lemma {:induction false} RunAppend(a: seq<Code>, b: seq<Code>, depth: nat)
    ensures RunDepth(a + b, depth) == if RunDepth(a, depth).Some? then RunDepth(b, RunDepth(a, depth).value) else None
    decreases |a|
  {
    if a == [] {
      assert a + b == b;
    } else {
      assert (a + b)[1..] == a[1..] + b;
      match StepDepth(a[0], depth)
      case None =>
      case Some(d) => RunAppend(a[1..], b, d);
    }
  }

  /** Code that leaves one more value on any stack: a compiled expression. */
  ghost predicate Pushes(code: seq<Code>)
  {
    forall depth: nat :: RunDepth(code, depth) == Some(depth + 1)
  }

  /** Code that leaves a non-empty stack as deep as it found it: the operators that follow a
      left operand. */
  ghost predicate KeepsOperand(code: seq<Code>)
  {
    forall depth: nat :: depth >= 1 ==> RunDepth(code, depth) == Some(depth)
  }

  /** Code that leaves any stack as deep as it found it: a compiled statement. */
  ghost predicate Balanced(code: seq<Code>)
  {
    forall depth: nat :: RunDepth(code, depth) == Some(depth)
  }

  /** The code a routine appended, from the code before it to the code after it. */
  function Appended(before: CState, after: CState): seq<Code>
    requires before.code <= after.code
  {
    after.code[|before.code|..]
  }

  /** Code appended in two steps is the first step's code, then the second's. */
  lemma SplitAppended(a: seq<Code>, b: seq<Code>, c: seq<Code>)
    requires a <= b && b <= c
    ensures a <= c && c[|a|..] == b[|a|..] + c[|b|..]
  {
    assert c == a + b[|a|..] + c[|b|..];
  }

  /** An operand, then operators that keep its place: one value pushed. */
  lemma PushedThenKept(a: seq<Code>, b: seq<Code>, c: seq<Code>)
    requires a <= b && b <= c && Pushes(b[|a|..]) && KeepsOperand(c[|b|..])
    ensures a <= c && Pushes(c[|a|..])
  {
    SplitAppended(a, b, c);
    forall depth: nat
      ensures RunDepth(c[|a|..], depth) == Some(depth + 1)
    {
      RunAppend(b[|a|..], c[|b|..], depth);
    }
  }

  lemma KeptThenKept(a: seq<Code>, b: seq<Code>, c: seq<Code>)
    requires a <= b && b <= c && KeepsOperand(b[|a|..]) && KeepsOperand(c[|b|..])
    ensures a <= c && KeepsOperand(c[|a|..])
  {
    SplitAppended(a, b, c);
    forall depth: nat | depth >= 1
      ensures RunDepth(c[|a|..], depth) == Some(depth)
    {
      RunAppend(b[|a|..], c[|b|..], depth);
    }
  }

  lemma BalancedThenBalanced(a: seq<Code>, b: seq<Code>, c: seq<Code>)
    requires a <= b && b <= c && Balanced(b[|a|..]) && Balanced(c[|b|..])
    ensures a <= c && Balanced(c[|a|..])
  {
    SplitAppended(a, b, c);
    forall depth: nat
      ensures RunDepth(c[|a|..], depth) == Some(depth)
    {
      RunAppend(b[|a|..], c[|b|..], depth);
    }
  }

  /** A pushed value followed by an instruction that consumes one: balanced. */
  lemma PushesThenPops(a: seq<Code>, op: Op)
    requires Pushes(a) && op in {OpPrint, OpPop}
    ensures Balanced(a + [Instruction(op)])
  {
    forall depth: nat
      ensures RunDepth(a + [Instruction(op)], depth) == Some(depth)
    {
      RunAppend(a, [Instruction(op)], depth);
    }
  }

  /** The same, for code appended to what came before. */
  lemma PushedThenPopped(before: seq<Code>, pushed: seq<Code>, after: seq<Code>, op: Op)
    requires before <= pushed && Pushes(pushed[|before|..]) && op in {OpPrint, OpPop}
    requires after == pushed + [Instruction(op)]
    ensures before <= after && Balanced(after[|before|..])
  {
    assert after[|before|..] == pushed[|before|..] + [Instruction(op)];
    PushesThenPops(pushed[|before|..], op);
  }

  /** A pushed value followed by a unary operator: still one value pushed. */
  lemma PushedThenUnary(before: seq<Code>, pushed: seq<Code>, after: seq<Code>, op: Op)
    requires before <= pushed && Pushes(pushed[|before|..]) && op in {OpNot, OpNegate}
    requires after == pushed + [Instruction(op)]
    ensures before <= after && Pushes(after[|before|..])
  {
    var a := pushed[|before|..];
    assert after[|before|..] == a + [Instruction(op)];
    forall depth: nat
      ensures RunDepth(a + [Instruction(op)], depth) == Some(depth + 1)
    {
      RunAppend(a, [Instruction(op)], depth);
    }
  }

  /** The token types that have an infix rule. */
  predicate IsOperator(t: TokenType)
  {
    t == TokenMinus || t == TokenPlus || t == TokenSlash || t == TokenStar
    || t == TokenBangEqual || t == TokenEqualEqual || TokenGreater <= t <= TokenLessEqual
  }

  /** The tokens that bind at some precedence are the operators. */
  lemma OperatorsHaveInfix(table: Table, t: TokenType)
    requires GetRule(table, t).precedence > PrecNone
    ensures IsOperator(t)
  {
  }

  /** An operator's instructions take two values and leave one. */
  lemma OperatorPopsOne(t: TokenType, depth: nat)
    requires IsOperator(t) && depth >= 2
    ensures RunDepth(Instructions(BinaryOps(t)), depth) == Some(depth - 1)
  {
    var ops := BinaryOps(t);
    var first := [Instruction(ops[0])];
    RunSingle(Instruction(ops[0]), depth);
    if |ops| == 2 {
      var second := [Instruction(ops[1])];
      assert ops[1..][1..] == [];
      assert Instructions(ops[1..]) == second + Instructions(ops[1..][1..]);
      assert Instructions(ops) == first + second;
      RunAppend(first, second, depth);
      RunSingle(Instruction(ops[1]), depth - 1);
    } else {
      assert ops[1..] == [];
      assert Instructions(ops) == first;
    }
  }

  lemma RunSingle(c: Code, depth: nat)
    ensures RunDepth([c], depth) == StepDepth(c, depth)
  {
    assert [c][1..] == [];
  }

  /** A right operand followed by its operator: the left operand's place is kept. */
  lemma PushedThenOperator(before: seq<Code>, pushed: seq<Code>, after: seq<Code>, t: TokenType)
    requires before <= pushed && Pushes(pushed[|before|..]) && IsOperator(t)
    requires after == pushed + Instructions(BinaryOps(t))
    ensures before <= after && KeepsOperand(after[|before|..])
  {
    var a := pushed[|before|..];
    assert after[|before|..] == a + Instructions(BinaryOps(t));
    forall depth: nat | depth >= 1
      ensures RunDepth(a + Instructions(BinaryOps(t)), depth) == Some(depth)
    {
      RunAppend(a, Instructions(BinaryOps(t)), depth);
      OperatorPopsOne(t, depth + 1);
    }
  }

  // ---------------------------------------------------------------------------------
  // An expression compiled without error pushes exactly one value

  /** `parsePrecedence` compiles one operand and the operators binding at least as tightly
      as `precedence`; without an error, that code pushes one value. */
  lemma {:induction false} PrecedencePushes(st: CState, precedence: nat)
    requires Valid(st) && precedence >= PrecAssignment
    ensures var r := PrecedenceParsed(st, precedence);
      !r.hadError ==> st.code <= r.code && Pushes(Appended(st, r))
    decreases Remaining(st), 0
  {
    var st1 := Advanced(st);
    var prefix := GetRule(st.table, st1.previous.tokenType).prefix;
    if prefix != NoFn {
      var st2 := PrefixApplied(st1, prefix);
      var r := InfixApplied(st2, precedence);
      if !r.hadError {
        PrefixPushes(st1, prefix);
        InfixKeeps(st2, precedence);
        PushedThenKept(st1.code, st2.code, r.code);
      }
    }
  }

  /** The infix loop of `parsePrecedence`: without an error, the operators and right
      operands it compiles keep the left operand's place. */
  lemma {:induction false} InfixKeeps(st: CState, precedence: nat)
    requires Valid(st) && precedence >= PrecAssignment
    ensures var r := InfixApplied(st, precedence);
      !r.hadError ==> st.code <= r.code && KeepsOperand(Appended(st, r))
    decreases Remaining(st), 5
  {
    if precedence <= GetRule(st.table, st.current.tokenType).precedence {
      var st1 := Advanced(st);
      var st2 := BinaryCompiled(st1);
      var r := InfixApplied(st2, precedence);
      if !r.hadError {
        OperatorsAreBinary(st.table, st.current.tokenType);
        BinaryKeeps(st1);
        InfixKeeps(st2, precedence);
        KeptThenKept(st1.code, st2.code, r.code);
      }
    } else {
      assert Appended(st, st) == [];
    }
  }

  /** `binary` after an operator: without an error, the right operand and the operator's
      instructions keep the left operand's place. */
  lemma {:induction false} BinaryKeeps(st: CState)
    requires Valid(st) && GetRule(st.table, st.previous.tokenType).precedence > PrecNone
    ensures var r := BinaryCompiled(st);
      !r.hadError ==> st.code <= r.code && KeepsOperand(Appended(st, r))
    decreases Remaining(st), 1
  {
    var t := st.previous.tokenType;
    var st1 := PrecedenceParsed(st, GetRule(st.table, t).precedence + 1);
    var r := EmittedOps(st1, BinaryOps(t));
    if !r.hadError {
      PrecedencePushes(st, GetRule(st.table, t).precedence + 1);
      OperatorsHaveInfix(st.table, t);
      PushedThenOperator(st.code, st1.code, r.code, t);
    }
  }

  /** A prefix rule: without an error, one value pushed. */
  lemma {:induction false} PrefixPushes(st: CState, prefix: ParseFn)
    requires Valid(st) && prefix != NoFn && prefix == GetRule(st.table, st.previous.tokenType).prefix
    ensures var r := PrefixApplied(st, prefix);
      !r.hadError ==> st.code <= r.code && Pushes(Appended(st, r))
    decreases Remaining(st), 3
  {
    match prefix
    case GroupingFn => GroupingPushes(st);
    case UnaryFn => UnaryPushes(st);
    case BinaryFn => assert false;
    case NumberFn => ConstantPushes(st, NumberValue(Scanner.ParseDecimal(st.previous.lexeme)));
    case StringFn =>
      var lexeme := st.previous.lexeme;
      ConstantPushes(st, StringValue(lexeme[1..|lexeme| - 1]));
    case LiteralFn => LiteralPushes(st);
  }

  lemma {:induction false} GroupingPushes(st: CState)
    requires Valid(st)
    ensures var r := GroupingCompiled(st);
      !r.hadError ==> st.code <= r.code && Pushes(Appended(st, r))
    decreases Remaining(st), 2
  {
    PrecedencePushes(st, PrecAssignment);
  }

  lemma {:induction false} UnaryPushes(st: CState)
    requires Valid(st)
    ensures var r := UnaryCompiled(st);
      !r.hadError ==> st.code <= r.code && Pushes(Appended(st, r))
    decreases Remaining(st), 1
  {
    var st1 := PrecedenceParsed(st, PrecUnary);
    var r := UnaryCompiled(st);
    if !r.hadError {
      PrecedencePushes(st, PrecUnary);
      var t := st.previous.tokenType;
      if t == TokenBang || t == TokenMinus {
        var op := if t == TokenBang then OpNot else OpNegate;
        PushedThenUnary(st.code, st1.code, r.code, op);
      }
    }
  }

  /** `emitConstant`: `OP_CONSTANT` and its operand push one value. */
  lemma ConstantPushes(st: CState, v: Value)
    requires Valid(st)
    ensures var r := ConstantEmitted(st, v);
      st.code <= r.code && Pushes(Appended(st, r))
  {
    var r := ConstantEmitted(st, v);
    var code := Appended(st, r);
    var operand := Operand(ConstantMade(st, v).0);
    assert code == [Instruction(OpConstant)] + [operand];
    forall depth: nat
      ensures RunDepth(code, depth) == Some(depth + 1)
    {
      RunAppend([Instruction(OpConstant)], [operand], depth);
      RunSingle(Instruction(OpConstant), depth);
      RunSingle(operand, depth + 1);
    }
  }

  /** `literal`, reached only for `false`, `true` and `nil`: one value pushed. */
  lemma LiteralPushes(st: CState)
    requires Valid(st) && (st.previous.tokenType == TokenFalse || st.previous.tokenType == TokenTrue || st.previous.tokenType == TokenNil)
    ensures var r := LiteralCompiled(st);
      st.code <= r.code && Pushes(Appended(st, r))
  {
    var r := LiteralCompiled(st);
    var t := st.previous.tokenType;
    var op := if t == TokenFalse then OpFalse else if t == TokenTrue then OpTrue else OpNil;
    var code := Appended(st, r);
    assert code == [Instruction(op)];
    forall depth: nat
      ensures RunDepth(code, depth) == Some(depth + 1)
    {
      RunSingle(Instruction(op), depth);
    }
  }

  // ---------------------------------------------------------------------------------
  // Statements compiled without error leave the stack as they found it

  /** `statement`: the expression's value is printed or popped. */
  lemma StatementBalanced(st: CState)
    requires Valid(st)
    ensures var r := StatementCompiled(st);
      !r.hadError ==> st.code <= r.code && Balanced(Appended(st, r))
  {
    if st.current.tokenType == TokenPrint {
      ExpressionThenPops(Advanced(st), OpPrint);
    } else {
      ExpressionThenPops(st, OpPop);
    }
  }

  /** `printStatement` and `expressionStatement`: one value pushed, then consumed. */
  lemma ExpressionThenPops(st: CState, op: Op)
    requires Valid(st) && op in {OpPrint, OpPop}
    ensures var r := Emitted(Consumed(ExpressionCompiled(st), TokenSemicolon, "Expected ';' after expression."), Instruction(op));
      !r.hadError ==> st.code <= r.code && Balanced(Appended(st, r))
  {
    var e := ExpressionCompiled(st);
    var c := Consumed(e, TokenSemicolon, "Expected ';' after expression.");
    var r := Emitted(c, Instruction(op));
    if !r.hadError {
      PrecedencePushes(st, PrecAssignment);
      PushedThenPopped(st.code, e.code, r.code, op);
    }
  }

  /** `declaration`: a statement, or an error. */
  lemma DeclarationBalanced(st: CState)
    requires Valid(st)
    ensures var r := DeclarationCompiled(st);
      !r.hadError ==> st.code <= r.code && Balanced(Appended(st, r))
  {
    StatementBalanced(st);
  }

  /** The loop of `compile`. */
  lemma {:induction false} DeclarationsBalanced(st: CState)
    requires Valid(st)
    ensures var r := DeclarationsCompiled(st);
      !r.hadError ==> st.code <= r.code && Balanced(Appended(st, r))
    decreases Remaining(st)
  {
    var r := DeclarationsCompiled(st);
    if !r.hadError {
      if st.current.tokenType == TokenEof {
        assert Appended(st, r) == [];
      } else {
        var s1 := DeclarationCompiled(st);
        DeclarationBalanced(st);
        DeclarationsBalanced(s1);
        BalancedThenBalanced(st.code, s1.code, r.code);
      }
    }
  }

  /** A program `compile` accepts leaves the stack empty before its final `OP_RETURN`. */
  lemma CompiledIsBalanced(table: Table, tokens: seq<Token>)
    requires Scanned(tokens)
    ensures var r := Compiled(table, tokens);
      r.ok ==> RunDepth(r.final.code[..|r.final.code| - 1], 0) == Some(0)
  {
    var a := Advanced(Initial(table, tokens));
    var d := DeclarationsCompiled(a);
    DeclarationsBalanced(a);
    var r := Compiled(table, tokens);
    if r.ok {
      assert r.final.code[..|r.final.code| - 1] == Appended(a, d);
    }
  }

  /** So the `OP_RETURN` that `endCompiler` appends finds the stack empty, where clox/vm.c
      pops the value it prints: that VM, whose switch knows only the seven instructions of
      clox/chunk.h, cannot run what this compiler emits. */
  lemma CompiledReturnUnderflows(table: Table, tokens: seq<Token>)
    requires Scanned(tokens)
    ensures var r := Compiled(table, tokens);
      r.ok ==> RunDepth(r.final.code, 0) == None
  {
    var r := Compiled(table, tokens);
    if r.ok {
      CompiledIsBalanced(table, tokens);
      ReturnOnEmpty(r.final.code);
    }
  }

  lemma ReturnOnEmpty(code: seq<Code>)
    requires |code| >= 1 && code[|code| - 1] == Instruction(OpReturn)
    requires RunDepth(code[..|code| - 1], 0) == Some(0)
    ensures RunDepth(code, 0) == None
  {
    assert code == code[..|code| - 1] + [Instruction(OpReturn)];
    RunAppend(code[..|code| - 1], [Instruction(OpReturn)], 0);
    RunSingle(Instruction(OpReturn), 0);
  }

  // ---------------------------------------------------------------------------------
  // What the comparison instructions compute

  /** The truth value an operator's instructions leave for two numbers: `OP_EQUAL`,
      `OP_GREATER` or `OP_LESS` on the operands, then any `OP_NOT`s. */
  function Compared(ops: seq<Op>, a: real, b: real): Option<bool>
  {
    if ops == [] then None
    else
      var first :=
        match ops[0]
        case OpEqual => Some(a == b)
        case OpGreater => Some(a > b)
        case OpLess => Some(a < b)
        case _ => None;
      Negated(first, ops[1..])
  }

  function Negated(value: Option<bool>, ops: seq<Op>): Option<bool>
    decreases |ops|
  {
    if ops == [] || value.None? then value
    else if ops[0] == OpNot then Negated(Some(!value.value), ops[1..])
    else None
  }

  /** The comparison a Lox operator names. */
  function Intended(t: TokenType, a: real, b: real): bool
    requires TokenBangEqual <= t <= TokenLessEqual && t != TokenEqual
  {
    if t == TokenBangEqual then a != b
    else if t == TokenEqualEqual then a == b
    else if t == TokenGreater then a > b
    else if t == TokenGreaterEqual then a >= b
    else if t == TokenLess then a < b
    else a <= b
  }

  /** `binary` gets every comparison right, `!=`, `>=` and `<=` by negating `==`, `<` and
      `>` (on exact numbers; see the README on NaN). */
  lemma ComparisonsAsNamed(t: TokenType, a: real, b: real)
    requires TokenBangEqual <= t <= TokenLessEqual && t != TokenEqual
    ensures Compared(BinaryOps(t), a, b) == Some(Intended(t, a, b))
  {
    var ops := BinaryOps(t);
    if |ops| == 2 {
      assert ops[1..] == [OpNot] && [OpNot][1..] == [];
    } else {
      assert ops[1..] == [];
    }
  }

  // ---------------------------------------------------------------------------------
  // The precedence of the comparison operators

  /** The tokens of a statement such as `1 == 2 < 3;`. */
  predicate EqualityThenLess(tokens: seq<Token>)
  {
    |tokens| == 7
    && tokens[0].tokenType == TokenNumber && tokens[1].tokenType == TokenEqualEqual
    && tokens[2].tokenType == TokenNumber && tokens[3].tokenType == TokenLess
    && tokens[4].tokenType == TokenNumber && tokens[5].tokenType == TokenSemicolon
    && tokens[6].tokenType == TokenEof
  }

  /** `advance` onto a token that is not an error token. */
  lemma AdvanceClean(st: CState)
    requires Valid(st) && st.pos < |st.tokens| && st.tokens[st.pos].tokenType != TokenError
    ensures Advanced(st) == st.(previous := st.current, current := st.tokens[st.pos], pos := st.pos + 1)
  {
  }

  /** The compilation of `1 == 2 < 3;` up to its first operand, in either table. */
  lemma FirstOperand(table: Table, tokens: seq<Token>) returns (a: CState, n1: CState)
    requires EqualityThenLess(tokens)
    ensures Scanned(tokens) && Valid(a) && Valid(n1)
    ensures a == Advanced(Initial(table, tokens)) && a.tokens == tokens && a.table == table
    ensures a.current == tokens[0] && a.pos == 1 && a.code == [] && !a.panicMode && !a.hadError
    ensures n1.tokens == tokens && n1.table == table && n1.pos == 2 && n1.current == tokens[1]
    ensures n1.code == [Instruction(OpConstant), Operand(0)] && |n1.constants| == 1 && !n1.panicMode && !n1.hadError
    ensures PrecedenceParsed(a, PrecAssignment) == InfixApplied(n1, PrecAssignment)
  {
    var s0 := Initial(table, tokens);
    AdvanceClean(s0);
    a := Advanced(s0);
    AdvanceClean(a);
    var b := Advanced(a);
    n1 := NumberCompiled(b);
  }

  /** The end of the statement and of `compile`, once the expression is compiled. */
  lemma StatementEnd(a: CState, h: CState)
    requires Valid(a) && Valid(h) && EqualityThenLess(a.tokens) && h.tokens == a.tokens
    requires a.current == a.tokens[0] && !a.panicMode && !a.hadError
    requires ExpressionCompiled(a) == h && h.pos == 6 && h.current == a.tokens[5] && !h.panicMode
    ensures DeclarationsCompiled(a).code == h.code + [Instruction(OpPop)]
  {
    AdvanceClean(h);
    var i := Consumed(h, TokenSemicolon, "Expected ';' after expression.");
    var j := Emitted(i, Instruction(OpPop));
    assert DeclarationCompiled(a) == j;
    assert DeclarationsCompiled(a) == DeclarationsCompiled(j) == Advanced(j);
  }

  /** An operator followed by a number: `advance` past the operator, then the number as the
      right operand's prefix. */
  lemma OperatorThenNumber(st: CState, precedence: nat) returns (c: CState, n: CState)
    requires Valid(st) && !st.panicMode && !st.hadError && precedence >= PrecAssignment
    requires st.pos + 1 < |st.tokens| && st.tokens[st.pos].tokenType == TokenNumber
    requires st.tokens[st.pos + 1].tokenType != TokenError && |st.constants| <= 255
    ensures c == Advanced(st) && Valid(c) && Valid(n) && PrecedenceParsed(c, precedence) == InfixApplied(n, precedence)
    ensures n.code == st.code + [Instruction(OpConstant), Operand(|st.constants| as byte)]
    ensures n.pos == st.pos + 2 && n.current == st.tokens[st.pos + 1] && n.tokens == st.tokens && n.table == st.table
    ensures !n.panicMode && !n.hadError && |n.constants| == |st.constants| + 1
  {
    AdvanceClean(st);
    c := Advanced(st);
    AdvanceClean(c);
    n := NumberCompiled(Advanced(c));
  }

  /** The infix loop stops at a token that binds more loosely than `precedence`. */
  lemma InfixStops(st: CState, precedence: nat)
    requires Valid(st) && precedence >= PrecAssignment
    requires GetRule(st.table, st.current.tokenType).precedence < precedence
    ensures InfixApplied(st, precedence) == st
  {
  }

  /** The infix loop goes on at a token that binds at least as tightly as `precedence`. */
  lemma InfixGoesOn(st: CState, precedence: nat)
    requires Valid(st) && precedence >= PrecAssignment
    requires GetRule(st.table, st.current.tokenType).precedence >= precedence
    ensures InfixApplied(st, precedence) == InfixApplied(BinaryCompiled(Advanced(st)), precedence)
  {
  }

  /** `binary` for an operator with one instruction, once its right operand is compiled. */
  lemma BinaryEmitsOne(c: CState, n: CState, op: Op)
    requires Valid(c) && BinaryOps(c.previous.tokenType) == [op]
    requires PrecedenceParsed(c, GetRule(c.table, c.previous.tokenType).precedence + 1) == n
    ensures BinaryCompiled(c) == Emitted(n, Instruction(op))
  {
    EmittedOpsUnfold(n, [op]);
  }

  /** One operator with a number as its right operand, where the loop then stops at a
      token binding below `inner`: the operator's instruction follows the number. */
  lemma OperatorAndNumber(st: CState, inner: nat, op: Op) returns (e: CState)
    requires Valid(st) && !st.panicMode && !st.hadError && inner >= PrecAssignment
    requires st.pos + 1 < |st.tokens| && st.tokens[st.pos].tokenType == TokenNumber
    requires st.tokens[st.pos + 1].tokenType != TokenError && |st.constants| <= 255
    requires inner == GetRule(st.table, st.current.tokenType).precedence + 1
    requires BinaryOps(st.current.tokenType) == [op]
    requires GetRule(st.table, st.tokens[st.pos + 1].tokenType).precedence < inner
    ensures Valid(e) && BinaryCompiled(Advanced(st)) == e
    ensures e.code == st.code + [Instruction(OpConstant), Operand(|st.constants| as byte), Instruction(op)]
    ensures e.pos == st.pos + 2 && e.current == st.tokens[st.pos + 1] && e.tokens == st.tokens && e.table == st.table
    ensures !e.panicMode && !e.hadError && |e.constants| == |st.constants| + 1
  {
    var c, n := OperatorThenNumber(st, inner);
    InfixStops(n, inner);
    e := Emitted(n, Instruction(op));
    BinaryEmitsOne(c, n, op);
  }

  /** As written, `<` binds as loosely as `==`, so `1 == 2 < 3` compiles as `(1 == 2) < 3`:
      `OP_EQUAL` runs before the third constant is pushed. */
  lemma ComparisonAsWrittenBindsLikeEquality(tokens: seq<Token>)
    requires EqualityThenLess(tokens)
    ensures Scanned(tokens)
    ensures Compiled(AsWritten, tokens).final.code ==
      [Instruction(OpConstant), Operand(0), Instruction(OpConstant), Operand(1), Instruction(OpEqual),
       Instruction(OpConstant), Operand(2), Instruction(OpLess), Instruction(OpPop), Instruction(OpReturn)]
  {
    var a, h := AsWrittenExpression(tokens);
    StatementEnd(a, h);
    CompiledFrom(AsWritten, tokens, a);
  }

  lemma AsWrittenExpression(tokens: seq<Token>) returns (a: CState, h: CState)
    requires EqualityThenLess(tokens)
    ensures Scanned(tokens) && Valid(a) && Valid(h) && a == Advanced(Initial(AsWritten, tokens))
    ensures a.tokens == tokens && a.current == tokens[0] && !a.panicMode && !a.hadError && ExpressionCompiled(a) == h
    ensures h.code == [Instruction(OpConstant), Operand(0), Instruction(OpConstant), Operand(1), Instruction(OpEqual),
      Instruction(OpConstant), Operand(2), Instruction(OpLess)]
    ensures h.tokens == tokens && h.pos == 6 && h.current == tokens[5] && !h.panicMode
  {
    var n1;
    a, n1 := FirstOperand(AsWritten, tokens);
    h := AsWrittenOperators(n1);
  }

  /** The infix loop of `1 == 2 < 3` as written: both operators at the outer level. */
  lemma AsWrittenOperators(n1: CState) returns (h: CState)
    requires Valid(n1) && EqualityThenLess(n1.tokens) && n1.table == AsWritten
    requires n1.pos == 2 && n1.current == n1.tokens[1] && |n1.constants| == 1 && !n1.panicMode && !n1.hadError
    ensures Valid(h) && InfixApplied(n1, PrecAssignment) == h
    ensures h.code == n1.code + [Instruction(OpConstant), Operand(1), Instruction(OpEqual), Instruction(OpConstant), Operand(2), Instruction(OpLess)]
    ensures h.pos == 6 && h.current == n1.tokens[5] && h.tokens == n1.tokens && !h.panicMode
  {
    RulesOfExample(AsWritten);
    assert n1.current.tokenType == TokenEqualEqual && n1.tokens[n1.pos + 1].tokenType == TokenLess;
    var e := OperatorAndNumber(n1, PrecEquality + 1, OpEqual);
    InfixGoesOn(n1, PrecAssignment);
    assert e.current.tokenType == TokenLess && e.tokens[e.pos + 1].tokenType == TokenSemicolon;
    h := OperatorAndNumber(e, PrecEquality + 1, OpLess);
    InfixGoesOn(e, PrecAssignment);
    assert h.current.tokenType == TokenSemicolon;
    InfixStops(h, PrecAssignment);
  }

  /** The right operand of `==` in `1 == 2 < 3` with the corrected table: `2 < 3`. */
  lemma CorrectedRightOperand(n1: CState) returns (c: CState, h: CState)
    requires Valid(n1) && EqualityThenLess(n1.tokens) && n1.table == Corrected
    requires n1.pos == 2 && n1.current == n1.tokens[1] && |n1.constants| == 1 && !n1.panicMode && !n1.hadError
    ensures Valid(c) && Valid(h) && c == Advanced(n1) && PrecedenceParsed(c, PrecEquality + 1) == h
    ensures c.previous == n1.tokens[1]
    ensures h.code == n1.code + [Instruction(OpConstant), Operand(1), Instruction(OpConstant), Operand(2), Instruction(OpLess)]
    ensures h.pos == 6 && h.current == n1.tokens[5] && h.tokens == n1.tokens && h.table == Corrected
    ensures !h.panicMode && !h.hadError
  {
    var n2;
    c, n2 := OperatorThenNumber(n1, PrecEquality + 1);
    assert n2.current.tokenType == TokenLess && n2.tokens[n2.pos + 1].tokenType == TokenSemicolon;
    RulesOfExample(Corrected);
    h := OperatorAndNumber(n2, PrecComparison + 1, OpLess);
    InfixGoesOn(n2, PrecEquality + 1);
    assert h.current.tokenType == TokenSemicolon;
    InfixStops(h, PrecEquality + 1);
  }

  /** The rules of the tokens in `1 == 2 < 3;`. */
  lemma RulesOfExample(table: Table)
    ensures GetRule(table, TokenEqualEqual).precedence == PrecEquality && BinaryOps(TokenEqualEqual) == [OpEqual]
    ensures GetRule(table, TokenLess).precedence == if table == AsWritten then PrecEquality else PrecComparison
    ensures BinaryOps(TokenLess) == [OpLess]
    ensures GetRule(table, TokenSemicolon).precedence == PrecNone
  {
  }

  /** With the comparison precedence, `1 == 2 < 3` compiles as `1 == (2 < 3)`, as the
      precedence levels declare. */
  lemma ComparisonCorrectedBindsTighter(tokens: seq<Token>)
    requires EqualityThenLess(tokens)
    ensures Scanned(tokens)
    ensures Compiled(Corrected, tokens).final.code ==
      [Instruction(OpConstant), Operand(0), Instruction(OpConstant), Operand(1), Instruction(OpConstant),
       Operand(2), Instruction(OpLess), Instruction(OpEqual), Instruction(OpPop), Instruction(OpReturn)]
  {
    var a, e := CorrectedExpression(tokens);
    StatementEnd(a, e);
    CompiledFrom(Corrected, tokens, a);
  }

  lemma CorrectedExpression(tokens: seq<Token>) returns (a: CState, e: CState)
    requires EqualityThenLess(tokens)
    ensures Scanned(tokens) && Valid(a) && Valid(e) && a == Advanced(Initial(Corrected, tokens))
    ensures a.tokens == tokens && a.current == tokens[0] && !a.panicMode && !a.hadError && ExpressionCompiled(a) == e
    ensures e.code == [Instruction(OpConstant), Operand(0), Instruction(OpConstant), Operand(1), Instruction(OpConstant),
      Operand(2), Instruction(OpLess), Instruction(OpEqual)]
    ensures e.tokens == tokens && e.pos == 6 && e.current == tokens[5] && !e.panicMode
  {
    var n1;
    a, n1 := FirstOperand(Corrected, tokens);
    e := CorrectedOperators(n1);
  }

  /** `compile` after its first `advance`: the declarations, then `OP_RETURN`. */
  lemma CompiledFrom(table: Table, tokens: seq<Token>, a: CState)
    requires Scanned(tokens) && a == Advanced(Initial(table, tokens))
    ensures Compiled(table, tokens).final.code == DeclarationsCompiled(a).code + [Instruction(OpReturn)]
  {
  }

  /** The infix loop of `1 == 2 < 3` with the corrected table: `<` inside the right operand
      of `==`. */
  lemma CorrectedOperators(n1: CState) returns (e: CState)
    requires Valid(n1) && EqualityThenLess(n1.tokens) && n1.table == Corrected
    requires n1.pos == 2 && n1.current == n1.tokens[1] && |n1.constants| == 1 && !n1.panicMode && !n1.hadError
    ensures Valid(e) && InfixApplied(n1, PrecAssignment) == e
    ensures e.code == n1.code + [Instruction(OpConstant), Operand(1), Instruction(OpConstant), Operand(2), Instruction(OpLess), Instruction(OpEqual)]
    ensures e.pos == 6 && e.current == n1.tokens[5] && e.tokens == n1.tokens && !e.panicMode
  {
    var c, h := CorrectedRightOperand(n1);
    e := EqualityClosed(c, h);
    RulesOfExample(Corrected);
    assert n1.current.tokenType == TokenEqualEqual && e.current.tokenType == TokenSemicolon;
    InfixGoesOn(n1, PrecAssignment);
    InfixStops(e, PrecAssignment);
  }

  /** `binary` for `==` once its right operand `2 < 3` is compiled. */
  lemma EqualityClosed(c: CState, h: CState) returns (e: CState)
    requires Valid(c) && Valid(h) && c.table == Corrected && c.previous.tokenType == TokenEqualEqual
    requires PrecedenceParsed(c, PrecEquality + 1) == h
    ensures BinaryCompiled(c) == e && e == Emitted(h, Instruction(OpEqual))
    ensures Valid(e) && e.code == h.code + [Instruction(OpEqual)]
    ensures e.pos == h.pos && e.current == h.current && e.tokens == h.tokens && e.table == h.table
    ensures e.panicMode == h.panicMode
  {
    e := Emitted(h, Instruction(OpEqual));
    BinaryEmitsOne(c, h, OpEqual);
  }

  /** In the corrected table each binary operator binds at the level the `Precedence`
      enumeration gives its kind: factors above terms above comparisons above equality. */
  lemma CorrectedLevels(t: TokenType)
    ensures (t == TokenStar || t == TokenSlash) <==> GetRule(Corrected, t).precedence == PrecFactor
    ensures (t == TokenPlus || t == TokenMinus) <==> GetRule(Corrected, t).precedence == PrecTerm
    ensures TokenGreater <= t <= TokenLessEqual <==> GetRule(Corrected, t).precedence == PrecComparison
    ensures (t == TokenBangEqual || t == TokenEqualEqual) <==> GetRule(Corrected, t).precedence == PrecEquality
  {
  }

  /** As written, no rule has the comparison precedence, and the comparisons share the
      equality level. */
  lemma AsWrittenLevels(t: TokenType)
    ensures GetRule(AsWritten, t).precedence != PrecComparison
    ensures TokenGreater <= t <= TokenLessEqual ==> GetRule(AsWritten, t).precedence == PrecEquality
  {
  }
}
