/** The single-pass compiler of clox/compiler.c: a Pratt parser that pulls tokens from the
    scanner and appends bytecode to the chunk being compiled, recovering from errors in panic
    mode.

    The scanner (`scanToken`, scanner.c) is not part of this model: its tokens are a sequence
    that ends with the one EOF token, and asking past the end yields that EOF again, as the
    C scanner does. The chunk is the sequence of what `writeChunk` is given (its buffer is
    modelled in `CloxChunk`) and `addConstant` appends to the constant pool and returns the
    new constant's index. `strtod` is the exact decimal reading of the golox scanner, and
    `copyString` is the string's characters (the string object and its interning in the VM
    are not modelled). The instructions `compiler.c` emits beyond the
    seven of clox/chunk.h (`OP_PRINT`, `OP_POP`, `OP_EQUAL`, ...) are declared in no header of
    the program, so instructions are symbolic. What `errorAt` prints to stderr is recorded
    as a `Report`.

    The functions say what each routine does to the compiler's state; the `Compiler` class
    holds that state in fields and its methods are proved to agree with them. The rule table
    comes in two versions: `AsWritten`, where the comparison operators share the equality
    precedence, and `Corrected`, where they have `PREC_COMPARISON`. */
module CloxCompiler {
  import opened Wrappers
  import opened CloxMemory
  import Scanner

  // ---------------------------------------------------------------------------------
  // Tokens, in the order of the rule table

  newtype TokenType = t: int | 0 <= t < 40

  const TokenLeftParen: TokenType := 0
  const TokenRightParen: TokenType := 1
  const TokenLeftBrace: TokenType := 2
  const TokenRightBrace: TokenType := 3
  const TokenComma: TokenType := 4
  const TokenDot: TokenType := 5
  const TokenMinus: TokenType := 6
  const TokenPlus: TokenType := 7
  const TokenSemicolon: TokenType := 8
  const TokenSlash: TokenType := 9
  const TokenStar: TokenType := 10
  const TokenBang: TokenType := 11
  const TokenBangEqual: TokenType := 12
  const TokenEqual: TokenType := 13
  const TokenEqualEqual: TokenType := 14
  const TokenGreater: TokenType := 15
  const TokenGreaterEqual: TokenType := 16
  const TokenLess: TokenType := 17
  const TokenLessEqual: TokenType := 18
  const TokenIdentifier: TokenType := 19
  const TokenString: TokenType := 20
  const TokenNumber: TokenType := 21
  const TokenAnd: TokenType := 22
  const TokenClass: TokenType := 23
  const TokenElse: TokenType := 24
  const TokenFalse: TokenType := 25
  const TokenFor: TokenType := 26
  const TokenFun: TokenType := 27
  const TokenIf: TokenType := 28
  const TokenNil: TokenType := 29
  const TokenOr: TokenType := 30
  const TokenPrint: TokenType := 31
  const TokenReturn: TokenType := 32
  const TokenSuper: TokenType := 33
  const TokenThis: TokenType := 34
  const TokenTrue: TokenType := 35
  const TokenVar: TokenType := 36
  const TokenWhile: TokenType := 37
  const TokenError: TokenType := 38
  const TokenEof: TokenType := 39

  /** A token: its type, its characters (for an error token, the error message) and line. */
  datatype Token = Token(tokenType: TokenType, lexeme: string, line: int)

  /** `Parser.current` before the first `advance`; C leaves it uninitialised, and it only
      ever reaches `previous`, which the second `advance` overwrites unread. */
  const Unset := Token(TokenError, "", 0)

  /** A string token carries its two quotes. */
  predicate Lexable(t: Token)
  {
    t.tokenType == TokenString ==> |t.lexeme| >= 2
  }

  /** What the scanner yields: one EOF, last. */
  predicate Scanned(tokens: seq<Token>)
  {
    |tokens| >= 1 && tokens[|tokens| - 1].tokenType == TokenEof
    && (forall i :: 0 <= i < |tokens| - 1 ==> tokens[i].tokenType != TokenEof)
    && forall i :: 0 <= i < |tokens| ==> Lexable(tokens[i])
  }

  /** `scanToken`: the next token; at the end, EOF again. */
  function NextToken(tokens: seq<Token>, pos: nat): Token
    requires |tokens| >= 1 && pos <= |tokens|
  {
    if pos < |tokens| then tokens[pos] else tokens[|tokens| - 1]
  }

  // ---------------------------------------------------------------------------------
  // Precedence and the rule table

  const PrecNone: nat := 0
  const PrecAssignment: nat := 1
  const PrecOr: nat := 2
  const PrecAnd: nat := 3
  const PrecEquality: nat := 4
  const PrecComparison: nat := 5
  const PrecTerm: nat := 6
  const PrecFactor: nat := 7
  const PrecUnary: nat := 8
  const PrecCall: nat := 9
  const PrecPrimary: nat := 10

  /** The parse functions a rule can name; `NoFn` is NULL. */
  datatype ParseFn = NoFn | GroupingFn | UnaryFn | BinaryFn | NumberFn | StringFn | LiteralFn

  datatype ParseRule = ParseRule(prefix: ParseFn, infix: ParseFn, precedence: nat)

  /** The table as the source writes it, or with the comparison precedence it declares. */
  datatype Table = AsWritten | Corrected

  /** `rules`: one rule per token type, indexed by the type. */
  function Rules(table: Table): (r: seq<ParseRule>)
    ensures |r| == 40
  {
    var comparison := if table == AsWritten then PrecEquality else PrecComparison;
    [ ParseRule(GroupingFn, NoFn, PrecNone),    // (
      ParseRule(NoFn, NoFn, PrecNone),          // )
      ParseRule(NoFn, NoFn, PrecNone),          // {
      ParseRule(NoFn, NoFn, PrecNone),          // }
      ParseRule(NoFn, NoFn, PrecNone),          // ,
      ParseRule(NoFn, NoFn, PrecNone),          // .
      ParseRule(UnaryFn, BinaryFn, PrecTerm),   // -
      ParseRule(NoFn, BinaryFn, PrecTerm),      // +
      ParseRule(NoFn, NoFn, PrecNone),          // ;
      ParseRule(NoFn, BinaryFn, PrecFactor),    // /
      ParseRule(NoFn, BinaryFn, PrecFactor),    // *
      ParseRule(UnaryFn, NoFn, PrecNone),       // !
      ParseRule(NoFn, BinaryFn, PrecEquality),  // !=
      ParseRule(NoFn, NoFn, PrecNone),          // =
      ParseRule(NoFn, BinaryFn, PrecEquality),  // ==
      ParseRule(NoFn, BinaryFn, comparison),    // >
      ParseRule(NoFn, BinaryFn, comparison),    // >=
      ParseRule(NoFn, BinaryFn, comparison),    // <
      ParseRule(NoFn, BinaryFn, comparison),    // <=
      ParseRule(NoFn, NoFn, PrecNone),          // identifier
      ParseRule(StringFn, NoFn, PrecNone),      // string
      ParseRule(NumberFn, NoFn, PrecNone),      // number
      ParseRule(NoFn, NoFn, PrecNone),          // and
      ParseRule(NoFn, NoFn, PrecNone),          // class
      ParseRule(NoFn, NoFn, PrecNone),          // else
      ParseRule(LiteralFn, NoFn, PrecNone),     // false
      ParseRule(NoFn, NoFn, PrecNone),          // for
      ParseRule(NoFn, NoFn, PrecNone),          // fun
      ParseRule(NoFn, NoFn, PrecNone),          // if
      ParseRule(LiteralFn, NoFn, PrecNone),     // nil
      ParseRule(NoFn, NoFn, PrecNone),          // or
      ParseRule(NoFn, NoFn, PrecNone),          // print
      ParseRule(NoFn, NoFn, PrecNone),          // return
      ParseRule(NoFn, NoFn, PrecNone),          // super
      ParseRule(NoFn, NoFn, PrecNone),          // this
      ParseRule(LiteralFn, NoFn, PrecNone),     // true
      ParseRule(NoFn, NoFn, PrecNone),          // var
      ParseRule(NoFn, NoFn, PrecNone),          // while
      ParseRule(NoFn, NoFn, PrecNone),          // error
      ParseRule(NoFn, NoFn, PrecNone) ]         // EOF
  }

  /** `getRule`, grouped by rule: every token type the table does not list here has no
      prefix rule, no infix rule and `PREC_NONE`. */
  function GetRule(table: Table, t: TokenType): ParseRule
  {
    if t == TokenLeftParen then ParseRule(GroupingFn, NoFn, PrecNone)
    else if t == TokenMinus then ParseRule(UnaryFn, BinaryFn, PrecTerm)
    else if t == TokenPlus then ParseRule(NoFn, BinaryFn, PrecTerm)
    else if t == TokenSlash || t == TokenStar then ParseRule(NoFn, BinaryFn, PrecFactor)
    else if t == TokenBang then ParseRule(UnaryFn, NoFn, PrecNone)
    else if t == TokenBangEqual || t == TokenEqualEqual then ParseRule(NoFn, BinaryFn, PrecEquality)
    else if TokenGreater <= t <= TokenLessEqual then
      ParseRule(NoFn, BinaryFn, if table == AsWritten then PrecEquality else PrecComparison)
    else if t == TokenString then ParseRule(StringFn, NoFn, PrecNone)
    else if t == TokenNumber then ParseRule(NumberFn, NoFn, PrecNone)
    else if t == TokenFalse || t == TokenNil || t == TokenTrue then ParseRule(LiteralFn, NoFn, PrecNone)
    else ParseRule(NoFn, NoFn, PrecNone)
  }

  /** `GetRule` is the table, entry by entry. */
  lemma GetRuleIsTable(table: Table, t: TokenType)
    ensures GetRule(table, t) == Rules(table)[t]
  {
    GetRuleIsTableFrom(table, t, t as int / 10 * 10);
  }

  /** ... ten token types at a time. */
  lemma GetRuleIsTableFrom(table: Table, t: TokenType, from: int)
    requires from in {0, 10, 20, 30} && from <= t as int < from + 10
    ensures GetRule(table, t) == Rules(table)[t]
  {
    var rules := Rules(table);
    assert rules[t] == rules[from..from + 10][t as int - from];
  }

  /** Every token that binds as an operator has `binary` as its infix rule, which is why
      `parsePrecedence` can call the infix rule it finds; EOF binds at no precedence, which
      is why the infix loop stops at the end of the input. */
  lemma OperatorsAreBinary(table: Table, t: TokenType)
    requires GetRule(table, t).precedence > PrecNone
    ensures GetRule(table, t).infix == BinaryFn && t != TokenEof
  {
  }

  // ---------------------------------------------------------------------------------
  // Instructions, values, reports and the compiler's state

  /** The seven instructions of clox/chunk.h, then those `compiler.c` emits besides. */
  datatype Op =
    | OpConstant | OpAdd | OpSubtract | OpMultiply | OpDivide | OpNegate | OpReturn
    | OpPrint | OpPop | OpEqual | OpNot | OpGreater | OpLess | OpFalse | OpTrue | OpNil

  /** A byte written to the chunk: an instruction, or the constant index after
      `OP_CONSTANT`. */
  datatype Code = Instruction(op: Op) | Operand(index: byte)

  datatype Value = NumberValue(number: real) | StringValue(chars: string)

  /** Where `errorAt` says the error is: " at end", nothing (for an error token), or
      " at '<lexeme>'". */
  datatype Where = AtEnd | AtNothing | AtLexeme(lexeme: string)

  /** One line `errorAt` prints: `[line N] Error<where>: <message>`. */
  datatype Report = Report(line: int, where: Where, message: string)

  /** The parser's fields, the scanner's position and the chunk being written (code with its
      line numbers, constants), with the reports printed so far and the rule table in use. */
  datatype CState = CState(
    table: Table, tokens: seq<Token>, pos: nat,
    current: Token, previous: Token, hadError: bool, panicMode: bool,
    code: seq<Code>, lines: seq<int>, constants: seq<Value>, reports: seq<Report>)

  /** The state every routine keeps: the scanner has not run past the EOF it last handed
      out, one line number per code byte, and an error recorded exactly when one was
      reported. */
  predicate Valid(st: CState)
  {
    Scanned(st.tokens) && st.pos <= |st.tokens|
    && (st.current.tokenType == TokenEof <==> st.pos == |st.tokens|)
    && Lexable(st.current) && Lexable(st.previous)
    && |st.lines| == |st.code|
    && (st.hadError <==> st.reports != []) && (st.panicMode ==> st.hadError)
  }

  /** Tokens not yet consumed, counting `current` unless it is EOF: the measure every
      routine that may recurse decreases. */
  function Remaining(st: CState): nat
    requires st.pos <= |st.tokens|
  {
    |st.tokens| - st.pos + (if st.current.tokenType == TokenEof then 0 else 1)
  }

  /** `r` extends `st`: same tokens and table, still valid, nothing consumed given back, and
      an error once recorded stays recorded. */
  predicate Extends(st: CState, r: CState)
    requires Valid(st)
  {
    Valid(r) && r.table == st.table && r.tokens == st.tokens && Remaining(r) <= Remaining(st)
    && (st.hadError ==> r.hadError)
  }

  /** `r` extends `st` without leaving panic mode, so no report was added in panic mode. */
  predicate Follows(st: CState, r: CState)
    requires Valid(st)
  {
    Extends(st, r) && (st.panicMode ==> r.panicMode && r.reports == st.reports)
  }

  // ---------------------------------------------------------------------------------
  // Errors and the token cursor

  function WhereOf(t: Token): Where
  {
    if t.tokenType == TokenEof then AtEnd else if t.tokenType == TokenError then AtNothing else AtLexeme(t.lexeme)
  }

  /** `errorAt`: nothing in panic mode; otherwise panic mode and the error flag are set and
      the error is reported. */
  function ErrorReported(st: CState, token: Token, message: string): (r: CState)
    requires Valid(st)
    ensures Valid(r) && Follows(st, r) && r.panicMode && r.code == st.code
    ensures st.panicMode ==> r == st
    ensures !st.panicMode ==> r.hadError && r.reports == st.reports + [Report(token.line, WhereOf(token), message)]
  {
    if st.panicMode then st
    else st.(panicMode := true, hadError := true, reports := st.reports + [Report(token.line, WhereOf(token), message)])
  }

  /** The state inside `advance`: valid except that `current` may be an error token already
      handed out. */
  predicate Scanning(st: CState)
  {
    Scanned(st.tokens) && st.pos <= |st.tokens| && Lexable(st.previous) && |st.lines| == |st.code|
    && (st.hadError <==> st.reports != []) && (st.panicMode ==> st.hadError)
  }

  /** One token of the loop of `advance`: the scanned token becomes `current`, in a valid
      state. */
  lemma ScanStep(st: CState)
    requires Scanning(st)
    ensures Valid(TokenScanned(st))
    ensures TokenScanned(st).current.tokenType != TokenError ==> ScannedPastErrors(st) == TokenScanned(st)
    ensures TokenScanned(st).current.tokenType == TokenError ==>
      ScannedPastErrors(st) == ScannedPastErrors(ErrorReported(TokenScanned(st), TokenScanned(st).current, TokenScanned(st).current.lexeme))
  {
  }

  /** `parser.current = scanToken()`. */
  function TokenScanned(st: CState): CState
    requires Scanned(st.tokens) && st.pos <= |st.tokens|
  {
    st.(current := NextToken(st.tokens, st.pos), pos := if st.pos < |st.tokens| then st.pos + 1 else st.pos)
  }

  /** The loop of `advance`: tokens are scanned until one is not an error token, each error
      token being reported at itself with its own message. */
  function ScannedPastErrors(st: CState): (r: CState)
    requires Scanning(st)
    ensures Valid(r) && r.current.tokenType != TokenError && r.previous == st.previous
    ensures r.table == st.table && r.tokens == st.tokens && r.code == st.code && r.lines == st.lines
    ensures r.constants == st.constants && st.reports <= r.reports
    ensures (st.hadError ==> r.hadError) && (st.panicMode ==> r.panicMode && r.reports == st.reports)
    ensures (st.pos < r.pos && r.current == st.tokens[r.pos - 1]) || (st.pos == r.pos == |st.tokens| && r.current.tokenType == TokenEof)
    ensures forall i :: st.pos <= i < r.pos - 1 ==> st.tokens[i].tokenType == TokenError
    decreases |st.tokens| - st.pos
  {
    var st1 := TokenScanned(st);
    var t := st1.current;
    if t.tokenType != TokenError then st1
    else ScannedPastErrors(ErrorReported(st1, t, t.lexeme))
  }

  /** `advance`: `current` moves to `previous`, and the next token that is not an error
      becomes `current`. Unless at EOF, at least one token is consumed. */
  function Advanced(st: CState): (r: CState)
    requires Valid(st)
    ensures Follows(st, r) && r.previous == st.current && r.current.tokenType != TokenError
    ensures r.code == st.code && r.constants == st.constants
    ensures st.current.tokenType != TokenEof ==> Remaining(r) < Remaining(st)
  {
    ScannedPastErrors(st.(previous := st.current))
  }

  /** `consume`: the expected token is passed over; any other is reported, not consumed. */
  function Consumed(st: CState, expected: TokenType, message: string): (r: CState)
    requires Valid(st)
    ensures Follows(st, r) && r.code == st.code
    ensures st.current.tokenType != expected ==> r.hadError
  {
    if st.current.tokenType == expected then Advanced(st) else ErrorReported(st, st.current, message)
  }

  // ---------------------------------------------------------------------------------
  // Emitting

  /** `emitByte`: the byte is written with the line of the previous token. */
  function Emitted(st: CState, c: Code): (r: CState)
    requires Valid(st)
    ensures Follows(st, r) && r.code == st.code + [c]
  {
    st.(code := st.code + [c], lines := st.lines + [st.previous.line])
  }

  /** The instructions emitted in order. */
  function EmittedOps(st: CState, ops: seq<Op>): (r: CState)
    requires Valid(st)
    ensures Follows(st, r) && r.code == st.code + Instructions(ops)
    decreases |ops|
  {
    if ops == [] then st else EmittedOps(Emitted(st, Instruction(ops[0])), ops[1..])
  }

  function Instructions(ops: seq<Op>): seq<Code>
  {
    if ops == [] then [] else [Instruction(ops[0])] + Instructions(ops[1..])
  }

  /** `makeConstant`: the value is added to the pool; an index that does not fit in a byte
      is reported and replaced by 0. */
  function ConstantMade(st: CState, v: Value): (r: (byte, CState))
    requires Valid(st)
    ensures Follows(st, r.1) && r.1.code == st.code && r.1.constants == st.constants + [v]
    ensures |st.constants| <= 255 ==> r.0 as int == |st.constants| && r.1.hadError == st.hadError
    ensures |st.constants| > 255 ==> r.0 == 0 && r.1.hadError
  {
    var index := |st.constants|;
    var st1 := st.(constants := st.constants + [v]);
    if index > 255 then (0, ErrorReported(st1, st1.previous, "Too many constants in one chunk."))
    else (index as byte, st1)
  }

  /** `emitConstant`: `OP_CONSTANT` and the constant's index. */
  function ConstantEmitted(st: CState, v: Value): (r: CState)
    requires Valid(st)
    ensures Follows(st, r) && r.code == st.code + [Instruction(OpConstant), Operand(ConstantMade(st, v).0)]
  {
    var (b, st1) := ConstantMade(st, v);
    Emitted(Emitted(st1, Instruction(OpConstant)), Operand(b))
  }

  // ---------------------------------------------------------------------------------
  // Expressions

  /** The instructions `binary` emits after its right operand: `!=`, `>=` and `<=` are the
      negations of `==`, `<` and `>`. */
  function BinaryOps(operatorType: TokenType): seq<Op>
  {
    if operatorType == TokenBangEqual then [OpEqual, OpNot]
    else if operatorType == TokenEqualEqual then [OpEqual]
    else if operatorType == TokenGreater then [OpGreater]
    else if operatorType == TokenGreaterEqual then [OpLess, OpNot]
    else if operatorType == TokenLess then [OpLess]
    else if operatorType == TokenLessEqual then [OpGreater, OpNot]
    else if operatorType == TokenPlus then [OpAdd]
    else if operatorType == TokenMinus then [OpSubtract]
    else if operatorType == TokenStar then [OpMultiply]
    else if operatorType == TokenSlash then [OpDivide]
    else []
  }

  /** `expression`: an expression at assignment precedence. */
  function ExpressionCompiled(st: CState): (r: CState)
    requires Valid(st)
    ensures Follows(st, r)
    ensures st.current.tokenType != TokenEof ==> Remaining(r) < Remaining(st)
    decreases Remaining(st), 1
  {
    PrecedenceParsed(st, PrecAssignment)
  }

  /** `parsePrecedence`: a token with no prefix rule is "Expected expression."; otherwise the
      prefix rule runs, then infix rules while the next operator binds at least as tightly
      as `precedence`. */
  function PrecedenceParsed(st: CState, precedence: nat): (r: CState)
    requires Valid(st) && precedence >= PrecAssignment
    ensures Follows(st, r)
    ensures st.current.tokenType != TokenEof ==> Remaining(r) < Remaining(st)
    decreases Remaining(st), 0
  {
    var st1 := Advanced(st);
    var prefix := GetRule(st.table, st1.previous.tokenType).prefix;
    if prefix == NoFn then ErrorReported(st1, st1.previous, "Expected expression.")
    else
      var st2 := PrefixApplied(st1, prefix);
      InfixApplied(st2, precedence)
  }

  /** The loop of `parsePrecedence`. Every token whose precedence is above `PREC_NONE` has
      `binary` as its infix rule. */
  function InfixApplied(st: CState, precedence: nat): (r: CState)
    requires Valid(st) && precedence >= PrecAssignment
    ensures Follows(st, r)
    decreases Remaining(st), 5
  {
    if precedence <= GetRule(st.table, st.current.tokenType).precedence then
      var st1 := Advanced(st);
      var st2 := BinaryCompiled(st1);
      InfixApplied(st2, precedence)
    else st
  }

  /** A prefix rule's function. */
  function PrefixApplied(st: CState, prefix: ParseFn): (r: CState)
    requires Valid(st) && prefix != NoFn && prefix == GetRule(st.table, st.previous.tokenType).prefix
    ensures Follows(st, r)
    decreases Remaining(st), 3
  {
    match prefix
    case GroupingFn => GroupingCompiled(st)
    case UnaryFn => UnaryCompiled(st)
    case BinaryFn => assert false; st  // no token's prefix rule is `binary`
    case NumberFn => NumberCompiled(st)
    case StringFn => StringCompiled(st)
    case LiteralFn => LiteralCompiled(st)
  }

  /** `binary`: the right operand at one level above the operator's precedence (so equal
      operators group to the left), then the operator's instructions. */
  function BinaryCompiled(st: CState): (r: CState)
    requires Valid(st)
    ensures Follows(st, r)
    decreases Remaining(st), 1
  {
    var operatorType := st.previous.tokenType;
    var rule := GetRule(st.table, operatorType);
    var st1 := PrecedenceParsed(st, rule.precedence + 1);
    EmittedOps(st1, BinaryOps(operatorType))
  }

  /** `grouping`: an expression and its closing parenthesis. */
  function GroupingCompiled(st: CState): (r: CState)
    requires Valid(st)
    ensures Follows(st, r)
    decreases Remaining(st), 2
  {
    Consumed(ExpressionCompiled(st), TokenRightParen, "Expect ')' after expression.")
  }

  /** `unary`: the operand at unary precedence, then `OP_NOT` or `OP_NEGATE`. */
  function UnaryCompiled(st: CState): (r: CState)
    requires Valid(st)
    ensures Follows(st, r)
    decreases Remaining(st), 1
  {
    var operatorType := st.previous.tokenType;
    var st1 := PrecedenceParsed(st, PrecUnary);
    if operatorType == TokenBang then Emitted(st1, Instruction(OpNot))
    else if operatorType == TokenMinus then Emitted(st1, Instruction(OpNegate))
    else st1
  }

  /** `number`: the literal's value as a constant. */
  function NumberCompiled(st: CState): (r: CState)
    requires Valid(st)
    ensures Follows(st, r)
  {
    ConstantEmitted(st, NumberValue(Scanner.ParseDecimal(st.previous.lexeme)))
  }

  /** `string`: the characters between the quotes as a constant. */
  function StringCompiled(st: CState): (r: CState)
    requires Valid(st) && st.previous.tokenType == TokenString
    ensures Follows(st, r)
  {
    var lexeme := st.previous.lexeme;
    ConstantEmitted(st, StringValue(lexeme[1..|lexeme| - 1]))
  }

  /** `literal`: `false`, `true` and `nil` have instructions of their own. */
  function LiteralCompiled(st: CState): (r: CState)
    requires Valid(st)
    ensures Follows(st, r)
  {
    var t := st.previous.tokenType;
    if t == TokenFalse then Emitted(st, Instruction(OpFalse))
    else if t == TokenTrue then Emitted(st, Instruction(OpTrue))
    else if t == TokenNil then Emitted(st, Instruction(OpNil))
    else st
  }

  // ---------------------------------------------------------------------------------
  // Statements and declarations

  /** `printStatement` (after `print`): the expression, its `;`, then `OP_PRINT`. */
  function PrintCompiled(st: CState): (r: CState)
    requires Valid(st)
    ensures Follows(st, r)
  {
    var st1 := Consumed(ExpressionCompiled(st), TokenSemicolon, "Expected ';' after expression.");
    Emitted(st1, Instruction(OpPrint))
  }

  /** `expressionStatement`: the expression, its `;`, then `OP_POP` to discard the value. */
  function ExpressionStatementCompiled(st: CState): (r: CState)
    requires Valid(st)
    ensures Follows(st, r)
    ensures st.current.tokenType != TokenEof ==> Remaining(r) < Remaining(st)
  {
    var st1 := Consumed(ExpressionCompiled(st), TokenSemicolon, "Expected ';' after expression.");
    Emitted(st1, Instruction(OpPop))
  }

  /** `statement`: a print statement or an expression statement. */
  function StatementCompiled(st: CState): (r: CState)
    requires Valid(st)
    ensures Follows(st, r)
    ensures st.current.tokenType != TokenEof ==> Remaining(r) < Remaining(st)
  {
    if st.current.tokenType == TokenPrint then PrintCompiled(Advanced(st))
    else ExpressionStatementCompiled(st)
  }

  /** The tokens `synchronize` stops before: those that begin a statement. */
  predicate StatementStart(t: TokenType)
  {
    t == TokenClass || t == TokenFun || t == TokenPrint || t == TokenVar
    || t == TokenWhile || t == TokenFor || t == TokenIf || t == TokenReturn
  }

  /** The loop of `synchronize`: tokens are skipped until EOF, until just after a `;`, or
      until a token that begins a statement. */
  function SkippedToBoundary(st: CState): (r: CState)
    requires Valid(st)
    ensures Follows(st, r) && r.code == st.code && r.constants == st.constants
    ensures r.current.tokenType == TokenEof || r.previous.tokenType == TokenSemicolon || StatementStart(r.current.tokenType)
    decreases Remaining(st)
  {
    if st.current.tokenType == TokenEof then st
    else if st.previous.tokenType == TokenSemicolon then st
    else if StatementStart(st.current.tokenType) then st
    else SkippedToBoundary(Advanced(st))
  }

  /** `synchronize`: panic mode ends, and tokens are skipped to a statement boundary. */
  function Synchronized(st: CState): (r: CState)
    requires Valid(st)
    ensures Extends(st, r) && r.code == st.code && r.constants == st.constants
    ensures r.current.tokenType == TokenEof || r.previous.tokenType == TokenSemicolon || StatementStart(r.current.tokenType)
  {
    SkippedToBoundary(st.(panicMode := false))
  }

  /** `declaration`: a statement, then recovery if it left the parser in panic mode. */
  function DeclarationCompiled(st: CState): (r: CState)
    requires Valid(st)
    ensures Extends(st, r)
    ensures st.current.tokenType != TokenEof ==> Remaining(r) < Remaining(st)
  {
    var st1 := StatementCompiled(st);
    if st1.panicMode then Synchronized(st1) else st1
  }

  /** The loop of `compile`: declarations until `match(TOKEN_EOF)` succeeds, which advances. */
  function DeclarationsCompiled(st: CState): (r: CState)
    requires Valid(st)
    ensures Extends(st, r) && r.current.tokenType == TokenEof
    decreases Remaining(st)
  {
    if st.current.tokenType == TokenEof then Advanced(st)
    else DeclarationsCompiled(DeclarationCompiled(st))
  }

  /** The state `compile` starts from: the scanner at the start of the source, no error,
      nothing written. */
  function Initial(table: Table, tokens: seq<Token>): (r: CState)
    requires Scanned(tokens)
    ensures Valid(r)
  {
    CState(table, tokens, 0, Unset, Unset, false, false, [], [], [], [])
  }

  /** The outcome of `compile`: whether it returns true, and the state it leaves. */
  datatype Compilation = Compilation(ok: bool, final: CState)

  /** `compile`: the first token, declarations until EOF, then `endCompiler`'s `OP_RETURN`;
      the result is true exactly when no error was reported. */
  function Compiled(table: Table, tokens: seq<Token>): (r: Compilation)
    requires Scanned(tokens)
    ensures Valid(r.final) && r.final.tokens == tokens && r.final.table == table
    ensures r.ok <==> r.final.reports == []
    ensures |r.final.code| >= 1 && r.final.code[|r.final.code| - 1] == Instruction(OpReturn)
  {
    var st := DeclarationsCompiled(Advanced(Initial(table, tokens)));
    var st1 := Emitted(st, Instruction(OpReturn));
    Compilation(!st1.hadError, st1)
  }

  // ---------------------------------------------------------------------------------
  // The compiler's globals and routines

  /** The `Parser` and `Scanner` that `compile` passes to every routine by pointer, and the
      global `compilingChunk`, as fields. */
  class Compiler {
    const table: Table
    const tokens: seq<Token>
    var pos: nat
    var current: Token
    var previous: Token
    var hadError: bool
    var panicMode: bool
    var code: seq<Code>
    var lines: seq<int>
    var constants: seq<Value>
    var reports: seq<Report>

    function State(): CState
      reads this
    {
      CState(table, tokens, pos, current, previous, hadError, panicMode, code, lines, constants, reports)
    }

    /** The set-up of `compile`: the scanner at the start, both flags false, an empty chunk. */
    constructor (table: Table, tokens: seq<Token>)
      requires Scanned(tokens)
      ensures State() == Initial(table, tokens)
    {
      this.table := table;
      this.tokens := tokens;
      pos := 0;
      current := Unset;
      previous := Unset;
      hadError := false;
      panicMode := false;
      code := [];
      lines := [];
      constants := [];
      reports := [];
    }

    /** `scanToken`. */
    method ScanToken() returns (t: Token)
      requires Scanned(tokens) && pos <= |tokens|
      modifies this`pos
      ensures t == NextToken(tokens, old(pos))
      ensures pos == if old(pos) < |tokens| then old(pos) + 1 else old(pos)
    {
      t := NextToken(tokens, pos);
      if pos < |tokens| {
        pos := pos + 1;
      }
    }

    method ErrorAt(token: Token, message: string)
      requires Valid(State())
      modifies this
      ensures State() == ErrorReported(old(State()), token, message)
    {
      if panicMode {
        return;
      }
      panicMode := true;
      reports := reports + [Report(token.line, WhereOf(token), message)];
      hadError := true;
    }

    method Error(message: string)
      requires Valid(State())
      modifies this
      ensures State() == ErrorReported(old(State()), old(previous), message)
    {
      ErrorAt(previous, message);
    }

    method ErrorAtCurrent(message: string)
      requires Valid(State())
      modifies this
      ensures State() == ErrorReported(old(State()), old(current), message)
    {
      ErrorAt(current, message);
    }

    method Advance()
      requires Valid(State())
      modifies this
      ensures State() == Advanced(old(State()))
    {
      ghost var target := Advanced(State());
      previous := current;
      while true
        invariant Scanning(State()) && ScannedPastErrors(State()) == target
        decreases |tokens| - pos
      {
        ScanStep(State());
        ScanCurrent();
        if current.tokenType != TokenError {
          return;
        }
        ErrorAtCurrent(current.lexeme);
      }
    }

    /** `parser.current = scanToken()`. */
    method ScanCurrent()
      requires Scanning(State())
      modifies this`pos, this`current
      ensures State() == TokenScanned(old(State()))
    {
      current := ScanToken();
    }

    method Consume(tokenType: TokenType, message: string)
      requires Valid(State())
      modifies this
      ensures State() == Consumed(old(State()), tokenType, message)
    {
      if current.tokenType == tokenType {
        Advance();
        return;
      }
      ErrorAtCurrent(message);
    }

    /** `match`: the current token is passed over exactly when it has the given type. */
    method Match(tokenType: TokenType) returns (matched: bool)
      requires Valid(State())
      modifies this
      ensures matched <==> old(current).tokenType == tokenType
      ensures State() == if matched then Advanced(old(State())) else old(State())
    {
      if current.tokenType != tokenType {
        return false;
      }
      Advance();
      return true;
    }

    method EmitByte(c: Code)
      requires Valid(State())
      modifies this
      ensures State() == Emitted(old(State()), c)
    {
      code := code + [c];
      lines := lines + [previous.line];
    }

    method EmitBytes(c1: Code, c2: Code)
      requires Valid(State())
      modifies this
      ensures State() == Emitted(Emitted(old(State()), c1), c2)
    {
      EmitByte(c1);
      EmitByte(c2);
    }

    method MakeConstant(v: Value) returns (index: byte)
      requires Valid(State())
      modifies this
      ensures (index, State()) == ConstantMade(old(State()), v)
    {
      var constant := |constants|;
      constants := constants + [v];
      if constant > 255 {
        Error("Too many constants in one chunk.");
        return 0;
      }
      return constant as byte;
    }

    method EmitConstant(v: Value)
      requires Valid(State())
      modifies this
      ensures State() == ConstantEmitted(old(State()), v)
    {
      var index := MakeConstant(v);
      EmitBytes(Instruction(OpConstant), Operand(index));
    }

    method Expression()
      requires Valid(State())
      modifies this
      ensures State() == ExpressionCompiled(old(State()))
      decreases Remaining(State()), 1
    {
      ParsePrecedence(PrecAssignment);
    }

    method ParsePrecedence(precedence: nat)
      requires Valid(State()) && precedence >= PrecAssignment
      modifies this
      ensures State() == PrecedenceParsed(old(State()), precedence)
      decreases Remaining(State()), 0
    {
      Advance();
      var prefixRule := GetRule(table, previous.tokenType).prefix;
      if prefixRule == NoFn {
        Error("Expected expression.");
        return;
      }
      ghost var advanced := State();
      CallPrefix(prefixRule);
      assert PrecedenceParsed(old(State()), precedence) == InfixApplied(PrefixApplied(advanced, prefixRule), precedence);
      while precedence <= GetRule(table, current.tokenType).precedence
        invariant Valid(State()) && Remaining(State()) < Remaining(old(State()))
        invariant InfixApplied(State(), precedence) == PrecedenceParsed(old(State()), precedence)
        decreases Remaining(State())
      {
        OperatorsAreBinary(table, current.tokenType);
        ghost var before := State();
        Advance();
        assert Remaining(State()) < Remaining(before);
        Binary();
      }
    }

    /** Calling a prefix rule's function. */
    method CallPrefix(prefix: ParseFn)
      requires Valid(State()) && prefix != NoFn && prefix == GetRule(table, previous.tokenType).prefix
      modifies this
      ensures State() == PrefixApplied(old(State()), prefix)
      decreases Remaining(State()), 3
    {
      match prefix
      case GroupingFn => Grouping();
      case UnaryFn => Unary();
      case BinaryFn => assert false;  // no token's prefix rule is `binary`
      case NumberFn => Number();
      case StringFn => String();
      case LiteralFn => Literal();
    }

    method Binary()
      requires Valid(State())
      modifies this
      ensures State() == BinaryCompiled(old(State()))
      decreases Remaining(State()), 1
    {
      var operatorType := previous.tokenType;
      var rule := GetRule(table, operatorType);
      ParsePrecedence(rule.precedence + 1);
      EmitOperator(operatorType);
    }

    /** The switch of `binary` that emits the operator's instructions. */
    method EmitOperator(operatorType: TokenType)
      requires Valid(State())
      modifies this
      ensures State() == EmittedOps(old(State()), BinaryOps(operatorType))
    {
      EmittedOpsUnfold(State(), BinaryOps(operatorType));
      if operatorType == TokenBangEqual {
        EmitBytes(Instruction(OpEqual), Instruction(OpNot));
      } else if operatorType == TokenEqualEqual {
        EmitByte(Instruction(OpEqual));
      } else if operatorType == TokenGreater {
        EmitByte(Instruction(OpGreater));
      } else if operatorType == TokenGreaterEqual {
        EmitBytes(Instruction(OpLess), Instruction(OpNot));
      } else if operatorType == TokenLess {
        EmitByte(Instruction(OpLess));
      } else if operatorType == TokenLessEqual {
        EmitBytes(Instruction(OpGreater), Instruction(OpNot));
      } else if operatorType == TokenPlus {
        EmitByte(Instruction(OpAdd));
      } else if operatorType == TokenMinus {
        EmitByte(Instruction(OpSubtract));
      } else if operatorType == TokenStar {
        EmitByte(Instruction(OpMultiply));
      } else if operatorType == TokenSlash {
        EmitByte(Instruction(OpDivide));
      }
    }

    method Grouping()
      requires Valid(State())
      modifies this
      ensures State() == GroupingCompiled(old(State()))
      decreases Remaining(State()), 2
    {
      Expression();
      Consume(TokenRightParen, "Expect ')' after expression.");
    }

    method Unary()
      requires Valid(State())
      modifies this
      ensures State() == UnaryCompiled(old(State()))
      decreases Remaining(State()), 1
    {
      var operatorType := previous.tokenType;
      ParsePrecedence(PrecUnary);
      if operatorType == TokenBang {
        EmitByte(Instruction(OpNot));
      } else if operatorType == TokenMinus {
        EmitByte(Instruction(OpNegate));
      }
    }

    method Number()
      requires Valid(State())
      modifies this
      ensures State() == NumberCompiled(old(State()))
    {
      var value := Scanner.ParseDecimal(previous.lexeme);
      EmitConstant(NumberValue(value));
    }

    method String()
      requires Valid(State()) && previous.tokenType == TokenString
      modifies this
      ensures State() == StringCompiled(old(State()))
    {
      EmitConstant(StringValue(previous.lexeme[1..|previous.lexeme| - 1]));
    }

    method Literal()
      requires Valid(State())
      modifies this
      ensures State() == LiteralCompiled(old(State()))
    {
      if previous.tokenType == TokenFalse {
        EmitByte(Instruction(OpFalse));
      } else if previous.tokenType == TokenTrue {
        EmitByte(Instruction(OpTrue));
      } else if previous.tokenType == TokenNil {
        EmitByte(Instruction(OpNil));
      }
    }

    method PrintStatement()
      requires Valid(State())
      modifies this
      ensures State() == PrintCompiled(old(State()))
    {
      Expression();
      Consume(TokenSemicolon, "Expected ';' after expression.");
      EmitByte(Instruction(OpPrint));
    }

    method ExpressionStatement()
      requires Valid(State())
      modifies this
      ensures State() == ExpressionStatementCompiled(old(State()))
    {
      Expression();
      Consume(TokenSemicolon, "Expected ';' after expression.");
      EmitByte(Instruction(OpPop));
    }

    method Statement()
      requires Valid(State())
      modifies this
      ensures State() == StatementCompiled(old(State()))
    {
      var isPrint := Match(TokenPrint);
      if isPrint {
        PrintStatement();
      } else {
        ExpressionStatement();
      }
    }

    method Synchronize()
      requires Valid(State())
      modifies this
      ensures State() == Synchronized(old(State()))
    {
      panicMode := false;
      while current.tokenType != TokenEof
        invariant Valid(State())
        invariant SkippedToBoundary(State()) == Synchronized(old(State()))
        decreases Remaining(State())
      {
        if previous.tokenType == TokenSemicolon {
          return;
        }
        if StatementStart(current.tokenType) {
          return;
        }
        Advance();
      }
    }

    method Declaration()
      requires Valid(State())
      modifies this
      ensures State() == DeclarationCompiled(old(State()))
    {
      Statement();
      if panicMode {
        Synchronize();
      }
    }

    /** `compile` from its set-up on: true exactly when no error was reported. */
    method Compile() returns (ok: bool)
      requires Scanned(tokens) && State() == Initial(table, tokens)
      modifies this
      ensures Compilation(ok, State()) == Compiled(table, tokens)
    {
      Advance();
      ghost var started := State();
      while true
        invariant Valid(State())
        invariant DeclarationsCompiled(State()) == DeclarationsCompiled(started)
        decreases Remaining(State())
      {
        var atEnd := Match(TokenEof);
        if atEnd {
          break;
        }
        Declaration();
      }
      EmitByte(Instruction(OpReturn));
      return !hadError;
    }
  }

  /** `EmittedOps` one instruction at a time, for the two-instruction cases of `binary`. */
  lemma EmittedOpsUnfold(st: CState, ops: seq<Op>)
    requires Valid(st) && |ops| <= 2
    ensures ops == [] ==> EmittedOps(st, ops) == st
    ensures |ops| == 1 ==> EmittedOps(st, ops) == Emitted(st, Instruction(ops[0]))
    ensures |ops| == 2 ==> EmittedOps(st, ops) == Emitted(Emitted(st, Instruction(ops[0])), Instruction(ops[1]))
  {
    if |ops| == 2 {
      var st1 := Emitted(st, Instruction(ops[0]));
      var rest := ops[1..];
      assert EmittedOps(st, ops) == EmittedOps(st1, rest);
      assert rest[1..] == [];
      assert EmittedOps(st1, rest) == EmittedOps(Emitted(st1, Instruction(rest[0])), rest[1..]);
    }
  }
}
