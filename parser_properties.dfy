/** Properties of the golox parser: where error recovery stops, how expressions associate,
    and the programs on which parser.go as written and the corrected parser part ways. */
module LoxParserProperties {
  import opened Wrappers
  import Tokens
  import opened Ast
  import opened LoxParser

  // ---------------------------------------------------------------------------------
  // Error recovery

  /** Where `synchronize` may stop: at EOF, just past a `;`, or before a token it takes for
      the start of a statement. */
  predicate Boundary(ts: seq<Token>, p: nat, v: Variant)
    requires 1 <= p < |ts|
  {
    AtEnd(ts, p) || ts[p - 1].kind == Tokens.Semicolon || SyncPoint(ts[p].kind, v)
  }

  lemma {:induction false} SyncLoopFindsFirstBoundary(ts: seq<Token>, pos: nat, v: Variant)
    requires ValidTokens(ts) && 1 <= pos < |ts|
    ensures Boundary(ts, SyncLoop(ts, pos, v), v)
    ensures forall j :: pos <= j < SyncLoop(ts, pos, v) ==> !Boundary(ts, j, v)
    decreases |ts| - pos
  {
    if Boundary(ts, pos, v) {
      assert SyncLoop(ts, pos, v) == pos;
    } else {
      var p := SyncLoop(ts, pos + 1, v);
      assert SyncLoop(ts, pos, v) == p;
      SyncLoopFindsFirstBoundary(ts, pos + 1, v);
      forall j | pos <= j < p
        ensures !Boundary(ts, j, v)
      {
        if j != pos {
          assert pos + 1 <= j < p;
        }
      }
    }
  }

  /** Off EOF, `synchronize` skips at least one token and stops at the first boundary after
      it. */
  lemma {:induction false} SynchronizeStopsAtFirstBoundary(ts: seq<Token>, pos: nat, v: Variant)
    requires ValidTokens(ts) && pos < |ts| && !AtEnd(ts, pos)
    ensures pos < Synchronized(ts, pos, v)
    ensures Boundary(ts, Synchronized(ts, pos, v), v)
    ensures forall j :: pos < j < Synchronized(ts, pos, v) ==> !Boundary(ts, j, v)
  {
    SyncLoopFindsFirstBoundary(ts, pos + 1, v);
  }

  /** As written, recovery runs to EOF or past a `;`, over every statement keyword on the
      way. */
  lemma {:induction false} AsWrittenSynchronizeSkipsKeywords(ts: seq<Token>, pos: nat)
    requires ValidTokens(ts) && pos < |ts| && !AtEnd(ts, pos)
    ensures var p := Synchronized(ts, pos, AsWritten);
      AtEnd(ts, p) || ts[p - 1].kind == Tokens.Semicolon
    ensures forall j :: pos < j < Synchronized(ts, pos, AsWritten) ==>
      !AtEnd(ts, j) && ts[j - 1].kind != Tokens.Semicolon
  {
    SyncCaseMatchesNoKind();
    SynchronizeStopsAtFirstBoundary(ts, pos, AsWritten);
    forall j | pos < j < Synchronized(ts, pos, AsWritten)
      ensures !AtEnd(ts, j) && ts[j - 1].kind != Tokens.Semicolon
    {
      assert !Boundary(ts, j, AsWritten);
    }
  }

  /** Corrected, recovery stops at the first statement keyword it reaches. */
  lemma {:induction false} CorrectedSynchronizeStopsAtKeywords(ts: seq<Token>, pos: nat)
    requires ValidTokens(ts) && pos < |ts| && !AtEnd(ts, pos)
    ensures forall j :: pos < j < Synchronized(ts, pos, Corrected) ==> !StatementKeyword(ts[j].kind)
    ensures var p := Synchronized(ts, pos, Corrected);
      AtEnd(ts, p) || ts[p - 1].kind == Tokens.Semicolon || StatementKeyword(ts[p].kind)
  {
    SynchronizeStopsAtFirstBoundary(ts, pos, Corrected);
    forall j | pos < j < Synchronized(ts, pos, Corrected)
      ensures !StatementKeyword(ts[j].kind)
    {
      assert !Boundary(ts, j, Corrected);
    }
  }

  // ---------------------------------------------------------------------------------
  // Token lists of a given shape

  predicate HasKinds(ts: seq<Token>, kinds: seq<TokenKind>)
  {
    |ts| == |kinds| && forall i :: 0 <= i < |ts| ==> ts[i].kind == kinds[i]
  }

  // ---------------------------------------------------------------------------------
  // Expressions

  /** A token that continues no expression: no operator, call, property access or `=`. */
  predicate Stops(ts: seq<Token>, q: nat)
    requires q < |ts|
  {
    AtEnd(ts, q) || ts[q].kind in {Tokens.Semicolon, Tokens.RightParenthesis, Tokens.Comma, Tokens.Number, Tokens.Identifier, Tokens.Print}
  }

  /** A result no enclosing level extends: a nil dereference, a cursor on a token that stops
      expressions, or an error before anything but `and`/`or` (whose loops go on after an
      error). */
  predicate Final(ts: seq<Token>, r: Parsed<Expr>)
  {
    r.Panic? || (r.pos < |ts| && (Stops(ts, r.pos) || (r.errs != [] && !Check(ts, r.pos, Tokens.And) && !Check(ts, r.pos, Tokens.Or))))
  }

  lemma {:induction false} CallPassesPrimary(ts: seq<Token>, pos: nat, v: Variant)
    requires ValidTokens(ts) && pos < |ts| && !Check(ts, pos, Tokens.Bang) && !Check(ts, pos, Tokens.Minus)
    requires Final(ts, ParsePrimary(ts, pos, v))
    ensures ParseUnary(ts, pos, v) == ParsePrimary(ts, pos, v)
  {
    var p := ParsePrimary(ts, pos, v);
    if p.Parsed? && p.errs == [] {
      assert CallLoop(ts, p.value, p.pos, [], v) == p;
    }
  }

  lemma {:induction false} BinaryPassesOperand(ts: seq<Token>, pos: nat, level: Level, v: Variant)
    requires ValidTokens(ts) && pos < |ts| && Final(ts, ParseOperand(ts, pos, level, v))
    ensures ParseBinary(ts, pos, level, v) == ParseOperand(ts, pos, level, v)
  {
    var e := ParseOperand(ts, pos, level, v);
    if e.Parsed? && e.errs == [] {
      assert !CheckAny(ts, e.pos, Operators(level));
    }
  }

  lemma {:induction false} LogicalPassesOperand(ts: seq<Token>, pos: nat, op: TokenKind, v: Variant)
    requires ValidTokens(ts) && pos < |ts| && (op == Tokens.And || op == Tokens.Or)
    requires Final(ts, if op == Tokens.And then ParseBinary(ts, pos, EqualityLevel, v) else ParseLogical(ts, pos, Tokens.And, v))
    ensures ParseLogical(ts, pos, op, v) == if op == Tokens.And then ParseBinary(ts, pos, EqualityLevel, v) else ParseLogical(ts, pos, Tokens.And, v)
  {
  }

  /** A unary operand no enclosing level extends is what `expression` returns. */
  lemma {:induction false} UnaryIsEquality(ts: seq<Token>, pos: nat, v: Variant)
    requires ValidTokens(ts) && pos < |ts| && Final(ts, ParseUnary(ts, pos, v))
    ensures ParseBinary(ts, pos, EqualityLevel, v) == ParseUnary(ts, pos, v)
  {
    BinaryPassesOperand(ts, pos, FactorLevel, v);
    BinaryPassesOperand(ts, pos, TermLevel, v);
    BinaryPassesOperand(ts, pos, ComparisonLevel, v);
    BinaryPassesOperand(ts, pos, EqualityLevel, v);
  }

  lemma {:induction false} UnaryIsExpression(ts: seq<Token>, pos: nat, v: Variant)
    requires ValidTokens(ts) && pos < |ts| && Final(ts, ParseUnary(ts, pos, v))
    ensures ParseAssignment(ts, pos, v) == ParseUnary(ts, pos, v)
  {
    UnaryIsEquality(ts, pos, v);
    LogicalPassesOperand(ts, pos, Tokens.And, v);
    LogicalPassesOperand(ts, pos, Tokens.Or, v);
    AssignmentPassesOperand(ts, pos, v);
  }

  lemma AssignmentPassesOperand(ts: seq<Token>, pos: nat, v: Variant)
    requires ValidTokens(ts) && pos < |ts| && Final(ts, ParseLogical(ts, pos, Tokens.Or, v))
    ensures ParseAssignment(ts, pos, v) == ParseLogical(ts, pos, Tokens.Or, v)
  {
  }

  lemma {:induction false} PrimaryIsExpression(ts: seq<Token>, pos: nat, v: Variant)
    requires ValidTokens(ts) && pos < |ts| && !Check(ts, pos, Tokens.Bang) && !Check(ts, pos, Tokens.Minus)
    requires Final(ts, ParsePrimary(ts, pos, v))
    ensures ParseAssignment(ts, pos, v) == ParsePrimary(ts, pos, v)
  {
    CallPassesPrimary(ts, pos, v);
    UnaryIsExpression(ts, pos, v);
  }

  /** A number or a name followed by a stopping token is a literal or a variable. */
  lemma {:induction false} AtomIsExpression(ts: seq<Token>, pos: nat, v: Variant)
    requires ValidTokens(ts) && pos + 1 < |ts| && (ts[pos].kind == Tokens.Number || ts[pos].kind == Tokens.Identifier)
    requires Stops(ts, pos + 1)
    ensures ParseAssignment(ts, pos, v)
      == Parsed(if ts[pos].kind == Tokens.Number then Literal(NumberType, ts[pos].value, "") else Variable(ts[pos], pos), pos + 1, [])
  {
    PrimaryIsExpression(ts, pos, v);
  }

  /** `-` right before `)`: "Expect expression." at the `)`, which is consumed. */
  lemma {:induction false} MinusBeforeParen(ts: seq<Token>, pos: nat, v: Variant)
    requires ValidTokens(ts) && pos + 2 < |ts| && ts[pos].kind == Tokens.Minus && ts[pos + 1].kind == Tokens.RightParenthesis
    requires !Check(ts, pos + 2, Tokens.And) && !Check(ts, pos + 2, Tokens.Or)
    ensures ParseAssignment(ts, pos, v) == Parsed(NoExpr, pos + 2, [NewParseError(ts[pos + 1], "Expect expression.")])
  {
    CallPassesPrimary(ts, pos + 1, v);
    UnaryIsExpression(ts, pos, v);
  }

  // ---------------------------------------------------------------------------------
  // Associativity and precedence

  /** The tree `e` is reached from `r` down left operands of binary nodes whose operators
      are among `kinds`. */
  predicate LeftSpine(r: Expr, e: Expr, kinds: seq<TokenKind>)
  {
    r == e || (r.Binary? && r.op.kind in kinds && LeftSpine(r.left, e, kinds))
  }

  lemma {:induction false} LeftSpineThrough(r: Expr, e: Expr, op: Token, right: Expr, kinds: seq<TokenKind>)
    requires LeftSpine(r, Binary(e, op, right), kinds) && op.kind in kinds
    ensures LeftSpine(r, e, kinds)
  {
    if r != Binary(e, op, right) {
      LeftSpineThrough(r.left, e, op, right, kinds);
    }
  }

  /** Left associativity of the binary levels: whatever a level's loop parses after the tree
      `e` built so far, `e` ends up at the bottom of the left spine of the result, every node
      above it an operator of that level. */
  lemma {:induction false} BinaryLoopKeepsLeft(ts: seq<Token>, e: Expr, pos: nat, level: Level, v: Variant)
    requires ValidTokens(ts) && pos < |ts|
    ensures var r := BinaryLoop(ts, e, pos, level, v);
      r.Parsed? && r.errs == [] ==> LeftSpine(r.value, e, Operators(level))
    decreases |ts| - pos
  {
    if CheckAny(ts, pos, Operators(level)) {
      var right := ParseOperand(ts, pos + 1, level, v);
      if right.Parsed? && right.errs == [] {
        CheckAnyMeans(ts, pos, Operators(level));
        var e' := NewBinary(e, right.value, ts[pos]);
        BinaryLoopKeepsLeft(ts, e', right.pos, level, v);
        var r := BinaryLoop(ts, e', right.pos, level, v);
        if r.Parsed? && r.errs == [] {
          LeftSpineThrough(r.value, e, ts[pos], right.value, Operators(level));
        }
      }
    }
  }

  /** A number or a name as an expression node. */
  function Atom(ts: seq<Token>, q: nat): Expr
    requires q < |ts|
  {
    if ts[q].kind == Tokens.Number then Literal(NumberType, ts[q].value, "") else Variable(ts[q], q)
  }

  predicate IsAtom(ts: seq<Token>, q: nat)
    requires q < |ts|
  {
    ts[q].kind == Tokens.Number || ts[q].kind == Tokens.Identifier
  }

  /** A token that continues no binary or logical operator. */
  predicate NoOperator(ts: seq<Token>, q: nat)
    requires q < |ts|
  {
    !Check(ts, q, Tokens.And) && !Check(ts, q, Tokens.Or)
    && ts[q].kind !in {Tokens.Slash, Tokens.Star, Tokens.Minus, Tokens.Plus, Tokens.Greater, Tokens.GreaterEqual,
      Tokens.Less, Tokens.LessEqual, Tokens.BangEqual, Tokens.EqualEqual}
  }

  /** A token that ends an expression statement or an argument. */
  predicate Ends(ts: seq<Token>, q: nat)
    requires q < |ts|
  {
    AtEnd(ts, q) || ts[q].kind in {Tokens.Semicolon, Tokens.RightParenthesis, Tokens.Comma}
  }

  /** A number or a name not followed by a call or a property access is a unary operand. */
  lemma AtomUnary(ts: seq<Token>, q: nat, v: Variant)
    requires ValidTokens(ts) && q + 1 < |ts| && IsAtom(ts, q)
    requires ts[q + 1].kind != Tokens.LeftParenthesis && ts[q + 1].kind != Tokens.Dot
    ensures ParseUnary(ts, q, v) == Parsed(Atom(ts, q), q + 1, [])
  {
    AtomCall(ts, q, v);
    UnaryIsCall(ts, q, v);
  }

  lemma AtomCall(ts: seq<Token>, q: nat, v: Variant)
    requires ValidTokens(ts) && q + 1 < |ts| && IsAtom(ts, q)
    requires ts[q + 1].kind != Tokens.LeftParenthesis && ts[q + 1].kind != Tokens.Dot
    ensures ParseCall(ts, q, v) == Parsed(Atom(ts, q), q + 1, [])
  {
    AtomPrimary(ts, q, v);
    CallFrom(ts, q, v, Atom(ts, q), q + 1);
    CallEnds(ts, Atom(ts, q), q + 1, [], v);
  }

  lemma AtomPrimary(ts: seq<Token>, q: nat, v: Variant)
    requires ValidTokens(ts) && q < |ts| && IsAtom(ts, q)
    ensures ParsePrimary(ts, q, v) == Parsed(Atom(ts, q), q + 1, [])
  {
    assert SimplePrimary(ts, q) == Some(Atom(ts, q));
  }

  /** `call` after an error-free `primary`: the loop of calls and property accesses. */
  lemma CallFrom(ts: seq<Token>, pos: nat, v: Variant, e: Expr, p: nat)
    requires ValidTokens(ts) && pos < |ts| && ParsePrimary(ts, pos, v) == Parsed(e, p, [])
    ensures p < |ts| && ParseCall(ts, pos, v) == CallLoop(ts, e, p, [], v)
  {
  }

  /** `unary` at a token that is neither `!` nor `-` is `call`. */
  lemma UnaryIsCall(ts: seq<Token>, pos: nat, v: Variant)
    requires ValidTokens(ts) && pos < |ts| && ts[pos].kind != Tokens.Bang && ts[pos].kind != Tokens.Minus
    ensures ParseUnary(ts, pos, v) == ParseCall(ts, pos, v)
  {
    assert !Check(ts, pos, Tokens.Bang) && !Check(ts, pos, Tokens.Minus);
  }

  /** The operands of `factor` are unary expressions, those of `term` factors. */
  lemma OperandLevels(ts: seq<Token>, pos: nat, v: Variant)
    requires ValidTokens(ts) && pos < |ts|
    ensures ParseOperand(ts, pos, FactorLevel, v) == ParseUnary(ts, pos, v)
    ensures ParseOperand(ts, pos, TermLevel, v) == ParseBinary(ts, pos, FactorLevel, v)
  {
  }

  /** A number or a name before a token that continues no `factor` is a `term` operand. */
  lemma AtomTerm(ts: seq<Token>, q: nat, v: Variant)
    requires ValidTokens(ts) && q + 1 < |ts| && IsAtom(ts, q)
    requires ts[q + 1].kind !in {Tokens.LeftParenthesis, Tokens.Dot, Tokens.Slash, Tokens.Star}
    ensures ParseOperand(ts, q, TermLevel, v) == Parsed(Atom(ts, q), q + 1, [])
  {
    AtomFactor(ts, q, v);
    OperandLevels(ts, q, v);
  }

  /** A token that ends an expression continues none of its levels. */
  lemma EndsNoOperator(ts: seq<Token>, q: nat)
    requires q < |ts| && Ends(ts, q)
    ensures ts[q].kind !in {Tokens.LeftParenthesis, Tokens.Dot, Tokens.Slash, Tokens.Star}
    ensures ts[q].kind !in Operators(FactorLevel) && ts[q].kind !in Operators(TermLevel)
  {
  }

  /** A level with one operator between two error-free operands, and no operator of the
      level after them. */
  lemma OneOperator(ts: seq<Token>, pos: nat, level: Level, v: Variant, a: Expr, p: nat, b: Expr, q: nat)
    requires ValidTokens(ts) && pos < |ts| && p < |ts| && q < |ts|
    requires ParseOperand(ts, pos, level, v) == Parsed(a, p, [])
    requires ts[p].kind in Operators(level) && ParseOperand(ts, p + 1, level, v) == Parsed(b, q, [])
    requires ts[q].kind !in Operators(level)
    ensures ParseBinary(ts, pos, level, v) == Parsed(Binary(a, ts[p], b), q, [])
  {
    BinaryFrom(ts, pos, level, v, a, p);
    LoopStep(ts, a, p, level, v, b, q);
    LoopEnds(ts, Binary(a, ts[p], b), q, level, v);
  }

  /** Three error-free operands of a level with two of its operators between them, and no
      operator of the level after them. */
  lemma TwoOperators(ts: seq<Token>, pos: nat, level: Level, v: Variant, a: Expr, b: Expr, c: Expr)
    requires ValidTokens(ts) && pos + 5 < |ts|
    requires ParseOperand(ts, pos, level, v) == Parsed(a, pos + 1, [])
    requires ts[pos + 1].kind in Operators(level) && ParseOperand(ts, pos + 2, level, v) == Parsed(b, pos + 3, [])
    requires ts[pos + 3].kind in Operators(level) && ParseOperand(ts, pos + 4, level, v) == Parsed(c, pos + 5, [])
    requires ts[pos + 5].kind !in Operators(level)
    ensures ParseBinary(ts, pos, level, v) == Parsed(Binary(Binary(a, ts[pos + 1], b), ts[pos + 3], c), pos + 5, [])
  {
    var ab := Binary(a, ts[pos + 1], b);
    assert ParseBinary(ts, pos, level, v) == BinaryLoop(ts, ab, pos + 3, level, v) by {
      BinaryFrom(ts, pos, level, v, a, pos + 1);
      LoopStep(ts, a, pos + 1, level, v, b, pos + 3);
    }
    assert BinaryLoop(ts, ab, pos + 3, level, v) == Parsed(Binary(ab, ts[pos + 3], c), pos + 5, []) by {
      LoopStep(ts, ab, pos + 3, level, v, c, pos + 5);
      LoopEnds(ts, Binary(ab, ts[pos + 3], c), pos + 5, level, v);
    }
  }

  /** A level after its error-free first operand: the level's loop. */
  lemma BinaryFrom(ts: seq<Token>, pos: nat, level: Level, v: Variant, e: Expr, p: nat)
    requires ValidTokens(ts) && pos < |ts| && ParseOperand(ts, pos, level, v) == Parsed(e, p, [])
    ensures p < |ts| && ParseBinary(ts, pos, level, v) == BinaryLoop(ts, e, p, level, v)
  {
  }

  /** ... and, before a token that is no factor operator, a whole `factor`. */
  lemma AtomFactor(ts: seq<Token>, q: nat, v: Variant)
    requires ValidTokens(ts) && q + 1 < |ts| && IsAtom(ts, q)
    requires ts[q + 1].kind !in {Tokens.LeftParenthesis, Tokens.Dot, Tokens.Slash, Tokens.Star}
    ensures ParseBinary(ts, q, FactorLevel, v) == Parsed(Atom(ts, q), q + 1, [])
  {
    AtomUnary(ts, q, v);
    OperandLevels(ts, q, v);
    BinaryFrom(ts, q, FactorLevel, v, Atom(ts, q), q + 1);
    LoopEnds(ts, Atom(ts, q), q + 1, FactorLevel, v);
  }

  function Looser(level: Level): Level
  {
    match level
    case FactorLevel => TermLevel
    case TermLevel => ComparisonLevel
    case ComparisonLevel => EqualityLevel
    case EqualityLevel => EqualityLevel
  }

  /** A level's result followed by no operator is the result of every looser level, up to
      `or`. */
  lemma {:induction false} DisjunctionFrom(ts: seq<Token>, pos: nat, level: Level, e: Expr, q: nat, v: Variant)
    requires ValidTokens(ts) && pos < |ts| && q < |ts| && NoOperator(ts, q)
    requires ParseBinary(ts, pos, level, v) == Parsed(e, q, [])
    ensures ParseLogical(ts, pos, Tokens.Or, v) == Parsed(e, q, [])
    decreases 3 - Rank(level)
  {
    if level == EqualityLevel {
      assert ParseLogical(ts, pos, Tokens.And, v) == Parsed(e, q, []);
    } else {
      assert !CheckAny(ts, q, Operators(Looser(level)));
      assert ParseBinary(ts, pos, Looser(level), v) == Parsed(e, q, []);
      DisjunctionFrom(ts, pos, Looser(level), e, q, v);
    }
  }

  /** ... and, before a token that ends it, the whole expression. */
  lemma ExpressionFrom(ts: seq<Token>, pos: nat, level: Level, e: Expr, q: nat, v: Variant)
    requires ValidTokens(ts) && pos < |ts| && q < |ts| && Ends(ts, q)
    requires ParseBinary(ts, pos, level, v) == Parsed(e, q, [])
    ensures ParseAssignment(ts, pos, v) == Parsed(e, q, [])
  {
    DisjunctionFrom(ts, pos, level, e, q, v);
  }

  /** One turn of a level's loop: the operator and its right operand wrap the tree so far. */
  lemma LoopStep(ts: seq<Token>, e: Expr, p: nat, level: Level, v: Variant, right: Expr, q: nat)
    requires ValidTokens(ts) && p + 1 < |ts| && q < |ts| && ts[p].kind in Operators(level)
    requires ParseOperand(ts, p + 1, level, v) == Parsed(right, q, [])
    ensures BinaryLoop(ts, e, p, level, v) == BinaryLoop(ts, Binary(e, ts[p], right), q, level, v)
  {
    assert !AtEnd(ts, p);
    CheckAnyMeans(ts, p, Operators(level));
  }

  /** `match` over a list of kinds: the current token is one of them, and not EOF. */
  lemma CheckAnyMeans(ts: seq<Token>, p: nat, kinds: seq<TokenKind>)
    requires p < |ts|
    ensures CheckAny(ts, p, kinds) <==> !AtEnd(ts, p) && ts[p].kind in kinds
  {
    if !AtEnd(ts, p) && ts[p].kind in kinds {
      var i :| 0 <= i < |kinds| && kinds[i] == ts[p].kind;
      assert Check(ts, p, kinds[i]);
    }
  }

  /** The loop ends before a token that is none of the level's operators. */
  lemma LoopEnds(ts: seq<Token>, e: Expr, p: nat, level: Level, v: Variant)
    requires ValidTokens(ts) && p < |ts| && ts[p].kind !in Operators(level)
    ensures BinaryLoop(ts, e, p, level, v) == Parsed(e, p, [])
  {
  }

  /** `a - b - c` is `(a - b) - c`. */
  lemma {:induction false} SubtractionAssociatesLeft(ts: seq<Token>, pos: nat, v: Variant)
    requires ValidTokens(ts) && pos + 5 < |ts| && IsAtom(ts, pos) && IsAtom(ts, pos + 2) && IsAtom(ts, pos + 4)
    requires ts[pos + 1].kind == Tokens.Minus && ts[pos + 3].kind == Tokens.Minus && Ends(ts, pos + 5)
    ensures ParseAssignment(ts, pos, v)
      == Parsed(Binary(Binary(Atom(ts, pos), ts[pos + 1], Atom(ts, pos + 2)), ts[pos + 3], Atom(ts, pos + 4)), pos + 5, [])
  {
    EndsNoOperator(ts, pos + 5);
    AtomTerm(ts, pos, v);
    AtomTerm(ts, pos + 2, v);
    AtomTerm(ts, pos + 4, v);
    TwoOperators(ts, pos, TermLevel, v, Atom(ts, pos), Atom(ts, pos + 2), Atom(ts, pos + 4));
    ExpressionFrom(ts, pos, TermLevel,
      Binary(Binary(Atom(ts, pos), ts[pos + 1], Atom(ts, pos + 2)), ts[pos + 3], Atom(ts, pos + 4)), pos + 5, v);
  }

  /** `1 + 2 * 3` is `1 + (2 * 3)`: the product is the right operand of the sum. */
  lemma {:induction false} ProductNestsUnderSum(ts: seq<Token>, pos: nat, v: Variant)
    requires ValidTokens(ts) && pos + 5 < |ts| && IsAtom(ts, pos) && IsAtom(ts, pos + 2) && IsAtom(ts, pos + 4)
    requires ts[pos + 1].kind == Tokens.Plus && ts[pos + 3].kind == Tokens.Star && Ends(ts, pos + 5)
    ensures ParseAssignment(ts, pos, v)
      == Parsed(Binary(Atom(ts, pos), ts[pos + 1], Binary(Atom(ts, pos + 2), ts[pos + 3], Atom(ts, pos + 4))), pos + 5, [])
  {
    EndsNoOperator(ts, pos + 5);
    var product := Binary(Atom(ts, pos + 2), ts[pos + 3], Atom(ts, pos + 4));
    assert ParseOperand(ts, pos + 2, TermLevel, v) == Parsed(product, pos + 5, []) by {
      AtomUnary(ts, pos + 2, v);
      AtomUnary(ts, pos + 4, v);
      OperandLevels(ts, pos + 2, v);
      OperandLevels(ts, pos + 4, v);
      OneOperator(ts, pos + 2, FactorLevel, v, Atom(ts, pos + 2), pos + 3, Atom(ts, pos + 4), pos + 5);
    }
    AtomTerm(ts, pos, v);
    OneOperator(ts, pos, TermLevel, v, Atom(ts, pos), pos + 1, product, pos + 5);
    ExpressionFrom(ts, pos, TermLevel, Binary(Atom(ts, pos), ts[pos + 1], product), pos + 5, v);
  }

  /** A name before `=` is an assignment target: the assignment of what follows. */
  lemma NameAssigned(ts: seq<Token>, pos: nat, v: Variant, value: Expr, q: nat)
    requires ValidTokens(ts) && pos + 2 < |ts| && ts[pos].kind == Tokens.Identifier && ts[pos + 1].kind == Tokens.Equal
    requires ParseAssignment(ts, pos + 2, v) == Parsed(value, q, [])
    ensures ParseAssignment(ts, pos, v) == Parsed(Assign(ts[pos], pos, value), q, [])
  {
    assert ParseLogical(ts, pos, Tokens.Or, v) == Parsed(Variable(ts[pos], pos), pos + 1, []) by {
      AtomFactor(ts, pos, v);
      assert NoOperator(ts, pos + 1);
      DisjunctionFrom(ts, pos, FactorLevel, Atom(ts, pos), pos + 1, v);
    }
    assert Check(ts, pos + 1, Tokens.Equal);
  }

  /** `a = b = c` is `a = (b = c)`. */
  lemma {:induction false} AssignmentAssociatesRight(ts: seq<Token>, pos: nat, v: Variant)
    requires ValidTokens(ts) && pos + 5 < |ts| && ts[pos].kind == Tokens.Identifier && ts[pos + 2].kind == Tokens.Identifier
    requires ts[pos + 1].kind == Tokens.Equal && ts[pos + 3].kind == Tokens.Equal && IsAtom(ts, pos + 4) && Ends(ts, pos + 5)
    ensures ParseAssignment(ts, pos, v)
      == Parsed(Assign(ts[pos], pos, Assign(ts[pos + 2], pos + 2, Atom(ts, pos + 4))), pos + 5, [])
  {
    AtomFactor(ts, pos + 4, v);
    ExpressionFrom(ts, pos + 4, FactorLevel, Atom(ts, pos + 4), pos + 5, v);
    NameAssigned(ts, pos + 2, v, Atom(ts, pos + 4), pos + 5);
    NameAssigned(ts, pos, v, Assign(ts[pos + 2], pos + 2, Atom(ts, pos + 4)), pos + 5);
  }

  // ---------------------------------------------------------------------------------
  // The precedence ladder

  /** The level of a binary operator: 0 for `factor`, 1 `term`, 2 `comparison`,
      3 `equality`, and 7 for a token no level's loop matches. */
  function BinaryRank(k: TokenKind): int
  {
    if k in Operators(FactorLevel) then 0
    else if k in Operators(TermLevel) then 1
    else if k in Operators(ComparisonLevel) then 2
    else if k in Operators(EqualityLevel) then 3
    else 7
  }

  /** The level of a logical operator: 4 for `and`, 5 for `or`, 7 otherwise. */
  function LogicalRank(k: TokenKind): int
  {
    if k == Tokens.And then 4 else if k == Tokens.Or then 5 else 7
  }

  /** `e` is a tree the expression levels build with nothing looser than level `k` at its
      top: -1 is `unary` and tighter, 0 to 3 the binary levels from `factor` to `equality`,
      4 `and`, 5 `or`, 6 `assignment`. A binary or logical node takes its left operand from
      its own level (left associativity) and its right one from the next tighter level; an
      assignment's value is again an assignment (right associativity). Unary expressions,
      calls, property reads, parentheses and primaries are the ground of the ladder: what
      they contain is parsed from its top again. */
  ghost predicate Layered(e: Expr, k: int)
    decreases e
  {
    match e
    case Binary(left, op, right) =>
      var r := BinaryRank(op.kind);
      r <= k && Layered(left, r) && Layered(right, r - 1)
    case Logical(left, op, right) =>
      var r := LogicalRank(op.kind);
      r <= k && Layered(left, r) && Layered(right, r - 1)
    case Assign(_, _, value) => 6 <= k && Layered(value, 6)
    case Set(_, _, value) => 6 <= k && Layered(value, 6)
    case _ => true
  }

  /** A tree layered under a tighter level is layered under a looser one. */
  lemma LayeredLoosens(e: Expr, j: int, k: int)
    requires j <= k && Layered(e, j)
    ensures Layered(e, k)
  {
  }

  /** The precedence ladder: every `or` expression (an expression other than an
      assignment) that the corrected parser accepts without error is layered, each
      level's operands parsed by the next tighter level down to `unary`. The lemmas below
      follow the productions one by one. */
  lemma PrecedenceLadder(ts: seq<Token>, pos: nat, r: Parsed<Expr>)
    requires ValidTokens(ts) && pos < |ts|
    requires r == ParseLogical(ts, pos, Tokens.Or, Corrected) && r.Parsed? && r.errs == []
    ensures Layered(r.value, LogicalRank(Tokens.Or))
  {
    LogicalLayered(ts, Corrected, pos, Tokens.Or, r);
  }

  /** `primary` yields a node of the ground: a literal, a name, `this`, `super` or a
      parenthesised expression. */
  lemma PrimaryGround(ts: seq<Token>, v: Variant, pos: nat, r: Parsed<Expr>)
    requires ValidTokens(ts) && pos < |ts|
    requires r == ParsePrimary(ts, pos, v) && r.Parsed? && r.errs == []
    ensures Layered(r.value, -1)
  {
  }

  /** The loop of `call` adds calls and property reads only. */
  lemma {:induction false} CallLoopGround(ts: seq<Token>, v: Variant, e: Expr, pos: nat, r: Parsed<Expr>)
    requires v == Corrected && ValidTokens(ts) && pos < |ts| && Layered(e, -1)
    requires r == CallLoop(ts, e, pos, [], v) && r.Parsed? && r.errs == []
    ensures Layered(r.value, -1)
    decreases |ts| - pos
  {
    if Check(ts, pos, Tokens.LeftParenthesis) {
      var f := FinishCall(ts, e, pos + 1, v);
      CallLoopGround(ts, v, f.value, f.pos, r);
    } else if Check(ts, pos, Tokens.Dot) {
      CallLoopGround(ts, v, Get(e, ts[pos + 1]), pos + 2, r);
    }
  }

  /** `unary` is the ladder's lowest rung. */
  lemma {:induction false} UnaryGround(ts: seq<Token>, v: Variant, pos: nat, r: Parsed<Expr>)
    requires v == Corrected && ValidTokens(ts) && pos < |ts|
    requires r == ParseUnary(ts, pos, v) && r.Parsed? && r.errs == []
    ensures Layered(r.value, -1)
  {
    if !Check(ts, pos, Tokens.Bang) && !Check(ts, pos, Tokens.Minus) {
      var p := ParsePrimary(ts, pos, v);
      PrimaryGround(ts, v, pos, p);
      CallLoopGround(ts, v, p.value, p.pos, r);
    }
  }

  /** A level's operands come from the next tighter level: `unary` below `factor`. */
  lemma {:induction false} OperandLayered(ts: seq<Token>, v: Variant, pos: nat, level: Level, r: Parsed<Expr>)
    requires v == Corrected && ValidTokens(ts) && pos < |ts|
    requires r == ParseOperand(ts, pos, level, v) && r.Parsed? && r.errs == []
    ensures Layered(r.value, Rank(level) - 1)
    decreases Rank(level), 0
  {
    match level
    case FactorLevel => UnaryGround(ts, v, pos, r);
    case TermLevel => BinaryLayered(ts, v, pos, FactorLevel, r);
    case ComparisonLevel => BinaryLayered(ts, v, pos, TermLevel, r);
    case EqualityLevel => BinaryLayered(ts, v, pos, ComparisonLevel, r);
  }

  /** One turn of a level's loop keeps the ladder: the operator is of the level. */
  lemma BinaryNodeLayered(ts: seq<Token>, pos: nat, level: Level, e: Expr, right: Expr)
    requires pos < |ts| && CheckAny(ts, pos, Operators(level))
    requires Layered(e, Rank(level)) && Layered(right, Rank(level) - 1)
    ensures Layered(Binary(e, ts[pos], right), Rank(level))
  {
    var i :| 0 <= i < |Operators(level)| && Check(ts, pos, Operators(level)[i]);
    assert BinaryRank(ts[pos].kind) == Rank(level);
  }

  lemma {:induction false} BinaryLoopLayered(ts: seq<Token>, v: Variant, e: Expr, pos: nat, level: Level, r: Parsed<Expr>)
    requires v == Corrected && ValidTokens(ts) && pos < |ts| && Layered(e, Rank(level))
    requires r == BinaryLoop(ts, e, pos, level, v) && r.Parsed? && r.errs == []
    ensures Layered(r.value, Rank(level))
    decreases Rank(level), |ts| - pos
  {
    if CheckAny(ts, pos, Operators(level)) {
      var right := ParseOperand(ts, pos + 1, level, v);
      assert right.Parsed? && right.errs == [];
      OperandLayered(ts, v, pos + 1, level, right);
      BinaryNodeLayered(ts, pos, level, e, right.value);
      BinaryLoopLayered(ts, v, NewBinary(e, right.value, ts[pos]), right.pos, level, r);
    }
  }

  lemma {:induction false} BinaryLayered(ts: seq<Token>, v: Variant, pos: nat, level: Level, r: Parsed<Expr>)
    requires v == Corrected && ValidTokens(ts) && pos < |ts|
    requires r == ParseBinary(ts, pos, level, v) && r.Parsed? && r.errs == []
    ensures Layered(r.value, Rank(level))
    decreases Rank(level), |ts| - pos + 1
  {
    var e := ParseOperand(ts, pos, level, v);
    OperandLayered(ts, v, pos, level, e);
    LayeredLoosens(e.value, Rank(level) - 1, Rank(level));
    BinaryLoopLayered(ts, v, e.value, e.pos, level, r);
  }

  /** `and` takes its operands from `equality`, `or` from `and`. */
  lemma {:induction false} LogicalLoopLayered(ts: seq<Token>, v: Variant, e: Expr, pos: nat, op: TokenKind, r: Parsed<Expr>)
    requires v == Corrected && ValidTokens(ts) && pos < |ts| && (op == Tokens.And || op == Tokens.Or)
    requires Layered(e, LogicalRank(op))
    requires r == LogicalLoop(ts, e, pos, [], op, v) && r.Parsed? && r.errs == []
    ensures Layered(r.value, LogicalRank(op))
    decreases LogicalRank(op), |ts| - pos
  {
    if Check(ts, pos, op) {
      var right := if op == Tokens.And then ParseBinary(ts, pos + 1, EqualityLevel, v) else ParseLogical(ts, pos + 1, Tokens.And, v);
      assert right.Parsed? && right.errs == [];
      if op == Tokens.And {
        BinaryLayered(ts, v, pos + 1, EqualityLevel, right);
      } else {
        LogicalLayered(ts, v, pos + 1, Tokens.And, right);
      }
      var l := Logical(e, ts[pos], right.value);
      assert Layered(l, LogicalRank(op));
      LogicalLoopLayered(ts, v, l, right.pos, op, r);
    }
  }

  lemma {:induction false} LogicalLayered(ts: seq<Token>, v: Variant, pos: nat, op: TokenKind, r: Parsed<Expr>)
    requires v == Corrected && ValidTokens(ts) && pos < |ts| && (op == Tokens.And || op == Tokens.Or)
    requires r == ParseLogical(ts, pos, op, v) && r.Parsed? && r.errs == []
    ensures Layered(r.value, LogicalRank(op))
    decreases LogicalRank(op), |ts| - pos + 1
  {
    var e := if op == Tokens.And then ParseBinary(ts, pos, EqualityLevel, v) else ParseLogical(ts, pos, Tokens.And, v);
    assert e.Parsed? && e.errs == [] by {
      assert r == LogicalLoop(ts, e.value, e.pos, e.errs, op, v);
    }
    if op == Tokens.And {
      BinaryLayered(ts, v, pos, EqualityLevel, e);
    } else {
      LogicalLayered(ts, v, pos, Tokens.And, e);
    }
    LayeredLoosens(e.value, LogicalRank(op) - 1, LogicalRank(op));
    LogicalLoopLayered(ts, v, e.value, e.pos, op, r);
  }

  // ---------------------------------------------------------------------------------
  // The `for` loop

  /** A `for` statement is its initializer, then a `while` loop (in a block when there is an
      initializer); the loop's condition is `true` when none is given, and its body is the
      loop body followed by the increment, as an expression statement, when one is given. */
  lemma DesugarShape(init: Option<Stmt>, cond: Expr, incr: Expr, body: Stmt)
    ensures var loop := Desugar(None, cond, incr, body);
      && (init.Some? ==> Desugar(init, cond, incr, body) == Block([init.value, loop]))
      && (init.None? ==> Desugar(init, cond, incr, body) == loop)
      && loop.While?
      && loop.condition == (if cond.NoExpr? then Literal(BoolType, 1.0, "") else cond)
      && loop.body == (if incr.NoExpr? then body else Block([body, Expression(incr)]))
  {
  }

  /** `forStatement` parses its clauses and its body, then returns their desugaring with the
      clauses' errors before the body's. */
  lemma ForParsed(ts: seq<Token>, pos: nat, v: Variant, h: ForHeader, q: nat, herrs: seq<ParseError>,
      body: Stmt, q': nat, berrs: seq<ParseError>)
    requires ValidTokens(ts) && pos < |ts| && q < |ts|
    requires ForClauses(ts, pos, v) == Parsed(h, q, herrs) && ParseStatement(ts, q, v) == Parsed(body, q', berrs)
    ensures ParseFor(ts, pos, v) == Parsed(Desugar(h.init, h.cond, h.incr, body), q', herrs + berrs)
  {
  }

  /** `for (;;) x;` is `while (true) x;`. */
  lemma {:induction false} ForeverLoop(ts: seq<Token>, pos: nat, v: Variant)
    requires ValidTokens(ts) && pos + 7 < |ts|
    requires ts[pos].kind == Tokens.For && ts[pos + 1].kind == Tokens.LeftParenthesis
    requires ts[pos + 2].kind == Tokens.Semicolon && ts[pos + 3].kind == Tokens.Semicolon
    requires ts[pos + 4].kind == Tokens.RightParenthesis && ts[pos + 5].kind == Tokens.Identifier
    requires ts[pos + 6].kind == Tokens.Semicolon
    ensures ParseStatement(ts, pos, v)
      == Parsed(While(Literal(BoolType, 1.0, ""), Expression(Variable(ts[pos + 5], pos + 5))), pos + 7, [])
  {
    assert ForInit(ts, pos + 2, v) == Parsed(None, pos + 3, []);
    assert ForCondition(ts, pos + 3, v) == Parsed(NoExpr, pos + 4, []);
    assert ForClauses(ts, pos + 1, v) == Parsed(ForHeader(None, NoExpr, NoExpr), pos + 5, []);
    NameStatement(ts, pos + 5, v);
    ForParsed(ts, pos + 1, v, ForHeader(None, NoExpr, NoExpr), pos + 5, [], Expression(Variable(ts[pos + 5], pos + 5)), pos + 7, []);
  }

  // ---------------------------------------------------------------------------------
  // Where parser.go as written goes wrong, and the corrected parser

  /** An expression expected at EOF (`print` and nothing after it, say): as written
      `primary` dereferences the nil `advance()` returns there; corrected, "Expect
      expression." is reported at EOF. */
  lemma {:induction false} ExpressionAtEof(ts: seq<Token>, pos: nat, v: Variant)
    requires ValidTokens(ts) && pos < |ts| && AtEnd(ts, pos)
    ensures ParseAssignment(ts, pos, v)
      == if v == AsWritten then Panic else Parsed(NoExpr, pos, [NewParseError(ts[pos], "Expect expression.")])
  {
    PrimaryIsExpression(ts, pos, v);
  }

  /** Arguments that parse but no `)` after them (`f(x;`): as written `finishCall`
      dereferences the nil `paren` `consume` returns; corrected, it returns the callee with
      "Expect ')' after arguments." at the token found instead. */
  lemma {:induction false} UnclosedArguments(ts: seq<Token>, callee: Expr, pos: nat, v: Variant, arg: Expr, q: nat)
    requires ValidTokens(ts) && pos < |ts| && q < |ts| && !Check(ts, pos, Tokens.RightParenthesis)
    requires ParseAssignment(ts, pos, v) == Parsed(arg, q, [])
    requires !Check(ts, q, Tokens.Comma) && !Check(ts, q, Tokens.RightParenthesis)
    ensures FinishCall(ts, callee, pos, v)
      == if v == AsWritten then Panic else Parsed(callee, q, [NewParseError(ts[q], "Expect ')' after arguments.")])
  {
    assert ParseArguments(ts, callee, pos, [], v) == Listed([arg], q);
  }

  /** `()`: a call without arguments. */
  lemma EmptyArguments(ts: seq<Token>, callee: Expr, pos: nat, v: Variant)
    requires ValidTokens(ts) && pos + 1 < |ts| && ts[pos].kind == Tokens.RightParenthesis
    ensures FinishCall(ts, callee, pos, v) == Parsed(Call(callee, ts[pos], []), pos + 1, [])
  {
  }

  /** `(-)`: the argument's error ends `finishCall`, the `)` consumed. */
  lemma {:induction false} ArgumentFails(ts: seq<Token>, callee: Expr, pos: nat, v: Variant)
    requires ValidTokens(ts) && pos + 2 < |ts| && ts[pos].kind == Tokens.Minus && ts[pos + 1].kind == Tokens.RightParenthesis
    requires !Check(ts, pos + 2, Tokens.And) && !Check(ts, pos + 2, Tokens.Or)
    ensures FinishCall(ts, callee, pos, v) == Parsed(NoExpr, pos + 2, [NewParseError(ts[pos + 1], "Expect expression.")])
  {
    MinusBeforeParen(ts, pos, v);
  }

  /** One turn of `call`'s loop at a `(`: the call `finishCall` parses wraps the expression
      so far, unless (corrected) it failed. */
  lemma CallStep(ts: seq<Token>, e: Expr, p: nat, err: seq<ParseError>, v: Variant, f: Parsed<Expr>)
    requires ValidTokens(ts) && p + 1 < |ts| && ts[p].kind == Tokens.LeftParenthesis && (v == Corrected ==> err == [])
    requires FinishCall(ts, e, p + 1, v) == f && f.Parsed?
    ensures CallLoop(ts, e, p, err, v)
      == if v == Corrected && f.errs != [] then f else CallLoop(ts, f.value, f.pos, f.errs, v)
  {
  }

  /** `call`'s loop ends before a token that is neither `(` nor `.`. */
  lemma CallEnds(ts: seq<Token>, e: Expr, p: nat, err: seq<ParseError>, v: Variant)
    requires ValidTokens(ts) && p < |ts| && ts[p].kind != Tokens.LeftParenthesis && ts[p].kind != Tokens.Dot
    requires v == Corrected ==> err == []
    ensures CallLoop(ts, e, p, err, v) == Parsed(e, p, err)
  {
    assert !Check(ts, p, Tokens.LeftParenthesis) && !Check(ts, p, Tokens.Dot);
  }

  /** `f(-)();`: the first argument list fails. As written `call` goes on, and the second,
      empty, call overwrites the error: the result is a call of a nil callee, without error.
      Corrected, the first error ends `call`. */
  lemma {:induction false} ErrorOverwrittenInCallChain(ts: seq<Token>, pos: nat, v: Variant)
    requires ValidTokens(ts) && pos + 6 < |ts|
    requires ts[pos].kind == Tokens.Identifier && ts[pos + 1].kind == Tokens.LeftParenthesis
    requires ts[pos + 2].kind == Tokens.Minus && ts[pos + 3].kind == Tokens.RightParenthesis
    requires ts[pos + 4].kind == Tokens.LeftParenthesis && ts[pos + 5].kind == Tokens.RightParenthesis
    requires ts[pos + 6].kind == Tokens.Semicolon
    ensures ParseCall(ts, pos, v)
      == if v == AsWritten then Parsed(Call(NoExpr, ts[pos + 5], []), pos + 6, [])
         else Parsed(NoExpr, pos + 4, [NewParseError(ts[pos + 3], "Expect expression.")])
  {
    var name := Variable(ts[pos], pos);
    assert SimplePrimary(ts, pos) == Some(name);
    assert ParseCall(ts, pos, v) == CallLoop(ts, name, pos + 1, [], v);
    ArgumentFails(ts, name, pos + 2, v);
    var failed := Parsed(NoExpr, pos + 4, [NewParseError(ts[pos + 3], "Expect expression.")]);
    CallStep(ts, name, pos + 1, [], v, failed);
    if v == AsWritten {
      var called := Call(NoExpr, ts[pos + 5], []);
      EmptyArguments(ts, NoExpr, pos + 5, v);
      CallStep(ts, NoExpr, pos + 4, failed.errs, v, Parsed(called, pos + 6, []));
      CallEnds(ts, called, pos + 6, [], v);
    }
  }

  /** `1 2 print 3;`: the first statement lacks its `;`, the error is at `2`, and recovery
      starts there. */
  predicate MissingSemicolon(ts: seq<Token>)
  {
    ValidTokens(ts) && HasKinds(ts, [Tokens.Number, Tokens.Number, Tokens.Print, Tokens.Number, Tokens.Semicolon, Tokens.EOF])
  }

  /** As written, recovery skips the whole `print 3;`; corrected, it stops before `print`. */
  lemma {:induction false} RecoveryAfterMissingSemicolon(ts: seq<Token>)
    requires MissingSemicolon(ts)
    ensures Synchronized(ts, 1, AsWritten) == 5
    ensures Synchronized(ts, 1, Corrected) == 2
  {
    AsWrittenSynchronizeSkipsKeywords(ts, 1);
  }

  lemma {:induction false} NameStatement(ts: seq<Token>, pos: nat, v: Variant)
    requires ValidTokens(ts) && pos + 2 < |ts| && ts[pos].kind == Tokens.Identifier && ts[pos + 1].kind == Tokens.Semicolon
    ensures ParseStatement(ts, pos, v) == Parsed(Expression(Variable(ts[pos], pos)), pos + 2, [])
  {
    assert ParseAssignment(ts, pos, v) == Parsed(Variable(ts[pos], pos), pos + 1, []) by {
      AtomIsExpression(ts, pos, v);
    }
    ExpressionStatement(ts, pos, v, Variable(ts[pos], pos), pos + 1);
  }

  /** An expression statement with no statement keyword before it. */
  lemma ExpressionStatement(ts: seq<Token>, pos: nat, v: Variant, e: Expr, q: nat)
    requires ValidTokens(ts) && pos < |ts| && q < |ts| && ts[q].kind == Tokens.Semicolon
    requires ts[pos].kind !in {Tokens.For, Tokens.While, Tokens.If, Tokens.Print, Tokens.LeftBrace, Tokens.Return}
    requires ParseAssignment(ts, pos, v) == Parsed(e, q, [])
    ensures ParseStatement(ts, pos, v) == Parsed(Expression(e), q + 1, [])
  {
    StatementIsExpression(ts, pos, v);
    ExpressionStatementEnds(ts, pos, v, e, q);
  }

  /** A statement that starts with no statement keyword and no `{` is an expression statement. */
  lemma StatementIsExpression(ts: seq<Token>, pos: nat, v: Variant)
    requires ValidTokens(ts) && pos < |ts|
    requires ts[pos].kind !in {Tokens.For, Tokens.While, Tokens.If, Tokens.Print, Tokens.LeftBrace, Tokens.Return}
    ensures ParseStatement(ts, pos, v) == ParseExprStmt(ts, pos, false, v)
  {
    assert !Check(ts, pos, Tokens.For) && !Check(ts, pos, Tokens.While) && !Check(ts, pos, Tokens.If);
    assert !Check(ts, pos, Tokens.Print) && !Check(ts, pos, Tokens.LeftBrace) && !Check(ts, pos, Tokens.Return);
  }

  /** An expression statement whose expression parses and is followed by `;`. */
  lemma ExpressionStatementEnds(ts: seq<Token>, pos: nat, v: Variant, e: Expr, q: nat)
    requires ValidTokens(ts) && pos < |ts| && q < |ts| && ts[q].kind == Tokens.Semicolon
    requires ParseAssignment(ts, pos, v) == Parsed(e, q, [])
    ensures ParseExprStmt(ts, pos, false, v) == Parsed(Expression(e), q + 1, [])
  {
  }

  /** As written, a `while` whose condition and body parse reports its body's errors only: the
      condition's errors (the "Expect expression." of `while (-) x;`, say) and a missing `(`
      or `)` are lost. */
  lemma {:induction false} WhileDropsConditionErrors(ts: seq<Token>, pos: nat, cond: Expr, condEnd: nat,
      condErrs: seq<ParseError>, body: Stmt, bodyEnd: nat, bodyErrs: seq<ParseError>)
    requires ValidTokens(ts) && pos < |ts| && condEnd < |ts|
    requires ParseAssignment(ts, Skip(ts, pos, Tokens.LeftParenthesis), AsWritten) == Parsed(cond, condEnd, condErrs)
    requires ParseStatement(ts, Skip(ts, condEnd, Tokens.RightParenthesis), AsWritten) == Parsed(body, bodyEnd, bodyErrs)
    ensures ParseWhile(ts, pos, AsWritten) == Parsed(While(cond, body), bodyEnd, bodyErrs)
  {
  }

  /** Corrected, it reports the errors of its `(`, condition, `)` and body, in that order. */
  lemma {:induction false} WhileReportsConditionErrors(ts: seq<Token>, pos: nat, cond: Expr, condEnd: nat,
      condErrs: seq<ParseError>, body: Stmt, bodyEnd: nat, bodyErrs: seq<ParseError>)
    requires ValidTokens(ts) && pos < |ts| && condEnd < |ts|
    requires ParseAssignment(ts, Skip(ts, pos, Tokens.LeftParenthesis), Corrected) == Parsed(cond, condEnd, condErrs)
    requires ParseStatement(ts, Skip(ts, condEnd, Tokens.RightParenthesis), Corrected) == Parsed(body, bodyEnd, bodyErrs)
    ensures ParseWhile(ts, pos, Corrected) == Parsed(While(cond, body), bodyEnd,
      ConsumeErrs(ts, pos, Tokens.LeftParenthesis, "Expect '(' after 'if'.") + condErrs
      + ConsumeErrs(ts, condEnd, Tokens.RightParenthesis, "Expect ')' after 'if'.") + bodyErrs)
  {
    var c := ParseAssignment(ts, Skip(ts, pos, Tokens.LeftParenthesis), Corrected);
    var b := ParseStatement(ts, Skip(ts, c.pos, Tokens.RightParenthesis), Corrected);
    assert c.pos == condEnd && b.pos == bodyEnd && !b.Panic?;
  }

  /** `ifStatement` whose condition, branch and `else` part parse: the errors of `(` and
      `)`, and (corrected only) the condition's, then the branches'. */
  lemma IfParsed(ts: seq<Token>, pos: nat, v: Variant, cond: Expr, condEnd: nat,
      condErrs: seq<ParseError>, thenBranch: Stmt, thenEnd: nat, thenErrs: seq<ParseError>,
      elseBranch: Option<Stmt>, elseEnd: nat, elseErrs: seq<ParseError>)
    requires ValidTokens(ts) && pos < |ts| && condEnd < |ts| && thenEnd < |ts|
    requires ParseAssignment(ts, Skip(ts, pos, Tokens.LeftParenthesis), v) == Parsed(cond, condEnd, condErrs)
    requires ParseStatement(ts, Skip(ts, condEnd, Tokens.RightParenthesis), v) == Parsed(thenBranch, thenEnd, thenErrs)
    requires ParseElse(ts, thenEnd, v) == Parsed(elseBranch, elseEnd, elseErrs)
    ensures var open := ConsumeErrs(ts, pos, Tokens.LeftParenthesis, "Expect '(' after 'if'.");
      var close := ConsumeErrs(ts, condEnd, Tokens.RightParenthesis, "Expect ')' after 'if'.");
      ParseIf(ts, pos, v) == Parsed(If(cond, thenBranch, elseBranch), elseEnd,
        if v == AsWritten then open + close + thenErrs + elseErrs else open + condErrs + close + thenErrs + elseErrs)
  {
    var c := ParseAssignment(ts, Skip(ts, pos, Tokens.LeftParenthesis), v);
    var t := ParseStatement(ts, Skip(ts, c.pos, Tokens.RightParenthesis), v);
    var e := ParseElse(ts, t.pos, v);
    assert c.pos == condEnd && t.pos == thenEnd && !e.Panic?;
  }

  /** As written, an `if` whose condition and branches parse reports the errors of its `(`,
      `)` and branches, but not its condition's. */
  lemma {:induction false} IfDropsConditionErrors(ts: seq<Token>, pos: nat, cond: Expr, condEnd: nat,
      condErrs: seq<ParseError>, thenBranch: Stmt, thenEnd: nat, thenErrs: seq<ParseError>,
      elseBranch: Option<Stmt>, elseEnd: nat, elseErrs: seq<ParseError>)
    requires ValidTokens(ts) && pos < |ts| && condEnd < |ts| && thenEnd < |ts|
    requires ParseAssignment(ts, Skip(ts, pos, Tokens.LeftParenthesis), AsWritten) == Parsed(cond, condEnd, condErrs)
    requires ParseStatement(ts, Skip(ts, condEnd, Tokens.RightParenthesis), AsWritten) == Parsed(thenBranch, thenEnd, thenErrs)
    requires ParseElse(ts, thenEnd, AsWritten) == Parsed(elseBranch, elseEnd, elseErrs)
    ensures ParseIf(ts, pos, AsWritten) == Parsed(If(cond, thenBranch, elseBranch), elseEnd,
      ConsumeErrs(ts, pos, Tokens.LeftParenthesis, "Expect '(' after 'if'.")
      + ConsumeErrs(ts, condEnd, Tokens.RightParenthesis, "Expect ')' after 'if'.") + thenErrs + elseErrs)
  {
    IfParsed(ts, pos, AsWritten, cond, condEnd, condErrs, thenBranch, thenEnd, thenErrs, elseBranch, elseEnd, elseErrs);
  }

  /** Corrected, the condition's errors come between those of `(` and `)`. */
  lemma {:induction false} IfReportsConditionErrors(ts: seq<Token>, pos: nat, cond: Expr, condEnd: nat,
      condErrs: seq<ParseError>, thenBranch: Stmt, thenEnd: nat, thenErrs: seq<ParseError>,
      elseBranch: Option<Stmt>, elseEnd: nat, elseErrs: seq<ParseError>)
    requires ValidTokens(ts) && pos < |ts| && condEnd < |ts| && thenEnd < |ts|
    requires ParseAssignment(ts, Skip(ts, pos, Tokens.LeftParenthesis), Corrected) == Parsed(cond, condEnd, condErrs)
    requires ParseStatement(ts, Skip(ts, condEnd, Tokens.RightParenthesis), Corrected) == Parsed(thenBranch, thenEnd, thenErrs)
    requires ParseElse(ts, thenEnd, Corrected) == Parsed(elseBranch, elseEnd, elseErrs)
    ensures ParseIf(ts, pos, Corrected) == Parsed(If(cond, thenBranch, elseBranch), elseEnd,
      ConsumeErrs(ts, pos, Tokens.LeftParenthesis, "Expect '(' after 'if'.") + condErrs
      + ConsumeErrs(ts, condEnd, Tokens.RightParenthesis, "Expect ')' after 'if'.") + thenErrs + elseErrs)
  {
    IfParsed(ts, pos, Corrected, cond, condEnd, condErrs, thenBranch, thenEnd, thenErrs, elseBranch, elseEnd, elseErrs);
  }
}
