/** The AST pretty-printer (golox/internal/expr/printer.go): renders the four expression
    shapes of expr.go as a parenthesised prefix form. */
module Printer {
  import opened Tokens
  import opened Ast
  import Scanner

  /** The shapes the printer has a visit method for, all the way down. */
  predicate Printable(e: Expr)
  {
    match e
    case Unary(_, r) => Printable(r)
    case Binary(l, _, r) => Printable(l) && Printable(r)
    case Literal(_, _, _) => true
    case Grouping(inner) => Printable(inner)
    case _ => false
  }

  // ---------------------------------------------------------------------------------
  // Integer text

  function DigitChar(d: nat): (c: char)
    requires d < 10
    ensures Scanner.IsDigit(c) && c as int - '0' as int == d
  {
    (d + '0' as int) as char
  }

  /** The decimal text of a natural number, without leading zeros. */
  function NatText(n: nat): (s: string)
    ensures |s| >= 1
    ensures forall i :: 0 <= i < |s| ==> Scanner.IsDigit(s[i])
  {
    if n < 10 then [DigitChar(n)] else NatText(n / 10) + [DigitChar(n % 10)]
  }

  /** `strconv.Itoa`: a minus sign for negative numbers, then the digits. */
  function IntText(i: int): string
  {
    if i < 0 then "-" + NatText(-i) else NatText(i)
  }

  /** The integer a float converts to in Go: truncated toward zero. */
  function Truncate(x: real): int
  {
    if x >= 0.0 then x.Floor else -((-x).Floor)
  }

  // ---------------------------------------------------------------------------------
  // The printer

  /** `parenthesize` over already printed operands: "(" name, then " " and each operand,
      then ")". */
  function Parenthesized(name: string, parts: seq<string>): string
  {
    "(" + name + Spaced(parts) + ")"
  }

  function Spaced(parts: seq<string>): string
  {
    if parts == [] then "" else Spaced(parts[..|parts| - 1]) + (" " + parts[|parts| - 1])
  }

  /** The operator name: the display string of the token's kind (`Token.String`). */
  function OperatorName(op: Token): string
  {
    TokenString(op)
  }

  /** `visitLiteralExpr`. */
  function LiteralText(t: LiteralType, n: real, s: string): string
  {
    match t
    case NumberType => IntText(Truncate(n))
    case StringType => s
    case BoolType => if n != 0.0 then "true" else "false"
    case NilType => "nil"
  }

  /** `print`: the rendering of a printable expression. */
  function Print(e: Expr): string
    requires Printable(e)
  {
    match e
    case Unary(op, r) => Parenthesized(OperatorName(op), [Print(r)])
    case Binary(l, op, r) => Parenthesized(OperatorName(op), [Print(l), Print(r)])
    case Literal(t, n, s) => LiteralText(t, n, s)
    case Grouping(inner) => Parenthesized("group", [Print(inner)])
  }

  function PrintAll(es: seq<Expr>): (r: seq<string>)
    requires forall i :: 0 <= i < |es| ==> Printable(es[i])
    ensures |r| == |es|
    ensures forall i :: 0 <= i < |es| ==> r[i] == Print(es[i])
  {
    if es == [] then [] else PrintAll(es[..|es| - 1]) + [Print(es[|es| - 1])]
  }

  /** `parenthesize`: writes "(" and the name into a buffer, then " " and each printed
      operand, then ")". */
  method Parenthesize(name: string, es: seq<Expr>) returns (s: string)
    requires forall i :: 0 <= i < |es| ==> Printable(es[i])
    ensures s == Parenthesized(name, PrintAll(es))
  {
    var buffer := "(";
    buffer := buffer + name;
    ghost var prefix := buffer;
    ghost var parts := PrintAll(es);
    for k := 0 to |es|
      invariant buffer == prefix + Spaced(parts[..k])
    {
      var piece := Print(es[k]);
      SpacedStep(prefix, parts, k);
      buffer := buffer + (" " + piece);
    }
    assert parts[..|es|] == parts;
    buffer := buffer + ")";
    return buffer;
  }

  /** Writing " " and the next operand after a prefix extends the spaced operands by one. */
  lemma SpacedStep(prefix: string, parts: seq<string>, k: nat)
    requires k < |parts|
    ensures prefix + Spaced(parts[..k]) + (" " + parts[k]) == prefix + Spaced(parts[..k + 1])
  {
    assert parts[..k + 1][..k] == parts[..k];
  }

  // ---------------------------------------------------------------------------------
  // Properties

  /** Reading the digits back (as the scanner does) gives the number. */
  lemma {:induction false} NatTextRoundTrip(n: nat)
    ensures Scanner.DigitsValue(NatText(n)) == n
  {
    if n >= 10 {
      var s := NatText(n);
      assert s[..|s| - 1] == NatText(n / 10);
      NatTextRoundTrip(n / 10);
    }
  }

  /** The printed number is the truncated value; a whole number prints as itself. */
  lemma IntTextOfWholeNumber(k: nat)
    ensures Truncate(k as real) == k && IntText(Truncate(k as real)) == NatText(k)
    ensures Truncate(-(k as real)) == -(k as int)
  {
  }

  function Count(s: string, c: char): nat
  {
    if s == [] then 0 else Count(s[..|s| - 1], c) + (if s[|s| - 1] == c then 1 else 0)
  }

  lemma {:induction false} CountAppend(s: string, t: string, c: char)
    ensures Count(s + t, c) == Count(s, c) + Count(t, c)
    decreases |t|
  {
    if t == [] {
      assert s + t == s;
    } else {
      assert (s + t)[..|s + t| - 1] == s + t[..|t| - 1];
      CountAppend(s, t[..|t| - 1], c);
    }
  }

  predicate Balanced(s: string)
  {
    Count(s, '(') == Count(s, ')')
  }

  /** Texts of the tree with no parenthesis of their own: string literals and operator
      names. */
  predicate ParenFree(e: Expr)
    requires Printable(e)
  {
    match e
    case Unary(op, r) => Count(OperatorName(op), '(') == 0 && Count(OperatorName(op), ')') == 0 && ParenFree(r)
    case Binary(l, op, r) => Count(OperatorName(op), '(') == 0 && Count(OperatorName(op), ')') == 0 && ParenFree(l) && ParenFree(r)
    case Literal(t, _, s) => t == StringType ==> Count(s, '(') == 0 && Count(s, ')') == 0
    case Grouping(inner) => ParenFree(inner)
  }

  lemma NatTextParenFree(n: nat)
    ensures Count(NatText(n), '(') == 0 && Count(NatText(n), ')') == 0
  {
    var s := NatText(n);
    CountNoOccurrence(s, '(');
    CountNoOccurrence(s, ')');
  }

  lemma {:induction false} CountNoOccurrence(s: string, c: char)
    requires forall i :: 0 <= i < |s| ==> s[i] != c
    ensures Count(s, c) == 0
  {
    if s != [] {
      CountNoOccurrence(s[..|s| - 1], c);
    }
  }

  /** The rendering is a well-parenthesised S-expression: when no operator name or string
      literal brings a parenthesis of its own, it opens as many parentheses as it closes. */
  lemma {:induction false} PrintBalanced(e: Expr)
    requires Printable(e) && ParenFree(e)
    ensures Balanced(Print(e))
  {
    match e
    case Unary(op, r) =>
      PrintBalanced(r);
      ParenthesizedCounts(OperatorName(op), [Print(r)]);
    case Binary(l, op, r) =>
      PrintBalanced(l);
      PrintBalanced(r);
      ParenthesizedCounts(OperatorName(op), [Print(l), Print(r)]);
    case Literal(t, n, s) =>
      LiteralBalanced(t, n, s);
    case Grouping(inner) =>
      PrintBalanced(inner);
      CountNoOccurrence("group", '(');
      CountNoOccurrence("group", ')');
      ParenthesizedCounts("group", [Print(inner)]);
  }

  /** A literal's text has no parenthesis unless it is a string that brings its own. */
  lemma LiteralBalanced(t: LiteralType, n: real, s: string)
    requires t == StringType ==> Count(s, '(') == 0 && Count(s, ')') == 0
    ensures Balanced(LiteralText(t, n, s))
  {
    match t
    case NumberType =>
      var i := Truncate(n);
      NatTextParenFree(if i < 0 then -i else i);
      if i < 0 {
        CountAppend("-", NatText(-i), '(');
        CountAppend("-", NatText(-i), ')');
        CountNoOccurrence("-", '(');
        CountNoOccurrence("-", ')');
      }
    case StringType =>
    case BoolType =>
      CountNoOccurrence("true", '(');
      CountNoOccurrence("true", ')');
      CountNoOccurrence("false", '(');
      CountNoOccurrence("false", ')');
    case NilType =>
      CountNoOccurrence("nil", '(');
      CountNoOccurrence("nil", ')');
  }

  /** Parenthesising balanced operands under a parenthesis-free name is balanced. */
  lemma ParenthesizedCounts(name: string, parts: seq<string>)
    requires Count(name, '(') == 0 && Count(name, ')') == 0
    requires forall i :: 0 <= i < |parts| ==> Balanced(parts[i])
    ensures Balanced(Parenthesized(name, parts))
  {
    CountAppend("(", name, '(');
    CountAppend("(", name, ')');
    CountAppend("(" + name, Spaced(parts), '(');
    CountAppend("(" + name, Spaced(parts), ')');
    CountAppend("(" + name + Spaced(parts), ")", '(');
    CountAppend("(" + name + Spaced(parts), ")", ')');
    SpacedBalanced(parts);
    assert "("[..0] == [] && ")"[..0] == [];
  }

  lemma {:induction false} SpacedBalanced(parts: seq<string>)
    requires forall i :: 0 <= i < |parts| ==> Balanced(parts[i])
    ensures Balanced(Spaced(parts))
  {
    if parts != [] {
      var init := parts[..|parts| - 1];
      var last := parts[|parts| - 1];
      SpacedBalanced(init);
      CountAppend(Spaced(init), " " + last, '(');
      CountAppend(Spaced(init), " " + last, ')');
      CountAppend(" ", last, '(');
      CountAppend(" ", last, ')');
      assert " "[..0] == [];
    }
  }

  /** The printer test: -123 * (45) renders as "(* (- 123) (group 45))". */
  lemma PrintsProductOfNegationAndGroup()
    ensures var e := NewBinary(
        NewUnary(Token(Minus, "-", "", 0.0, 1), NewLiteral(NumberType, 123.0, "")),
        NewGroup(NewLiteral(NumberType, 45.0, "")),
        Token(Star, "*", "", 0.0, 1));
      Printable(e) && Print(e) == "(* (- 123) (group 45))"
  {
    PrintsNegation();
    PrintsGroup();
    KindNameOfKind(Star);
    ParenthesizesProduct();
  }

  lemma ParenthesizesProduct()
    ensures Parenthesized("*", ["(- 123)", "(group 45)"]) == "(* (- 123) (group 45))"
  {
    SpacesProductOperands();
    assert "(" + "*" + " (- 123) (group 45)" + ")" == "(* (- 123) (group 45))";
  }

  lemma SpacesProductOperands()
    ensures Spaced(["(- 123)", "(group 45)"]) == " (- 123) (group 45)"
  {
    assert ["(- 123)", "(group 45)"][..1] == ["(- 123)"];
    assert ["(- 123)"][..0] == [];
  }

  lemma PrintsNegation()
    ensures Print(NewUnary(Token(Minus, "-", "", 0.0, 1), NewLiteral(NumberType, 123.0, ""))) == "(- 123)"
  {
    assert NatText(123) == "123" by {
      assert NatText(12) == "12" by { assert NatText(1) == "1"; }
    }
    assert IntText(Truncate(123.0)) == "123";
    KindNameOfKind(Minus);
    assert OperatorName(Token(Minus, "-", "", 0.0, 1)) == "-";
    assert Spaced(["123"]) == " 123" by { assert ["123"][..0] == []; }
  }

  lemma PrintsGroup()
    ensures Print(NewGroup(NewLiteral(NumberType, 45.0, ""))) == "(group 45)"
  {
    assert NatText(45) == "45" by { assert NatText(4) == "4"; }
    assert IntText(Truncate(45.0)) == "45";
    assert Spaced(["45"]) == " 45" by { assert ["45"][..0] == []; }
  }
}
