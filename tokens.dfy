/** Token kinds, their display strings, the reserved-word table and the token record of
    the tree-walking interpreter (golox/internal/scanner/token.go). */
module Tokens {
  import opened Wrappers

  /** The lexical categories, in declaration order. */
  datatype TokenKind =
    | LeftParenthesis | RightParenthesis | LeftBrace | RightBrace | Comma | Dot | Minus | Plus
    | Semicolon | Slash | Star | Meaningless | Bang | Equal | Greater | Less
    | BangEqual | EqualEqual | GreaterEqual | LessEqual
    | Identifier | String | Number
    | And | Class | Else | False | Fun | For | If | Nil | Or | Print | Return | Super | This
    | True | Var | While
    | EOF

  /** Number of token kinds, LeftParenthesis (0) through EOF (39). */
  const KindCount: nat := 40

  /** The integer the Go `iota` enumeration gives each kind. */
  function Ordinal(k: TokenKind): (n: nat)
    ensures n < KindCount
  {
    match k
    case LeftParenthesis => 0
    case RightParenthesis => 1
    case LeftBrace => 2
    case RightBrace => 3
    case Comma => 4
    case Dot => 5
    case Minus => 6
    case Plus => 7
    case Semicolon => 8
    case Slash => 9
    case Star => 10
    case Meaningless => 11
    case Bang => 12
    case Equal => 13
    case Greater => 14
    case Less => 15
    case BangEqual => 16
    case EqualEqual => 17
    case GreaterEqual => 18
    case LessEqual => 19
    case Identifier => 20
    case String => 21
    case Number => 22
    case And => 23
    case Class => 24
    case Else => 25
    case False => 26
    case Fun => 27
    case For => 28
    case If => 29
    case Nil => 30
    case Or => 31
    case Print => 32
    case Return => 33
    case Super => 34
    case This => 35
    case True => 36
    case Var => 37
    case While => 38
    case EOF => 39
  }

  /** The kind an integer `TokenKind` value denotes, if any; the inverse of `Ordinal`. */
  function KindOf(n: int): Option<TokenKind>
  {
    match n
    case 0 => Some(LeftParenthesis)
    case 1 => Some(RightParenthesis)
    case 2 => Some(LeftBrace)
    case 3 => Some(RightBrace)
    case 4 => Some(Comma)
    case 5 => Some(Dot)
    case 6 => Some(Minus)
    case 7 => Some(Plus)
    case 8 => Some(Semicolon)
    case 9 => Some(Slash)
    case 10 => Some(Star)
    case 11 => Some(Meaningless)
    case 12 => Some(Bang)
    case 13 => Some(Equal)
    case 14 => Some(Greater)
    case 15 => Some(Less)
    case 16 => Some(BangEqual)
    case 17 => Some(EqualEqual)
    case 18 => Some(GreaterEqual)
    case 19 => Some(LessEqual)
    case 20 => Some(Identifier)
    case 21 => Some(String)
    case 22 => Some(Number)
    case 23 => Some(And)
    case 24 => Some(Class)
    case 25 => Some(Else)
    case 26 => Some(False)
    case 27 => Some(Fun)
    case 28 => Some(For)
    case 29 => Some(If)
    case 30 => Some(Nil)
    case 31 => Some(Or)
    case 32 => Some(Print)
    case 33 => Some(Return)
    case 34 => Some(Super)
    case 35 => Some(This)
    case 36 => Some(True)
    case 37 => Some(Var)
    case 38 => Some(While)
    case 39 => Some(EOF)
    case _ => None
  }

  /** The `kind_2_string` entry of a declared kind. */
  function Display(k: TokenKind): string
  {
    match k
    case LeftParenthesis => "("
    case RightParenthesis => ")"
    case LeftBrace => "{"
    case RightBrace => "}"
    case Comma => ","
    case Dot => "."
    case Minus => "-"
    case Plus => "+"
    case Semicolon => ";"
    case Slash => "\\"
    case Star => "*"
    case Meaningless => "0"
    case Bang => "!"
    case Equal => "="
    case Greater => ">"
    case Less => "<"
    case BangEqual => "!="
    case EqualEqual => "=="
    case GreaterEqual => ">="
    case LessEqual => "<="
    case Identifier => "Identifier"
    case String => "String"
    case Number => "Number"
    case And => "And"
    case Class => "Class"
    case Else => "Else"
    case False => "False"
    case Fun => "Fun"
    case For => "For"
    case If => "If"
    case Nil => "Nil"
    case Or => "Or"
    case Print => "Print"
    case Return => "Return"
    case Super => "Super"
    case This => "This"
    case True => "True"
    case Var => "Var"
    case While => "While"
    case EOF => "EOF"
  }

  /** `TokenKind.String` on an arbitrary integer kind value: the table entry inside
      LeftParenthesis..EOF, a fixed fallback text outside it. */
  function KindName(t: int): string
  {
    if Ordinal(LeftParenthesis) <= t && t <= Ordinal(EOF) then
      match KindOf(t)
      case Some(k) => Display(k)
      case None => "Not a valid literal"
    else "Not a valid literal"
  }

  /** Kinds produced by reserved words: And..While. */
  predicate IsKeywordKind(k: TokenKind)
  {
    k.And? || k.Class? || k.Else? || k.False? || k.Fun? || k.For? || k.If? || k.Nil? ||
    k.Or? || k.Print? || k.Return? || k.Super? || k.This? || k.True? || k.Var? || k.While?
  }

  /** The keyword kinds are the contiguous block And..While of the enumeration. */
  lemma KeywordKindsAreARange(k: TokenKind)
    ensures IsKeywordKind(k) <==> Ordinal(And) <= Ordinal(k) <= Ordinal(While)
  {
  }

  /** The reserved-word table (`Keywords`); lookup is by exact, case-sensitive text. */
  const Keywords: map<string, TokenKind> := map[
    "and" := And, "class" := Class, "else" := Else, "false" := False,
    "fun" := Fun, "for" := For, "if" := If, "nil" := Nil,
    "or" := Or, "print" := Print, "return" := Return, "super" := Super,
    "this" := This, "true" := True, "var" := Var, "while" := While
  ]

  /** A scanned token. The Go record's `Value` is a float64 that is NaN for every
      non-number token; here it is an exact real and 0.0 stands for that NaN. */
  datatype Token = Token(kind: TokenKind, lexeme: string, literal: string, value: real, line: int)

  /** `Token.String`: the display string of the token's kind. */
  function TokenString(t: Token): string
  {
    KindName(Ordinal(t.kind))
  }

  /** ASCII lower-casing, used to relate the reserved words to the kinds' display names. */
  function Lower(s: string): (r: string)
    ensures |r| == |s|
    ensures forall i :: 0 <= i < |s| ==> r[i] == LowerChar(s[i])
  {
    seq(|s|, i requires 0 <= i < |s| => LowerChar(s[i]))
  }

  function LowerChar(c: char): char
  {
    if 'A' <= c <= 'Z' then (c as int + 32) as char else c
  }

  // ---------------------------------------------------------------------------------
  // Properties of the tables

  /** Reads a display string back to its kind; the inverse of `Display`. */
  function KindOfName(s: string): Option<TokenKind>
  {
    if |s| == 0 then None
    else match s[0]
    case '(' => if s == "(" then Some(LeftParenthesis) else None
    case ')' => if s == ")" then Some(RightParenthesis) else None
    case '{' => if s == "{" then Some(LeftBrace) else None
    case '}' => if s == "}" then Some(RightBrace) else None
    case ',' => if s == "," then Some(Comma) else None
    case '.' => if s == "." then Some(Dot) else None
    case '-' => if s == "-" then Some(Minus) else None
    case '+' => if s == "+" then Some(Plus) else None
    case ';' => if s == ";" then Some(Semicolon) else None
    case '\\' => if s == "\\" then Some(Slash) else None
    case '*' => if s == "*" then Some(Star) else None
    case '0' => if s == "0" then Some(Meaningless) else None
    case '!' => if s == "!" then Some(Bang) else if s == "!=" then Some(BangEqual) else None
    case '=' => if s == "=" then Some(Equal) else if s == "==" then Some(EqualEqual) else None
    case '>' => if s == ">" then Some(Greater) else if s == ">=" then Some(GreaterEqual) else None
    case '<' => if s == "<" then Some(Less) else if s == "<=" then Some(LessEqual) else None
    case 'I' => if s == "Identifier" then Some(Identifier) else if s == "If" then Some(If) else None
    case 'S' => if s == "String" then Some(String) else if s == "Super" then Some(Super) else None
    case 'N' => if s == "Number" then Some(Number) else if s == "Nil" then Some(Nil) else None
    case 'A' => if s == "And" then Some(And) else None
    case 'C' => if s == "Class" then Some(Class) else None
    case 'E' => if s == "Else" then Some(Else) else if s == "EOF" then Some(EOF) else None
    case 'F' => if s == "False" then Some(False) else if s == "Fun" then Some(Fun) else if s == "For" then Some(For) else None
    case 'O' => if s == "Or" then Some(Or) else None
    case 'P' => if s == "Print" then Some(Print) else None
    case 'R' => if s == "Return" then Some(Return) else None
    case 'T' => if s == "This" then Some(This) else if s == "True" then Some(True) else None
    case 'V' => if s == "Var" then Some(Var) else None
    case 'W' => if s == "While" then Some(While) else None
    case _ => None
  }

  /** Every kind's integer value denotes that kind. */
  lemma OrdinalRoundTrip(k: TokenKind)
    ensures KindOf(Ordinal(k)) == Some(k)
  {
    if Ordinal(k) < 20 {
      OrdinalRoundTripBelow(k);
    } else {
      OrdinalRoundTripAbove(k);
    }
  }

  lemma OrdinalRoundTripBelow(k: TokenKind)
    requires Ordinal(k) < 20
    ensures KindOf(Ordinal(k)) == Some(k)
  {
    match k
    case LeftParenthesis =>  case RightParenthesis =>  case LeftBrace =>  case RightBrace =>
    case Comma =>  case Dot =>  case Minus =>  case Plus =>  case Semicolon =>  case Slash =>
    case Star =>  case Meaningless =>  case Bang =>  case Equal =>  case Greater =>  case Less =>
    case BangEqual =>  case EqualEqual =>  case GreaterEqual =>  case LessEqual =>
    case _ => assert false;
  }

  lemma OrdinalRoundTripAbove(k: TokenKind)
    requires Ordinal(k) >= 20
    ensures KindOf(Ordinal(k)) == Some(k)
  {
    match k
    case Identifier =>  case String =>  case Number =>
    case And =>  case Class =>  case Else =>  case False =>  case Fun =>  case For =>  case If =>
    case Nil =>  case Or =>  case Print =>  case Return =>  case Super =>  case This =>  case True =>
    case Var =>  case While =>  case EOF =>
    case _ => assert false;
  }

  /** Exactly the integers 0..39 denote a kind, and each denotes the kind whose value it is. */
  lemma KindOfRoundTrip(n: int)
    ensures KindOf(n).Some? <==> 0 <= n < KindCount
    ensures KindOf(n).Some? ==> Ordinal(KindOf(n).value) == n
  {
  }

  /** Reading a kind's display string back gives the kind, so no two kinds share one. */
  lemma DisplayRoundTrip(k: TokenKind)
    ensures KindOfName(Display(k)) == Some(k)
  {
    var n := Ordinal(k);
    if n < 12 {
      DisplayRoundTripPunctuation(k);
    } else if n < 23 {
      DisplayRoundTripOperatorsAndLiterals(k);
    } else if n < 32 {
      DisplayRoundTripKeywordsAndToOr(k);
    } else {
      DisplayRoundTripKeywordsPrintToEof(k);
    }
  }

  lemma DisplayRoundTripPunctuation(k: TokenKind)
    requires Ordinal(k) < 12
    ensures KindOfName(Display(k)) == Some(k)
  {
    match k
    case LeftParenthesis => case RightParenthesis => case LeftBrace => case RightBrace =>
    case Comma => case Dot => case Minus => case Plus => case Semicolon => case Slash =>
    case Star => case Meaningless =>
    case _ => assert false;
  }

  lemma DisplayRoundTripOperatorsAndLiterals(k: TokenKind)
    requires 12 <= Ordinal(k) < 23
    ensures KindOfName(Display(k)) == Some(k)
  {
    match k
    case Bang => case Equal => case Greater => case Less => case BangEqual => case EqualEqual =>
    case GreaterEqual => case LessEqual => case Identifier => case String => case Number =>
    case _ => assert false;
  }

  lemma DisplayRoundTripKeywordsAndToOr(k: TokenKind)
    requires 23 <= Ordinal(k) < 32
    ensures KindOfName(Display(k)) == Some(k)
  {
    match k
    case And => case Class => case Else => case False => case Fun => case For => case If =>
    case Nil => case Or =>
    case _ => assert false;
  }

  lemma DisplayRoundTripKeywordsPrintToEof(k: TokenKind)
    requires 32 <= Ordinal(k)
    ensures KindOfName(Display(k)) == Some(k)
  {
    match k
    case Print => case Return => case Super => case This => case True => case Var =>
    case While => case EOF =>
    case _ => assert false;
  }

  /** `TokenKind.String` gives "Not a valid literal" exactly outside LeftParenthesis..EOF;
      inside, the text it gives reads back to the kind with that integer value. */
  lemma KindNameCases(t: int)
    ensures KindName(t) == "Not a valid literal" <==> !(0 <= t < KindCount)
    ensures 0 <= t < KindCount ==> KindOf(t).Some? && KindOfName(KindName(t)) == KindOf(t)
  {
    KindOfRoundTrip(t);
    if 0 <= t < KindCount {
      DisplayRoundTrip(KindOf(t).value);
    }
  }

  /** On a declared kind, `TokenKind.String` is the kind's table entry. */
  lemma KindNameOfKind(k: TokenKind)
    ensures KindName(Ordinal(k)) == Display(k)
  {
    OrdinalRoundTrip(k);
  }

  /** Two tokens print alike exactly when their kinds agree. */
  lemma TokenStringDeterminesKind(a: Token, b: Token)
    ensures TokenString(a) == TokenString(b) <==> a.kind == b.kind
  {
    KindNameOfKind(a.kind);
    KindNameOfKind(b.kind);
    DisplayRoundTrip(a.kind);
    DisplayRoundTrip(b.kind);
  }

  /** `w` is a reserved word for the keyword kind `k`, and `w` is `k`'s display name
      lower-cased. */
  predicate ReservedFor(w: string, k: TokenKind)
  {
    w in Keywords && Keywords[w] == k && IsKeywordKind(k) && Lower(Display(k)) == w
  }

  lemma ReservedWordsPart1()
    ensures ReservedFor("and", And) && ReservedFor("class", Class)
  {
    assert Keywords["and"] == And && Lower("And") == "and";
    assert Keywords["class"] == Class && Lower("Class") == "class";
  }

  lemma ReservedWordsPart2()
    ensures ReservedFor("else", Else) && ReservedFor("false", False)
  {
    assert Keywords["else"] == Else && Lower("Else") == "else";
    assert Keywords["false"] == False && Lower("False") == "false";
  }

  lemma ReservedWordsPart3()
    ensures ReservedFor("fun", Fun) && ReservedFor("for", For)
  {
    assert Keywords["fun"] == Fun && Lower("Fun") == "fun";
    assert Keywords["for"] == For && Lower("For") == "for";
  }

  lemma ReservedWordsPart4()
    ensures ReservedFor("if", If) && ReservedFor("nil", Nil)
  {
    assert Keywords["if"] == If && Lower("If") == "if";
    assert Keywords["nil"] == Nil && Lower("Nil") == "nil";
  }

  lemma ReservedWordsPart5()
    ensures ReservedFor("or", Or) && ReservedFor("print", Print)
  {
    assert Keywords["or"] == Or && Lower("Or") == "or";
    assert Keywords["print"] == Print && Lower("Print") == "print";
  }

  lemma ReservedWordsPart6()
    ensures ReservedFor("return", Return) && ReservedFor("super", Super)
  {
    assert Keywords["return"] == Return && Lower("Return") == "return";
    assert Keywords["super"] == Super && Lower("Super") == "super";
  }

  lemma ReservedWordsPart7()
    ensures ReservedFor("this", This) && ReservedFor("true", True)
  {
    assert Keywords["this"] == This && Lower("This") == "this";
    assert Keywords["true"] == True && Lower("True") == "true";
  }

  lemma ReservedWordsPart8()
    ensures ReservedFor("var", Var) && ReservedFor("while", While)
  {
    assert Keywords["var"] == Var && Lower("Var") == "var";
    assert Keywords["while"] == While && Lower("While") == "while";
  }

  /** The table holds exactly the 16 lower-case reserved words. */
  lemma KeywordsDomain(w: string)
    requires w in Keywords
    ensures w == "and" || w == "class" || w == "else" || w == "false" || w == "fun" || w == "for" || w == "if" || w == "nil" || w == "or" || w == "print" || w == "return" || w == "super" || w == "this" || w == "true" || w == "var" || w == "while"
  {
  }

  /** Every reserved word maps into the keyword range And..While, and is the lower-cased
      display name of the kind it maps to. */
  lemma KeywordsAreLowerCasedNames(w: string)
    requires w in Keywords
    ensures IsKeywordKind(Keywords[w])
    ensures Lower(Display(Keywords[w])) == w
  {
    KeywordsDomain(w);
    if w == "and" || w == "class" { ReservedWordsPart1(); }
    else if w == "else" || w == "false" { ReservedWordsPart2(); }
    else if w == "fun" || w == "for" { ReservedWordsPart3(); }
    else if w == "if" || w == "nil" { ReservedWordsPart4(); }
    else if w == "or" || w == "print" { ReservedWordsPart5(); }
    else if w == "return" || w == "super" { ReservedWordsPart6(); }
    else if w == "this" || w == "true" { ReservedWordsPart7(); }
    else { ReservedWordsPart8(); }
  }

  /** Conversely, every keyword kind is reachable through the table. */
  lemma KeywordKindsAreReserved(k: TokenKind)
    requires IsKeywordKind(k)
    ensures Lower(Display(k)) in Keywords && Keywords[Lower(Display(k))] == k
  {
    match k
    case And => ReservedWordsPart1();
    case Class => ReservedWordsPart1();
    case Else => ReservedWordsPart2();
    case False => ReservedWordsPart2();
    case Fun => ReservedWordsPart3();
    case For => ReservedWordsPart3();
    case If => ReservedWordsPart4();
    case Nil => ReservedWordsPart4();
    case Or => ReservedWordsPart5();
    case Print => ReservedWordsPart5();
    case Return => ReservedWordsPart6();
    case Super => ReservedWordsPart6();
    case This => ReservedWordsPart7();
    case True => ReservedWordsPart7();
    case Var => ReservedWordsPart8();
    case While => ReservedWordsPart8();
  }

  /** Lookup is case-sensitive: "and" is reserved, "And" is an identifier. */
  lemma KeywordsCaseSensitive()
    ensures "And" !in Keywords && "and" in Keywords && Keywords["and"] == And
  {
  }
}
