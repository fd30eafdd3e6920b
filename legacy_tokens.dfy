/** The token categories of the earlier scanner snapshot (golox/token.go). Each category
    is its own Go constant block whose `iota` restarts at 0, so the integer kind a token
    carries does not say which category it came from. */
module LegacyTokens {
  import opened Wrappers
  import Tokens

  datatype SingleCharacter =
    LeftParenthesis | RightParenthesis | LeftBrace | RightBrace | Comma | Dot | Minus | Plus
    | Semicolon | Slash | Star

  datatype DoubleCharacter =
    Bang | BangEqual | Equal | EqualEqual | Greater | GreaterEqual | Less | LessEqual

  datatype Literal = Identifier | String | Number

  datatype Keyword =
    And | Class | Else | False | Fun | For | If | Nil | Or | Print | Return | Super | This
    | True | Var | While

  /** A kind together with the category it was declared in. */
  datatype Kind =
    | Single(s: SingleCharacter)
    | Double(d: DoubleCharacter)
    | Lit(l: Literal)
    | Kw(k: Keyword)
    | EOF

  function SingleValue(s: SingleCharacter): (n: nat)
    ensures n < 11
  {
    match s
    case LeftParenthesis => 0  case RightParenthesis => 1  case LeftBrace => 2
    case RightBrace => 3       case Comma => 4             case Dot => 5
    case Minus => 6            case Plus => 7              case Semicolon => 8
    case Slash => 9            case Star => 10
  }

  function DoubleValue(d: DoubleCharacter): (n: nat)
    ensures n < 8
  {
    match d
    case Bang => 0     case BangEqual => 1  case Equal => 2  case EqualEqual => 3
    case Greater => 4  case GreaterEqual => 5  case Less => 6  case LessEqual => 7
  }

  function LiteralValue(l: Literal): (n: nat)
    ensures n < 3
  {
    match l
    case Identifier => 0  case String => 1  case Number => 2
  }

  function KeywordValue(k: Keyword): (n: nat)
    ensures n < 16
  {
    match k
    case And => 0     case Class => 1   case Else => 2    case False => 3
    case Fun => 4     case For => 5     case If => 6      case Nil => 7
    case Or => 8      case Print => 9   case Return => 10 case Super => 11
    case This => 12   case True => 13   case Var => 14    case While => 15
  }

  /** The integer `TokenKind(x)` conversion gives a kind: its position inside its own
      category. */
  function Value(k: Kind): int
  {
    match k
    case Single(s) => SingleValue(s)
    case Double(d) => DoubleValue(d)
    case Lit(l) => LiteralValue(l)
    case Kw(w) => KeywordValue(w)
    case EOF => 0
  }

  /** `Literal.String` on an arbitrary integer. */
  function LiteralString(l: int): string
  {
    if 0 <= l <= 2 then ["Identifier", "String", "Number"][l] else "Not a valid literal"
  }

  /** The `keywords` table, indexed by keyword value. */
  function KeywordName(k: Keyword): string
  {
    match k
    case And => "And"      case Class => "Class"    case Else => "Else"    case False => "False"
    case Fun => "Fun"      case For => "For"        case If => "If"        case Nil => "Nil"
    case Or => "Or"        case Print => "Print"    case Return => "Return" case Super => "Super"
    case This => "This"    case True => "True"      case Var => "Var"      case While => "While"
  }

  /** The keyword whose value is `n`, if any. */
  function KeywordOf(n: int): Option<Keyword>
  {
    match n
    case 0 => Some(And)    case 1 => Some(Class)  case 2 => Some(Else)    case 3 => Some(False)
    case 4 => Some(Fun)    case 5 => Some(For)    case 6 => Some(If)      case 7 => Some(Nil)
    case 8 => Some(Or)     case 9 => Some(Print)  case 10 => Some(Return) case 11 => Some(Super)
    case 12 => Some(This)  case 13 => Some(True)  case 14 => Some(Var)    case 15 => Some(While)
    case _ => None
  }

  /** `Keyword.String` on an arbitrary integer. */
  function KeywordString(k: int): string
  {
    if 0 <= k <= 15 then
      match KeywordOf(k)
      case Some(w) => KeywordName(w)
      case None => "Not a valid keyword"
    else "Not a valid keyword"
  }

  /** The token record the earlier scanner builds: the five values of its composite
      literals, although the struct it names declares no `value` field (its `Value` is NaN
      for non-numbers, here 0.0). */
  datatype Token = Token(kind: int, lexeme: string, literal: string, value: real, line: int)

  /** The same keyword in the newer token set. */
  function Modern(k: Keyword): Tokens.TokenKind
  {
    match k
    case And => Tokens.And       case Class => Tokens.Class    case Else => Tokens.Else
    case False => Tokens.False   case Fun => Tokens.Fun        case For => Tokens.For
    case If => Tokens.If         case Nil => Tokens.Nil        case Or => Tokens.Or
    case Print => Tokens.Print   case Return => Tokens.Return  case Super => Tokens.Super
    case This => Tokens.This     case True => Tokens.True      case Var => Tokens.Var
    case While => Tokens.While
  }

  /** The legacy kind a kind of the newer token set corresponds to: the same name in its
      category. Meaningless has no legacy constant and corresponds to none. */
  function Category(k: Tokens.TokenKind): Option<Kind>
  {
    match k
    case LeftParenthesis => Some(Single(LeftParenthesis))
    case RightParenthesis => Some(Single(RightParenthesis))
    case LeftBrace => Some(Single(LeftBrace))
    case RightBrace => Some(Single(RightBrace))
    case Comma => Some(Single(Comma))
    case Dot => Some(Single(Dot))
    case Minus => Some(Single(Minus))
    case Plus => Some(Single(Plus))
    case Semicolon => Some(Single(Semicolon))
    case Slash => Some(Single(Slash))
    case Star => Some(Single(Star))
    case Meaningless => None
    case Bang => Some(Double(Bang))
    case Equal => Some(Double(Equal))
    case Greater => Some(Double(Greater))
    case Less => Some(Double(Less))
    case BangEqual => Some(Double(BangEqual))
    case EqualEqual => Some(Double(EqualEqual))
    case GreaterEqual => Some(Double(GreaterEqual))
    case LessEqual => Some(Double(LessEqual))
    case Identifier => Some(Lit(Identifier))
    case String => Some(Lit(String))
    case Number => Some(Lit(Number))
    case And => Some(Kw(And))         case Class => Some(Kw(Class))    case Else => Some(Kw(Else))
    case False => Some(Kw(False))     case Fun => Some(Kw(Fun))        case For => Some(Kw(For))
    case If => Some(Kw(If))           case Nil => Some(Kw(Nil))        case Or => Some(Kw(Or))
    case Print => Some(Kw(Print))     case Return => Some(Kw(Return))  case Super => Some(Kw(Super))
    case This => Some(Kw(This))       case True => Some(Kw(True))      case Var => Some(Kw(Var))
    case While => Some(Kw(While))
    case EOF => Some(EOF)
  }

  /** The integer kind a legacy token carries for a kind of the newer set (-1 for
      Meaningless, which never reaches a token). */
  function KindNumber(k: Tokens.TokenKind): int
  {
    match Category(k)
    case Some(c) => Value(c)
    case None => -1
  }

  // ---------------------------------------------------------------------------------
  // Properties

  /** Every category restarts at 0: the first kind of each and EOF share one value, so the
      integer kind does not determine the category. */
  lemma CategoriesShareValues()
    ensures Value(Single(LeftParenthesis)) == Value(Double(Bang)) == Value(Lit(Identifier))
         == Value(Kw(And)) == Value(EOF) == 0
    ensures Single(LeftParenthesis) != EOF && Value(Single(LeftParenthesis)) == Value(EOF)
  {
  }

  /** `Literal.String` names Identifier..Number and gives the fallback exactly outside. */
  lemma LiteralStringCases(l: int)
    ensures LiteralString(l) == "Not a valid literal" <==> !(0 <= l <= 2)
    ensures LiteralString(LiteralValue(Identifier)) == "Identifier"
    ensures LiteralString(LiteralValue(String)) == "String"
    ensures LiteralString(LiteralValue(Number)) == "Number"
  {
  }

  /** The `keywords` table lists the 16 keywords in constant order: the entry at a keyword's
      value is that keyword's display name in the newer token set. */
  lemma KeywordTableFollowsConstants(k: Keyword)
    ensures KeywordOf(KeywordValue(k)) == Some(k)
    ensures KeywordString(KeywordValue(k)) == Tokens.Display(Modern(k))
  {
    match k
    case And => {}    case Class => {}   case Else => {}    case False => {}
    case Fun => {}    case For => {}     case If => {}      case Nil => {}
    case Or => {}     case Print => {}   case Return => {}  case Super => {}
    case This => {}   case True => {}    case Var => {}     case While => {}
  }

  /** `Keyword.String` gives "Not a valid keyword" exactly outside 0..15. */
  lemma KeywordStringFallback(n: int)
    ensures KeywordString(n) == "Not a valid keyword" <==> !(0 <= n <= 15)
  {
  }

  /** The kind of the newer token set with the same name as a legacy kind. */
  function ModernKind(c: Kind): Tokens.TokenKind
  {
    match c
    case Single(s) => (
      match s
      case LeftParenthesis => Tokens.LeftParenthesis  case RightParenthesis => Tokens.RightParenthesis
      case LeftBrace => Tokens.LeftBrace              case RightBrace => Tokens.RightBrace
      case Comma => Tokens.Comma                      case Dot => Tokens.Dot
      case Minus => Tokens.Minus                      case Plus => Tokens.Plus
      case Semicolon => Tokens.Semicolon              case Slash => Tokens.Slash
      case Star => Tokens.Star)
    case Double(d) => (
      match d
      case Bang => Tokens.Bang                  case BangEqual => Tokens.BangEqual
      case Equal => Tokens.Equal                case EqualEqual => Tokens.EqualEqual
      case Greater => Tokens.Greater            case GreaterEqual => Tokens.GreaterEqual
      case Less => Tokens.Less                  case LessEqual => Tokens.LessEqual)
    case Lit(l) => (
      match l
      case Identifier => Tokens.Identifier  case String => Tokens.String  case Number => Tokens.Number)
    case Kw(w) => Modern(w)
    case EOF => Tokens.EOF
  }

  /** Every kind but Meaningless has a legacy counterpart and comes back from it. */
  lemma CategoryThenModern(k: Tokens.TokenKind)
    ensures Category(k).Some? ==> ModernKind(Category(k).value) == k
  {
    var n := Tokens.Ordinal(k);
    if n < 12 {
      CategoryThenModernPunctuation(k);
    } else if n < 23 {
      CategoryThenModernOperatorsAndLiterals(k);
    } else if n < 32 {
      CategoryThenModernKeywordsAndToOr(k);
    } else {
      CategoryThenModernKeywordsPrintToEof(k);
    }
  }

  lemma CategoryThenModernPunctuation(k: Tokens.TokenKind)
    requires Tokens.Ordinal(k) < 12
    ensures Category(k).Some? ==> ModernKind(Category(k).value) == k
  {
    match k
    case LeftParenthesis => case RightParenthesis => case LeftBrace => case RightBrace =>
    case Comma => case Dot => case Minus => case Plus => case Semicolon => case Slash =>
    case Star => case Meaningless =>
    case _ => assert false;
  }

  lemma CategoryThenModernOperatorsAndLiterals(k: Tokens.TokenKind)
    requires 12 <= Tokens.Ordinal(k) < 23
    ensures Category(k).Some? ==> ModernKind(Category(k).value) == k
  {
    match k
    case Bang => case Equal => case Greater => case Less => case BangEqual => case EqualEqual =>
    case GreaterEqual => case LessEqual => case Identifier => case String => case Number =>
    case _ => assert false;
  }

  lemma CategoryThenModernKeywordsAndToOr(k: Tokens.TokenKind)
    requires 23 <= Tokens.Ordinal(k) < 32
    ensures Category(k).Some? ==> ModernKind(Category(k).value) == k
  {
    match k
    case And => case Class => case Else => case False => case Fun => case For => case If =>
    case Nil => case Or =>
    case _ => assert false;
  }

  lemma CategoryThenModernKeywordsPrintToEof(k: Tokens.TokenKind)
    requires 32 <= Tokens.Ordinal(k)
    ensures Category(k).Some? ==> ModernKind(Category(k).value) == k
  {
    match k
    case Print => case Return => case Super => case This => case True => case Var =>
    case While => case EOF =>
    case _ => assert false;
  }

  /** Every legacy kind is the category of the kind of the same name. */
  lemma ModernThenCategory(c: Kind)
    ensures Category(ModernKind(c)) == Some(c)
  {
    match c
    case Single(_) =>
    case Double(_) =>
    case Lit(_) =>
    case Kw(w) => {
      match w
      case And =>    case Class =>  case Else =>    case False =>
      case Fun =>    case For =>    case If =>      case Nil =>
      case Or =>     case Print =>  case Return =>  case Super =>
      case This =>   case True =>   case Var =>     case While =>
    }
    case EOF =>
  }

  /** Category is one-to-one: distinct kinds of the newer set are distinct legacy kinds,
      even though their integer values may coincide. */
  lemma CategoryInjective(a: Tokens.TokenKind, b: Tokens.TokenKind)
    requires Category(a).Some? && Category(a) == Category(b)
    ensures a == b
  {
    CategoryThenModern(a);
    CategoryThenModern(b);
  }

  /** Only Meaningless lacks a legacy counterpart. */
  lemma CategoryDefined(k: Tokens.TokenKind)
    ensures Category(k).None? <==> k == Tokens.Meaningless
  {
  }
}
