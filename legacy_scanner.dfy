/** The earlier byte-cursor scanner (golox/scanner.go), built on the category-relative
    token kinds of `LegacyTokens`.

    It is the scanner of `Scanner` without the identifier branch: a letter is "Token not
    Recognized". The lexeme-level specification is therefore stated by translating the
    newer `Scanner.ResolveAt`, and the class below is proved to follow it. Its `peekNext`
    carries the same off-by-one guard as the newer one; the model uses the corrected guard
    in both (see `ScannerProperties.PeekNextAsWritten`). */
module LegacyScanner {
  import opened Wrappers
  import Tokens
  import opened LegacyTokens
  import Modern = Scanner

  /** The messages of the errors the scanner creates (and then discards). */
  datatype Error = EndOfFileReached | EofReached | UnterminatedString | TokenNotRecognized

  function ErrorOf(e: Modern.ScanError): Error
  {
    match e
    case NotRecognized(_, _) => TokenNotRecognized
    case UnterminatedString => UnterminatedString
    case EndOfFileReached => EndOfFileReached
    case EofReached => EofReached
  }

  /** What `resolveTokenKind` returns, with the cursor and line it leaves; the kind is
      `None` for the Meaningless pseudo-kind. */
  datatype Lexed = Lexed(kind: Option<int>, literal: string, value: real, err: Option<Error>,
                         next: nat, line: int)

  /** The integer kind the earlier scanner gives a kind of the newer set: its position in
      its own category (see `KindOptionIsCategoryValue`); none for Meaningless. */
  function KindOption(k: Tokens.TokenKind): Option<int>
  {
    match k
    case LeftParenthesis => Some(0)  case RightParenthesis => Some(1)  case LeftBrace => Some(2)
    case RightBrace => Some(3)       case Comma => Some(4)             case Dot => Some(5)
    case Minus => Some(6)            case Plus => Some(7)              case Semicolon => Some(8)
    case Slash => Some(9)            case Star => Some(10)             case Meaningless => None
    case Bang => Some(0)             case BangEqual => Some(1)         case Equal => Some(2)
    case EqualEqual => Some(3)       case Greater => Some(4)           case GreaterEqual => Some(5)
    case Less => Some(6)             case LessEqual => Some(7)
    case Identifier => Some(0)       case String => Some(1)            case Number => Some(2)
    case And => Some(0)     case Class => Some(1)   case Else => Some(2)    case False => Some(3)
    case Fun => Some(4)     case For => Some(5)     case If => Some(6)      case Nil => Some(7)
    case Or => Some(8)      case Print => Some(9)   case Return => Some(10) case Super => Some(11)
    case This => Some(12)   case True => Some(13)   case Var => Some(14)    case While => Some(15)
    case EOF => Some(0)
  }

  /** The table above is the category value of the same-named legacy constant. */
  lemma KindOptionIsCategoryValue(k: Tokens.TokenKind)
    ensures KindOption(k).None? <==> k == Tokens.Meaningless
    ensures KindOption(k).Some? ==> Category(k).Some? && KindOption(k).value == Value(Category(k).value)
  {
    var n := Tokens.Ordinal(k);
    if n < 12 {
      KindOptionIsCategoryValuePunctuation(k);
    } else if n < 23 {
      KindOptionIsCategoryValueOperatorsAndLiterals(k);
    } else if n < 32 {
      KindOptionIsCategoryValueKeywordsAndToOr(k);
    } else if n < 36 {
      KindOptionIsCategoryValueKeywordsPrintToThis(k);
    } else {
      KindOptionIsCategoryValueKeywordsTrueToEof(k);
    }
  }

  lemma KindOptionIsCategoryValuePunctuation(k: Tokens.TokenKind)
    requires Tokens.Ordinal(k) < 12
    ensures KindOption(k).None? <==> k == Tokens.Meaningless
    ensures KindOption(k).Some? ==> Category(k).Some? && KindOption(k).value == Value(Category(k).value)
  {
    match k
    case LeftParenthesis => case RightParenthesis => case LeftBrace => case RightBrace =>
    case Comma => case Dot => case Minus => case Plus => case Semicolon => case Slash =>
    case Star => case Meaningless =>
    case _ => assert false;
  }

  lemma KindOptionIsCategoryValueOperatorsAndLiterals(k: Tokens.TokenKind)
    requires 12 <= Tokens.Ordinal(k) < 23
    ensures KindOption(k).None? <==> k == Tokens.Meaningless
    ensures KindOption(k).Some? ==> Category(k).Some? && KindOption(k).value == Value(Category(k).value)
  {
    match k
    case Bang => case Equal => case Greater => case Less => case BangEqual => case EqualEqual =>
    case GreaterEqual => case LessEqual => case Identifier => case String => case Number =>
    case _ => assert false;
  }

  lemma KindOptionIsCategoryValueKeywordsAndToOr(k: Tokens.TokenKind)
    requires 23 <= Tokens.Ordinal(k) < 32
    ensures KindOption(k).None? <==> k == Tokens.Meaningless
    ensures KindOption(k).Some? ==> Category(k).Some? && KindOption(k).value == Value(Category(k).value)
  {
    match k
    case And => case Class => case Else => case False => case Fun => case For => case If =>
    case Nil => case Or =>
    case _ => assert false;
  }

  lemma KindOptionIsCategoryValueKeywordsPrintToThis(k: Tokens.TokenKind)
    requires 32 <= Tokens.Ordinal(k) < 36
    ensures KindOption(k).None? <==> k == Tokens.Meaningless
    ensures KindOption(k).Some? ==> Category(k).Some? && KindOption(k).value == Value(Category(k).value)
  {
    match k
    case Print => case Return => case Super => case This =>
    case _ => assert false;
  }

  lemma KindOptionIsCategoryValueKeywordsTrueToEof(k: Tokens.TokenKind)
    requires 36 <= Tokens.Ordinal(k)
    ensures KindOption(k).None? <==> k == Tokens.Meaningless
    ensures KindOption(k).Some? ==> Category(k).Some? && KindOption(k).value == Value(Category(k).value)
  {
    match k
    case True => case Var => case While => case EOF =>
    case _ => assert false;
  }

  /** A lexeme of the newer scanner, renumbered and with the legacy error messages. */
  function Translate(r: Modern.Lexed): Lexed
  {
    Lexed(KindOption(r.kind), r.literal, r.value,
          if r.err.Some? then Some(ErrorOf(r.err.value)) else None, r.next, r.line)
  }

  lemma NumberKind()
    ensures KindOption(Tokens.Number) == Some(Value(Lit(Number)))
  {
  }

  function Plain(kind: int, next: nat, line: int): Lexed
  {
    Lexed(Some(kind), "", 0.0, None, next, line)
  }

  /** `match('=')` after a one-character operator. */
  function EqualsFollows(src: string, cur: nat, line: int, two: DoubleCharacter, one: DoubleCharacter): Lexed
  {
    if cur < |src| && src[cur] == '=' then Plain(Value(Double(two)), cur + 1, line)
    else Plain(Value(Double(one)), cur, line)
  }

  /** `resolveTokenKind` with `lexeme_start == current_char == start`. Strings and numbers
      are lexed by the same loops as in the newer scanner; a letter is not recognized. */
  function ResolveAt(src: string, start: nat, line: int): (r: Lexed)
    requires start < |src|
    ensures start < r.next <= |src|
  {
    var cur := start + 1;
    match src[start]
    case '(' => Plain(Value(Single(LeftParenthesis)), cur, line)
    case ')' => Plain(Value(Single(RightParenthesis)), cur, line)
    case '{' => Plain(Value(Single(LeftBrace)), cur, line)
    case '}' => Plain(Value(Single(RightBrace)), cur, line)
    case ',' => Plain(Value(Single(Comma)), cur, line)
    case '.' => Plain(Value(Single(Dot)), cur, line)
    case '-' => Plain(Value(Single(Minus)), cur, line)
    case '+' => Plain(Value(Single(Plus)), cur, line)
    case ';' => Plain(Value(Single(Semicolon)), cur, line)
    case '*' => Plain(Value(Single(Star)), cur, line)
    case '!' => EqualsFollows(src, cur, line, BangEqual, Bang)
    case '=' => EqualsFollows(src, cur, line, EqualEqual, Equal)
    case '<' => EqualsFollows(src, cur, line, LessEqual, Less)
    case '>' => EqualsFollows(src, cur, line, GreaterEqual, Greater)
    case '\\' =>
      if cur < |src| && src[cur] == '\\' then
        var e := Modern.ScanWhile(src, cur + 1, Modern.NotNewline);
        if e == |src| then Lexed(Some(Value(EOF)), "", 0.0, Some(EndOfFileReached), e, line)
        else Lexed(None, "", 0.0, None, e, line + 1)
      else Plain(Value(Single(Slash)), cur, line)
    case ' ' => Lexed(None, "", 0.0, None, cur, line)
    case '\r' => Lexed(None, "", 0.0, None, cur, line)
    case '\t' => Lexed(None, "", 0.0, None, cur, line)
    case '\n' => Lexed(None, "", 0.0, None, cur, line + 1)
    case '"' => Translate(Modern.StringAt(src, start, line))
    case c =>
      if Modern.IsDigit(c) then Translate(Modern.NumberAt(src, start, line))
      else Lexed(Some(Value(EOF)), "", 0.0, Some(TokenNotRecognized), cur, line)
  }

  datatype Scanned = Scanned(tokens: seq<Token>, errs: seq<Error>, line: int)

  /** The token `addToken` appends for a lexeme without error. */
  function Emitted(src: string, start: nat, r: Lexed): seq<Token>
    requires start <= r.next <= |src|
  {
    if r.err.Some? || r.kind.None? then []
    else [Token(r.kind.value, src[start..r.next], r.literal, r.value, r.line)]
  }

  function Reported(r: Lexed): seq<Error>
  {
    if r.err.Some? then [r.err.value] else []
  }

  /** The loop of `scanTokens` from cursor `cur`. */
  function ScanLoop(src: string, cur: nat, line: int, toks: seq<Token>, errs: seq<Error>): Scanned
    decreases |src| - cur
  {
    if cur >= |src| then Scanned(toks, errs, line)
    else
      var r := ResolveAt(src, cur, line);
      ScanLoop(src, r.next, r.line, toks + Emitted(src, cur, r), errs + Reported(r))
  }

  function EofToken(line: int): Token
  {
    Token(Value(EOF), "", "", 0.0, line)
  }

  /** `Scanner{source: src}.scanTokens()`: the tokens (the error is always nil). */
  function ScanSource(src: string): seq<Token>
  {
    var s := ScanLoop(src, 0, 0, [], []);
    s.tokens + [EofToken(s.line)]
  }

  class Scanner {
    const source: string
    var tokens: seq<Token>
    var lexemeStart: nat
    var current: nat
    var line: int

    /** The composite literal `Scanner{source: src}`: every other field is zero. */
    constructor (source: string)
      ensures this.source == source && tokens == [] && lexemeStart == 0 && current == 0 && line == 0
    {
      this.source := source;
      tokens := [];
      lexemeStart := 0;
      current := 0;
      line := 0;
    }

    /** The copy a value receiver works on. */
    constructor CopyOf(s: Scanner)
      ensures source == s.source && tokens == s.tokens && lexemeStart == s.lexemeStart
      ensures current == s.current && line == s.line
    {
      source := s.source;
      tokens := s.tokens;
      lexemeStart := s.lexemeStart;
      current := s.current;
      line := s.line;
    }

    predicate IsAtEnd()
      reads this
    {
      current >= |source|
    }

    /** `peek`: the byte under the cursor, or "End of file reached". */
    function Peek(): (r: Result<char, Error>)
      reads this
      ensures r.Ok? <==> current < |source|
      ensures r.Ok? ==> r.value == source[current]
      ensures r.Err? ==> r.error == EndOfFileReached
    {
      if IsAtEnd() then Err(EndOfFileReached) else Ok(source[current])
    }

    /** `peekNext` with the corrected bound: "EOF reached" when no byte follows the cursor. */
    function PeekNext(): (r: Result<char, Error>)
      reads this
      ensures r.Ok? <==> current + 1 < |source|
      ensures r.Ok? ==> r.value == source[current + 1]
      ensures r.Err? ==> r.error == EofReached
    {
      if current + 1 >= |source| then Err(EofReached) else Ok(source[current + 1])
    }

    method Advance() returns (c: char)
      requires current < |source|
      modifies this`current
      ensures c == source[old(current)] && current == old(current) + 1
    {
      c := source[current];
      current := current + 1;
    }

    method Match(expected: char) returns (hit: bool)
      modifies this`current
      ensures hit <==> old(current) < |source| && source[old(current)] == expected
      ensures current == if hit then old(current) + 1 else old(current)
    {
      if IsAtEnd() {
        return false;
      }
      if source[current] != expected {
        return false;
      }
      current := current + 1;
      return true;
    }

    /** `addToken`: appends a token for the current lexeme unless the kind is Meaningless. */
    method AddToken(kind: Option<int>, literal: string, value: real)
      requires lexemeStart <= current <= |source|
      modifies this`tokens
      ensures tokens == old(tokens) +
        (if kind.None? then [] else [Token(kind.value, source[lexemeStart..current], literal, value, line)])
    {
      if kind.None? {
        return;
      }
      tokens := tokens + [Token(kind.value, source[lexemeStart..current], literal, value, line)];
    }

    /** A `for { c, err := peek(); if err != nil || !keep(c) { break }; advance() }` loop. */
    method AdvanceWhile(keep: char -> bool)
      requires current <= |source|
      modifies this`current
      ensures current == Modern.ScanWhile(source, old(current), keep)
    {
      ghost var stop := Modern.ScanWhile(source, old(current), keep);
      while true
        invariant old(current) <= current <= stop
        decreases |source| - current
      {
        var p := Peek();
        if p.Err? || !keep(p.value) {
          break;
        }
        var _ := Advance();
      }
    }

    /** `createString`. */
    method CreateString() returns (kind: Option<int>, literal: string, value: real, err: Option<Error>)
      requires lexemeStart < |source| && current == lexemeStart + 1
      modifies this`current, this`line
      ensures Lexed(kind, literal, value, err, current, line) == Translate(Modern.StringAt(source, lexemeStart, old(line)))
    {
      assert KindOption(Tokens.String) == Some(Value(Lit(String))) && KindOption(Tokens.EOF) == Some(Value(EOF));
      ghost var stop := Modern.ScanWhile(source, lexemeStart + 1, Modern.NotQuote);
      while true
        invariant lexemeStart + 1 <= current <= stop
        invariant line == old(line) + Modern.NewlinesIn(source, lexemeStart + 1, current)
        decreases |source| - current
      {
        var p := Peek();
        if p.Err? {
          break;
        }
        if p.value == '"' {
          break;
        }
        if p.value == '\n' {
          line := line + 1;
        }
        var _ := Advance();
      }
      var e := current;
      assert e == stop;
      if IsAtEnd() {
        return Some(Value(EOF)), "", 0.0, Some(UnterminatedString);
      }
      var _ := Advance();
      literal := source[lexemeStart + 1..e];
      return Some(Value(Lit(String))), literal, 0.0, None;
    }

    /** `createNumber` (with the corrected `peekNext`). */
    method CreateNumber() returns (kind: Option<int>, literal: string, value: real, err: Option<Error>)
      requires lexemeStart < |source| && current == lexemeStart + 1
      modifies this`current
      ensures Lexed(kind, literal, value, err, current, line) == Translate(Modern.NumberAt(source, lexemeStart, line))
    {
      NumberKind();
      AdvanceWhile(Modern.IsDigit);
      ghost var d := current;
      var c := Peek();
      if c.Err? {
        Modern.NumberAtFails(source, lexemeStart, line, d);
        return Some(Value(Lit(Number))), "", 0.0, Some(c.error);
      }
      var nc := PeekNext();
      if nc.Err? {
        Modern.NumberAtFails(source, lexemeStart, line, d);
        return Some(Value(Lit(Number))), "", 0.0, Some(nc.error);
      }
      if c.value == '.' && Modern.IsDigit(nc.value) {
        var _ := Advance();
        AdvanceWhile(Modern.IsDigit);
      }
      Modern.NumberAtEnd(source, lexemeStart, line, d, current);
      value := Modern.ParseDecimal(source[lexemeStart..current]);
      return Some(Value(Lit(Number))), "", value, None;
    }

    /** The comment branch of `resolveTokenKind`, after the second backslash. */
    method SkipComment() returns (kind: Option<int>, literal: string, value: real, err: Option<Error>)
      requires current <= |source|
      modifies this`current, this`line
      ensures var e := Modern.ScanWhile(source, old(current), Modern.NotNewline);
        Lexed(kind, literal, value, err, current, line) ==
          if e == |source| then Lexed(Some(Value(EOF)), "", 0.0, Some(EndOfFileReached), e, old(line))
          else Lexed(None, "", 0.0, None, e, old(line) + 1)
    {
      ghost var stop := Modern.ScanWhile(source, old(current), Modern.NotNewline);
      while true
        invariant old(current) <= current <= stop
        invariant line == old(line)
        decreases |source| - current
      {
        var p := Peek();
        if p.Err? {
          return Some(Value(EOF)), "", 0.0, Some(p.error);
        }
        if p.value == '\n' {
          break;
        }
        var _ := Advance();
      }
      line := line + 1;
      return None, "", 0.0, None;
    }

    /** One of the four `match('=')` branches of `resolveTokenKind`. */
    method EqualsOr(two: DoubleCharacter, one: DoubleCharacter) returns (kind: Option<int>, literal: string, value: real, err: Option<Error>)
      modifies this`current
      ensures Lexed(kind, literal, value, err, current, line) == EqualsFollows(source, old(current), line, two, one)
    {
      var hit := Match('=');
      if hit {
        return Some(Value(Double(two))), "", 0.0, None;
      }
      return Some(Value(Double(one))), "", 0.0, None;
    }

    /** `resolveTokenKind`. */
    method ResolveTokenKind() returns (kind: Option<int>, literal: string, value: real, err: Option<Error>)
      requires lexemeStart == current < |source|
      modifies this`current, this`line
      ensures Lexed(kind, literal, value, err, current, line) == ResolveAt(source, old(current), old(line))
    {
      var c := Advance();
      match c
      case '(' => return Some(Value(Single(LeftParenthesis))), "", 0.0, None;
      case ')' => return Some(Value(Single(RightParenthesis))), "", 0.0, None;
      case '{' => return Some(Value(Single(LeftBrace))), "", 0.0, None;
      case '}' => return Some(Value(Single(RightBrace))), "", 0.0, None;
      case ',' => return Some(Value(Single(Comma))), "", 0.0, None;
      case '.' => return Some(Value(Single(Dot))), "", 0.0, None;
      case '-' => return Some(Value(Single(Minus))), "", 0.0, None;
      case '+' => return Some(Value(Single(Plus))), "", 0.0, None;
      case ';' => return Some(Value(Single(Semicolon))), "", 0.0, None;
      case '*' => return Some(Value(Single(Star))), "", 0.0, None;
      case '!' => kind, literal, value, err := EqualsOr(BangEqual, Bang);
      case '=' => kind, literal, value, err := EqualsOr(EqualEqual, Equal);
      case '<' => kind, literal, value, err := EqualsOr(LessEqual, Less);
      case '>' => kind, literal, value, err := EqualsOr(GreaterEqual, Greater);
      case '\\' =>
        var hit := Match('\\');
        if hit {
          kind, literal, value, err := SkipComment();
        } else {
          return Some(Value(Single(Slash))), "", 0.0, None;
        }
      case ' ' => return None, "", 0.0, None;
      case '\r' => return None, "", 0.0, None;
      case '\t' => return None, "", 0.0, None;
      case '\n' =>
        line := line + 1;
        return None, "", 0.0, None;
      case '"' => kind, literal, value, err := CreateString();
      case _ =>
        if Modern.IsDigit(c) {
          kind, literal, value, err := CreateNumber();
        } else {
          return Some(Value(EOF)), "", 0.0, Some(TokenNotRecognized);
        }
    }

    /** `scanTokens` (a value receiver: it scans a copy). The errors are collected and then
        dropped: the returned error is always nil. */
    method ScanTokens() returns (toks: seq<Token>, err: Option<Error>)
      ensures var s := ScanLoop(source, current, line, tokens, []);
        toks == s.tokens + [EofToken(s.line)]
      ensures err == None
    {
      var w := new Scanner.CopyOf(this);
      var errs: seq<Error> := [];
      while !w.IsAtEnd()
        invariant w.source == source
        invariant ScanLoop(source, w.current, w.line, w.tokens, errs).tokens == ScanLoop(source, current, line, tokens, []).tokens
        invariant ScanLoop(source, w.current, w.line, w.tokens, errs).line == ScanLoop(source, current, line, tokens, []).line
        decreases |source| - w.current
      {
        ghost var start, l0, t0, e0 := w.current, w.line, w.tokens, errs;
        ghost var r := ResolveAt(source, start, l0);
        assert ScanLoop(source, start, l0, t0, e0) == ScanLoop(source, r.next, r.line, t0 + Emitted(source, start, r), e0 + Reported(r));
        w.lexemeStart := w.current;
        var kind, literal, value, e := w.ResolveTokenKind();
        assert Lexed(kind, literal, value, e, w.current, w.line) == r;
        if e.Some? {
          errs := errs + [e.value];
        } else {
          w.AddToken(kind, literal, value);
        }
        assert w.tokens == t0 + Emitted(source, start, r);
        assert errs == e0 + Reported(r);
      }
      w.tokens := w.tokens + [EofToken(w.line)];
      return w.tokens, None;
    }
  }
}

/** Properties of the earlier scanner, chiefly its relation to the newer one. */
module LegacyScannerProperties {
  import opened Wrappers
  import Tokens
  import opened LegacyTokens
  import Modern = Scanner
  import opened LegacyScanner

  /** A token of the newer scanner as the earlier one numbers it. */
  function Renumber(t: Tokens.Token): Token
  {
    Token(match KindOption(t.kind) case Some(n) => n case None => -1, t.lexeme, t.literal, t.value, t.line)
  }

  function RenumberAll(ts: seq<Tokens.Token>): (r: seq<Token>)
    ensures |r| == |ts|
    ensures forall i :: 0 <= i < |ts| ==> r[i] == Renumber(ts[i])
  {
    if ts == [] then [] else RenumberAll(ts[..|ts| - 1]) + [Renumber(ts[|ts| - 1])]
  }

  function ErrorsOf(es: seq<Modern.ScanError>): (r: seq<Error>)
    ensures |r| == |es|
    ensures forall i :: 0 <= i < |es| ==> r[i] == ErrorOf(es[i])
  {
    if es == [] then [] else ErrorsOf(es[..|es| - 1]) + [ErrorOf(es[|es| - 1])]
  }

  predicate NoLetters(src: string)
  {
    forall i :: 0 <= i < |src| ==> !Modern.IsAlpha(src[i])
  }

  /** Away from letters the earlier lexer is the newer one, renumbered; on a letter it
      reports "Token not Recognized" after one byte where the newer one reads an
      identifier. */
  lemma ResolveAtIsTranslated(src: string, start: nat, line: int)
    requires start < |src| && !Modern.IsAlpha(src[start])
    ensures ResolveAt(src, start, line) == Translate(Modern.ResolveAt(src, start, line))
  {
  }

  lemma LetterIsOneUnrecognisedByte(src: string, start: nat, line: int)
    requires start < |src| && Modern.IsAlpha(src[start])
    ensures ResolveAt(src, start, line) == Lexed(Some(Value(EOF)), "", 0.0, Some(TokenNotRecognized), start + 1, line)
    ensures Modern.ResolveAt(src, start, line).err.None?
  {
  }

  lemma RenumberAllAppend(a: seq<Tokens.Token>, b: seq<Tokens.Token>)
    ensures RenumberAll(a + b) == RenumberAll(a) + RenumberAll(b)
  {
  }

  lemma ErrorsOfAppend(a: seq<Modern.ScanError>, b: seq<Modern.ScanError>)
    ensures ErrorsOf(a + b) == ErrorsOf(a) + ErrorsOf(b)
  {
  }

  /** On a source without letters both scanners see the same lexemes: the earlier scan is
      the newer scan with every token renumbered and every error renamed. */
  lemma {:induction false} SameAsModernWithoutLetters(src: string, cur: nat, line: int,
      mtoks: seq<Tokens.Token>, merrs: seq<Modern.ScanError>)
    requires NoLetters(src)
    ensures var l := ScanLoop(src, cur, line, RenumberAll(mtoks), ErrorsOf(merrs));
      var m := Modern.ScanLoop(src, cur, line, mtoks, merrs);
      l.tokens == RenumberAll(m.tokens) && l.errs == ErrorsOf(m.errs) && l.line == m.line
    decreases |src| - cur
  {
    if cur < |src| {
      var m := Modern.ResolveAt(src, cur, line);
      var r := ResolveAt(src, cur, line);
      ResolveAtIsTranslated(src, cur, line);
      assert r == Translate(m);
      assert Emitted(src, cur, r) == RenumberAll(Modern.Emitted(src, cur, m));
      assert Reported(r) == ErrorsOf(Modern.Reported(m));
      RenumberAllAppend(mtoks, Modern.Emitted(src, cur, m));
      ErrorsOfAppend(merrs, Modern.Reported(m));
      SameAsModernWithoutLetters(src, m.next, m.line, mtoks + Modern.Emitted(src, cur, m), merrs + Modern.Reported(m));
    }
  }

  lemma RenumberEof(line: int)
    ensures RenumberAll([Modern.EofToken(line)]) == [EofToken(line)]
  {
    assert [Modern.EofToken(line)][..0] == [];
  }

  /** Hence, without letters, the earlier scanner's tokens are the newer scanner's tokens
      renumbered, EOF included. */
  lemma ScanSourceWithoutLetters(src: string)
    requires NoLetters(src)
    ensures ScanSource(src) == RenumberAll(Modern.ScanSource(src).0)
  {
    assert RenumberAll([]) == [] && ErrorsOf([]) == [];
    SameAsModernWithoutLetters(src, 0, 0, [], []);
    var m := Modern.ScanLoop(src, 0, 0, [], []);
    var l := ScanLoop(src, 0, 0, [], []);
    assert l.tokens == RenumberAll(m.tokens) && l.line == m.line;
    assert Modern.ScanSource(src).0 == m.tokens + [Modern.EofToken(m.line)];
    RenumberAllAppend(m.tokens, [Modern.EofToken(m.line)]);
    RenumberEof(m.line);
  }

  /** A letter never starts a token: "x" scans to the EOF token alone. */
  lemma LettersAreNotRecognized()
    ensures ScanSource("x") == [EofToken(0)]
  {
    assert ScanLoop("x", 1, 0, [], [TokenNotRecognized]).tokens == [];
  }

  /** `Test_createString`: the first token of `"Ahoj"` carries the literal Ahoj. */
  lemma ScansString()
    ensures ScanSource("\"Ahoj\"")[0].literal == "Ahoj"
  {
    var src := "\"Ahoj\"";
    var r := ResolveAt(src, 0, 0);
    assert Modern.ScanWhile(src, 1, Modern.NotQuote) == 5;
    assert Modern.NewlinesIn(src, 1, 5) == 0;
    assert r == Lexed(Some(Value(Lit(String))), "Ahoj", 0.0, None, 6, 0);
  }

  /** `Test_createNumber`: the first token of 88.8 has the value 88.8. */
  lemma ScansNumber()
    ensures ScanSource("88.8")[0].value == 88.8
  {
    var src := "88.8";
    assert Modern.ScanWhile(src, 1, Modern.IsDigit) == 2;
    assert Modern.ScanWhile(src, 3, Modern.IsDigit) == 4;
    assert src[0..4] == "88.8";
    assert Modern.DotIndex("88.8") == 2 by {
      assert "88.8"[1..] == "8.8";
      assert "8.8"[1..] == ".8";
    }
    assert "88.8"[..2] == "88" && "88.8"[3..] == "8";
    assert Modern.DigitsValue("88") == 88 by { assert "88"[..1] == "8"; assert "8"[..0] == []; }
    assert Modern.DigitsValue("8") == 8 by { assert "8"[..0] == []; }
    assert Modern.ParseDecimal("88.8") == 88.8;
    var r := ResolveAt(src, 0, 0);
    assert r == Lexed(Some(Value(Lit(Number))), "", 88.8, None, 4, 0);
  }
}
