/** The byte-cursor scanner of the tree-walking interpreter
    (golox/internal/scanner/scanner.go).

    A Go string is a byte string; here a source is a `string` whose every `char` stands for
    one byte. Floating-point values are exact reals (`ParseDecimal`), and the NaN that Go
    stores in every non-number token is 0.0 (see `Tokens.Token`). */
module Scanner {
  import opened Wrappers
  import opened Tokens

  // ---------------------------------------------------------------------------------
  // Character classes

  predicate IsDigit(c: char) { '0' <= c <= '9' }

  predicate IsAlpha(c: char) { 'a' <= c <= 'z' || 'A' <= c <= 'Z' || c == '_' }

  predicate IsAlphanumeric(c: char) { IsAlpha(c) || IsDigit(c) }

  predicate NotQuote(c: char) { c != '"' }

  predicate NotNewline(c: char) { c != '\n' }

  /** The errors `ScanTokens` collects. */
  datatype ScanError =
    | NotRecognized(line: int, lexeme: string)   // scannerError{line, lexeme}
    | UnterminatedString                         // "Unterminated string"
    | EndOfFileReached                           // peek: "End of file reached"
    | EofReached                                 // peekNext: "EOF reached"

  // ---------------------------------------------------------------------------------
  // Specification of one lexeme and of the whole scan

  /** Where a `for { c, err := peek(); if err != nil || !keep(c) { break }; advance() }`
      loop started at `i` stops: the first index at or after `i` whose byte fails `keep`,
      or the end of the source. */
  function ScanWhile(src: string, i: nat, keep: char -> bool): (j: nat)
    requires i <= |src|
    ensures i <= j <= |src|
    ensures forall k :: i <= k < j ==> keep(src[k])
    ensures j < |src| ==> !keep(src[j])
    decreases |src| - i
  {
    if i == |src| || !keep(src[i]) then i else ScanWhile(src, i + 1, keep)
  }

  /** Number of newline bytes in `src[i..j]`. */
  function NewlinesIn(src: string, i: nat, j: nat): nat
    requires i <= j <= |src|
    decreases j - i
  {
    if i == j then 0 else NewlinesIn(src, i, j - 1) + (if src[j - 1] == '\n' then 1 else 0)
  }

  /** The decimal value of a run of digits (`strconv.ParseFloat` on an integer text). */
  function DigitsValue(s: string): int
  {
    if s == [] then 0 else DigitsValue(s[..|s| - 1]) * 10 + (s[|s| - 1] as int - '0' as int)
  }

  function Pow10(n: nat): (r: real)
    ensures r >= 1.0
  {
    if n == 0 then 1.0 else 10.0 * Pow10(n - 1)
  }

  /** Index of the first '.' in `s`, or |s|. */
  function DotIndex(s: string): (k: nat)
    ensures k <= |s|
    ensures forall i :: 0 <= i < k ==> s[i] != '.'
    ensures k < |s| ==> s[k] == '.'
  {
    if s == [] then 0 else if s[0] == '.' then 0 else 1 + DotIndex(s[1..])
  }

  /** `strconv.ParseFloat` on the texts the scanner hands it (digits, optionally followed by
      '.' and more digits), as an exact real. */
  function ParseDecimal(text: string): real
  {
    var k := DotIndex(text);
    if k == |text| then DigitsValue(text) as real
    else DigitsValue(text[..k]) as real + DigitsValue(text[k + 1..]) as real / Pow10(|text| - k - 1)
  }

  /** What `resolveTokenKind` returns, together with the cursor and line it leaves behind. */
  datatype Lexed = Lexed(kind: TokenKind, literal: string, value: real, err: Option<ScanError>,
                         next: nat, line: int)

  function Simple(kind: TokenKind, next: nat, line: int): Lexed
  {
    Lexed(kind, "", 0.0, None, next, line)
  }

  function Failed(kind: TokenKind, e: ScanError, next: nat, line: int): Lexed
  {
    Lexed(kind, "", 0.0, Some(e), next, line)
  }

  /** `createString`, entered with the cursor just past the opening quote at `start`. */
  function StringAt(src: string, start: nat, line: int): (r: Lexed)
    requires start < |src|
  {
    var e := ScanWhile(src, start + 1, NotQuote);
    var l := line + NewlinesIn(src, start + 1, e);
    if e == |src| then Failed(EOF, UnterminatedString, e, l)
    else Lexed(String, src[start + 1..e], 0.0, None, e + 1, l)
  }

  /** `peekNext` with its bound corrected to `current+1 >= len`: it never reads past the
      source (see `PeekNextAsWritten` for the guard as written). */
  function PeekNextAt(src: string, cur: nat): (r: Result<char, ScanError>)
    ensures r.Ok? <==> cur + 1 < |src|
    ensures r.Ok? ==> r.value == src[cur + 1]
  {
    if cur + 1 >= |src| then Err(EofReached) else Ok(src[cur + 1])
  }

  /** `createNumber`, entered with the cursor just past the first digit at `start`. */
  function NumberAt(src: string, start: nat, line: int): (r: Lexed)
    requires start < |src|
  {
    var d := ScanWhile(src, start + 1, IsDigit);
    if d == |src| then Failed(Number, EndOfFileReached, d, line)
    else match PeekNextAt(src, d)
      case Err(e) => Failed(Number, e, d, line)
      case Ok(nc) =>
        var end := if src[d] == '.' && IsDigit(nc) then ScanWhile(src, d + 1, IsDigit) else d;
        Lexed(Number, "", ParseDecimal(src[start..end]), None, end, line)
  }

  /** The outcome of `NumberAt` when the digits run into the end of the source, or leave
      only one byte after them. */
  lemma NumberAtFails(src: string, start: nat, line: int, d: nat)
    requires start < |src| && d == ScanWhile(src, start + 1, IsDigit) && d + 1 >= |src|
    ensures NumberAt(src, start, line) ==
      Failed(Number, if d == |src| then EndOfFileReached else EofReached, d, line)
  {
  }

  /** The outcome of `NumberAt` once the digits and the two bytes after them are known. */
  lemma NumberAtEnd(src: string, start: nat, line: int, d: nat, end: nat)
    requires start < |src| && d == ScanWhile(src, start + 1, IsDigit) && d + 1 < |src|
    requires end == if src[d] == '.' && IsDigit(src[d + 1]) then ScanWhile(src, d + 1, IsDigit) else d
    ensures NumberAt(src, start, line) == Lexed(Number, "", ParseDecimal(src[start..end]), None, end, line)
  {
  }

  /** `createIdentifier`, entered with the cursor just past the first letter at `start`. */
  function IdentifierAt(src: string, start: nat, line: int): (r: Lexed)
    requires start < |src|
  {
    var e := ScanWhile(src, start + 1, IsAlphanumeric);
    var text := src[start..e];
    Simple(if text in Keywords then Keywords[text] else Identifier, e, line)
  }

  /** `match('=')` after a one-character operator: the two-character kind on a hit. */
  function EqualsFollows(src: string, cur: nat, line: int, two: TokenKind, one: TokenKind): Lexed
  {
    if cur < |src| && src[cur] == '=' then Simple(two, cur + 1, line) else Simple(one, cur, line)
  }

  /** `resolveTokenKind` with `lexeme_start == current_char == start`. Every lexeme consumes
      at least one byte, and a lexeme that reports no error never has the EOF kind. */
  function ResolveAt(src: string, start: nat, line: int): (r: Lexed)
    requires start < |src|
    ensures start < r.next <= |src|
    ensures r.err.None? ==> r.kind != EOF
  {
    var cur := start + 1;
    match src[start]
    case '(' => Simple(LeftParenthesis, cur, line)
    case ')' => Simple(RightParenthesis, cur, line)
    case '{' => Simple(LeftBrace, cur, line)
    case '}' => Simple(RightBrace, cur, line)
    case ',' => Simple(Comma, cur, line)
    case '.' => Simple(Dot, cur, line)
    case '-' => Simple(Minus, cur, line)
    case '+' => Simple(Plus, cur, line)
    case ';' => Simple(Semicolon, cur, line)
    case '*' => Simple(Star, cur, line)
    case '!' => EqualsFollows(src, cur, line, BangEqual, Bang)
    case '=' => EqualsFollows(src, cur, line, EqualEqual, Equal)
    case '<' => EqualsFollows(src, cur, line, LessEqual, Less)
    case '>' => EqualsFollows(src, cur, line, GreaterEqual, Greater)
    case '\\' =>
      if cur < |src| && src[cur] == '\\' then
        var e := ScanWhile(src, cur + 1, NotNewline);
        if e == |src| then Failed(EOF, EndOfFileReached, e, line) else Simple(Meaningless, e, line + 1)
      else Simple(Slash, cur, line)
    case ' ' => Simple(Meaningless, cur, line)
    case '\r' => Simple(Meaningless, cur, line)
    case '\t' => Simple(Meaningless, cur, line)
    case '\n' => Simple(Meaningless, cur, line + 1)
    case '"' => StringAt(src, start, line)
    case c =>
      if IsDigit(c) then NumberAt(src, start, line)
      else if IsAlphanumeric(c) then IdentifierAt(src, start, line)
      else Failed(EOF, NotRecognized(line, src[start..cur]), cur, line)
  }

  /** The tokens (without the final EOF), the errors and the final line of a scan. */
  datatype Scanned = Scanned(tokens: seq<Token>, errs: seq<ScanError>, line: int)

  /** The loop of `ScanTokens` from cursor `cur` on `line`, with `toks` and `errs` collected
      so far. */
  function ScanLoop(src: string, cur: nat, line: int, toks: seq<Token>, errs: seq<ScanError>): Scanned
    decreases |src| - cur
  {
    if cur >= |src| then Scanned(toks, errs, line)
    else
      var r := ResolveAt(src, cur, line);
      ScanLoop(src, r.next, r.line, toks + Emitted(src, cur, r), errs + Reported(r))
  }

  /** The token `addToken` appends for a lexeme that reported no error: none for a
      Meaningless one. */
  function Emitted(src: string, start: nat, r: Lexed): seq<Token>
    requires start <= r.next <= |src|
  {
    if r.err.Some? || r.kind == Meaningless then []
    else [Token(r.kind, src[start..r.next], r.literal, r.value, r.line)]
  }

  /** The error a lexeme reports, if any. */
  function Reported(r: Lexed): seq<ScanError>
  {
    if r.err.Some? then [r.err.value] else []
  }

  /** The EOF token `ScanTokens` appends. */
  function EofToken(line: int): Token
  {
    Token(EOF, "", "", 0.0, line)
  }

  /** `NewScanner(src).ScanTokens()`. */
  function ScanSource(src: string): (seq<Token>, seq<ScanError>)
  {
    var s := ScanLoop(src, 0, 0, [], []);
    (s.tokens + [EofToken(s.line)], s.errs)
  }

  // ---------------------------------------------------------------------------------
  // The scanner object

  class Scanner {
    const source: string
    var tokens: seq<Token>
    var lexemeStart: nat
    var current: nat
    var line: int

    /** `NewScanner`: an empty token list, both cursors at 0 and the line counter at 0. */
    constructor (source: string)
      ensures this.source == source && tokens == [] && lexemeStart == 0 && current == 0 && line == 0
    {
      this.source := source;
      tokens := [];
      lexemeStart := 0;
      current := 0;
      line := 0;
    }

    /** The copy a value receiver works on. */
    constructor CopyOf(s: Scanner)
      ensures source == s.source && tokens == s.tokens && lexemeStart == s.lexemeStart
      ensures current == s.current && line == s.line
    {
      source := s.source;
      tokens := s.tokens;
      lexemeStart := s.lexemeStart;
      current := s.current;
      line := s.line;
    }

    predicate IsAtEnd()
      reads this
    {
      current >= |source|
    }

    /** `peek`: the byte under the cursor, or "End of file reached". */
    function Peek(): (r: Result<char, ScanError>)
      reads this
      ensures r.Ok? <==> current < |source|
      ensures r.Ok? ==> r.value == source[current]
      ensures r.Err? ==> r.error == EndOfFileReached
    {
      if IsAtEnd() then Err(EndOfFileReached) else Ok(source[current])
    }

    /** `peekNext` with the corrected bound. */
    function PeekNext(): (r: Result<char, ScanError>)
      reads this
      ensures r.Ok? <==> current + 1 < |source|
      ensures r.Ok? ==> r.value == source[current + 1]
    {
      PeekNextAt(source, current)
    }

    /** `peekCurrentLexeme`: the text from the lexeme start to the cursor. */
    function PeekCurrentLexeme(): (s: string)
      reads this
      requires lexemeStart <= current <= |source|
      ensures |s| == current - lexemeStart
      ensures forall i :: 0 <= i < |s| ==> s[i] == source[lexemeStart + i]
    {
      source[lexemeStart..current]
    }

    /** `advance`: returns the byte under the cursor and moves past it. */
    method Advance() returns (c: char)
      requires current < |source|
      modifies this`current
      ensures c == source[old(current)] && current == old(current) + 1
    {
      c := source[current];
      current := current + 1;
    }

    /** `match`: consumes the byte under the cursor exactly when it is `expected`. */
    method Match(expected: char) returns (hit: bool)
      modifies this`current
      ensures hit <==> old(current) < |source| && source[old(current)] == expected
      ensures current == if hit then old(current) + 1 else old(current)
    {
      if IsAtEnd() {
        return false;
      }
      if source[current] != expected {
        return false;
      }
      current := current + 1;
      return true;
    }

    /** `addToken`: appends a token for the current lexeme unless the kind is Meaningless. */
    method AddToken(kind: TokenKind, literal: string, value: real)
      requires lexemeStart <= current <= |source|
      modifies this`tokens
      ensures tokens == old(tokens) +
        (if kind == Meaningless then [] else [Token(kind, source[lexemeStart..current], literal, value, line)])
    {
      if kind == Meaningless {
        return;
      }
      tokens := tokens + [Token(kind, source[lexemeStart..current], literal, value, line)];
    }

    /** The loop `for { c, err := peek(); if err != nil || !keep(c) { break }; advance() }`. */
    method AdvanceWhile(keep: char -> bool)
      requires current <= |source|
      modifies this`current
      ensures current == ScanWhile(source, old(current), keep)
    {
      ghost var stop := ScanWhile(source, old(current), keep);
      while true
        invariant old(current) <= current <= stop
        decreases |source| - current
      {
        var p := Peek();
        if p.Err? || !keep(p.value) {
          break;
        }
        var _ := Advance();
      }
    }

    /** `createString`. */
    method CreateString() returns (kind: TokenKind, literal: string, value: real, err: Option<ScanError>)
      requires lexemeStart < |source| && current == lexemeStart + 1
      modifies this`current, this`line
      ensures Lexed(kind, literal, value, err, current, line) == StringAt(source, lexemeStart, old(line))
    {
      ghost var stop := ScanWhile(source, lexemeStart + 1, NotQuote);
      while true
        invariant lexemeStart + 1 <= current <= stop
        invariant line == old(line) + NewlinesIn(source, lexemeStart + 1, current)
        decreases |source| - current
      {
        var p := Peek();
        if p.Err? {
          break;
        }
        if p.value == '"' {
          break;
        }
        if p.value == '\n' {
          line := line + 1;
        }
        var _ := Advance();
      }
      var e := current;
      assert e == stop;
      if IsAtEnd() {
        return EOF, "", 0.0, Some(UnterminatedString);
      }
      var _ := Advance();
      literal := source[lexemeStart + 1..e];
      return String, literal, 0.0, None;
    }

    /** `createIdentifier`. */
    method CreateIdentifier() returns (kind: TokenKind, literal: string, value: real, err: Option<ScanError>)
      requires lexemeStart < |source| && current == lexemeStart + 1
      modifies this`current
      ensures Lexed(kind, literal, value, err, current, line) == IdentifierAt(source, lexemeStart, line)
    {
      AdvanceWhile(IsAlphanumeric);
      var text := source[lexemeStart..current];
      if text !in Keywords {
        return Identifier, "", 0.0, None;
      }
      return Keywords[text], "", 0.0, None;
    }

    /** `createNumber` (with the corrected `peekNext`). */
    method CreateNumber() returns (kind: TokenKind, literal: string, value: real, err: Option<ScanError>)
      requires lexemeStart < |source| && current == lexemeStart + 1
      modifies this`current
      ensures Lexed(kind, literal, value, err, current, line) == NumberAt(source, lexemeStart, line)
    {
      AdvanceWhile(IsDigit);
      ghost var d := current;
      var c := Peek();
      if c.Err? {
        NumberAtFails(source, lexemeStart, line, d);
        return Number, "", 0.0, Some(c.error);
      }
      var nc := PeekNext();
      if nc.Err? {
        NumberAtFails(source, lexemeStart, line, d);
        return Number, "", 0.0, Some(nc.error);
      }
      if c.value == '.' && IsDigit(nc.value) {
        var _ := Advance();
        AdvanceWhile(IsDigit);
      }
      NumberAtEnd(source, lexemeStart, line, d, current);
      value := ParseDecimal(source[lexemeStart..current]);
      return Number, "", value, None;
    }

    /** The comment branch of `resolveTokenKind`, after the second backslash. */
    method SkipComment() returns (kind: TokenKind, literal: string, value: real, err: Option<ScanError>)
      requires current <= |source|
      modifies this`current, this`line
      ensures var e := ScanWhile(source, old(current), NotNewline);
        Lexed(kind, literal, value, err, current, line) ==
          if e == |source| then Failed(EOF, EndOfFileReached, e, old(line))
          else Simple(Meaningless, e, old(line) + 1)
    {
      ghost var stop := ScanWhile(source, old(current), NotNewline);
      while true
        invariant old(current) <= current <= stop
        invariant line == old(line)
        decreases |source| - current
      {
        var p := Peek();
        if p.Err? {
          return EOF, "", 0.0, Some(p.error);
        }
        if p.value == '\n' {
          break;
        }
        var _ := Advance();
      }
      line := line + 1;
      return Meaningless, "", 0.0, None;
    }

    /** One of the four `match('=')` branches of `resolveTokenKind`. */
    method EqualsOr(two: TokenKind, one: TokenKind) returns (kind: TokenKind, literal: string, value: real, err: Option<ScanError>)
      modifies this`current
      ensures Lexed(kind, literal, value, err, current, line) == EqualsFollows(source, old(current), line, two, one)
    {
      ghost var start := current;
      var hit := Match('=');
      if hit {
        assert EqualsFollows(source, start, line, two, one) == Simple(two, start + 1, line);
        return two, "", 0.0, None;
      }
      assert EqualsFollows(source, start, line, two, one) == Simple(one, start, line);
      return one, "", 0.0, None;
    }

    /** `resolveTokenKind`. */
    method ResolveTokenKind() returns (kind: TokenKind, literal: string, value: real, err: Option<ScanError>)
      requires lexemeStart == current < |source|
      modifies this`current, this`line
      ensures Lexed(kind, literal, value, err, current, line) == ResolveAt(source, old(current), old(line))
    {
      var c := Advance();
      match c
      case '(' => return LeftParenthesis, "", 0.0, None;
      case ')' => return RightParenthesis, "", 0.0, None;
      case '{' => return LeftBrace, "", 0.0, None;
      case '}' => return RightBrace, "", 0.0, None;
      case ',' => return Comma, "", 0.0, None;
      case '.' => return Dot, "", 0.0, None;
      case '-' => return Minus, "", 0.0, None;
      case '+' => return Plus, "", 0.0, None;
      case ';' => return Semicolon, "", 0.0, None;
      case '*' => return Star, "", 0.0, None;
      case '!' => kind, literal, value, err := EqualsOr(BangEqual, Bang);
      case '=' => kind, literal, value, err := EqualsOr(EqualEqual, Equal);
      case '<' => kind, literal, value, err := EqualsOr(LessEqual, Less);
      case '>' => kind, literal, value, err := EqualsOr(GreaterEqual, Greater);
      case '\\' =>
        var hit := Match('\\');
        if hit {
          kind, literal, value, err := SkipComment();
        } else {
          return Slash, "", 0.0, None;
        }
      case ' ' => return Meaningless, "", 0.0, None;
      case '\r' => return Meaningless, "", 0.0, None;
      case '\t' => return Meaningless, "", 0.0, None;
      case '\n' =>
        line := line + 1;
        return Meaningless, "", 0.0, None;
      case '"' => kind, literal, value, err := CreateString();
      case _ =>
        if IsDigit(c) {
          kind, literal, value, err := CreateNumber();
        } else if IsAlphanumeric(c) {
          kind, literal, value, err := CreateIdentifier();
        } else {
          return EOF, "", 0.0, Some(NotRecognized(line, PeekCurrentLexeme()));
        }
    }

    /** `ScanTokens` (a value receiver: it scans a copy and leaves this scanner unchanged).
        The result is the receiver's tokens, then the scanned tokens, then one EOF token on
        the final line; the errors are those of the lexemes that failed. */
    method ScanTokens() returns (toks: seq<Token>, errs: seq<ScanError>)
      ensures var s := ScanLoop(source, current, line, tokens, []);
        toks == s.tokens + [EofToken(s.line)] && errs == s.errs
    {
      var w := new Scanner.CopyOf(this);
      errs := [];
      while !w.IsAtEnd()
        invariant w.source == source
        invariant ScanLoop(source, w.current, w.line, w.tokens, errs) == ScanLoop(source, current, line, tokens, [])
        decreases |source| - w.current
      {
        ghost var start, l0, t0, e0 := w.current, w.line, w.tokens, errs;
        ghost var r := ResolveAt(source, start, l0);
        assert ScanLoop(source, start, l0, t0, e0) == ScanLoop(source, r.next, r.line, t0 + Emitted(source, start, r), e0 + Reported(r));
        w.lexemeStart := w.current;
        var kind, literal, value, err := w.ResolveTokenKind();
        assert Lexed(kind, literal, value, err, w.current, w.line) == r;
        if err.Some? {
          errs := errs + [err.value];
        } else {
          w.AddToken(kind, literal, value);
        }
        assert w.tokens == t0 + Emitted(source, start, r);
        assert errs == e0 + Reported(r);
      }
      w.tokens := w.tokens + [EofToken(w.line)];
      toks := w.tokens;
    }
  }
}

/** Properties of the scanner specification. */
module ScannerProperties {
  import opened Wrappers
  import opened Tokens
  import opened Scanner

  /** Tokens a scan may keep: never EOF (only the final token is) and never Meaningless. */
  predicate Kept(ts: seq<Token>)
  {
    forall i :: 0 <= i < |ts| ==> ts[i].kind != EOF && ts[i].kind != Meaningless
  }

  /** The scan loop only appends: it keeps what was collected, adds only kept tokens, and
      never moves the line counter backwards. */
  lemma {:induction false} ScanLoopExtends(src: string, cur: nat, line: int, toks: seq<Token>, errs: seq<ScanError>)
    requires Kept(toks)
    ensures var s := ScanLoop(src, cur, line, toks, errs);
      Kept(s.tokens) && toks <= s.tokens && errs <= s.errs && s.line >= line
    decreases |src| - cur
  {
    if cur < |src| {
      var r := ResolveAt(src, cur, line);
      assert r.line >= line by {
        if src[cur] == '"' {
          assert r == StringAt(src, cur, line);
        }
      }
      ScanLoopExtends(src, r.next, r.line, toks + Emitted(src, cur, r), errs + Reported(r));
    }
  }

  /** `ScanTokens` on a fresh scanner ends with exactly one EOF token, which carries the
      final line, whether or not any lexeme failed. */
  lemma ScanEndsWithOneEof(src: string)
    ensures var (ts, _) := ScanSource(src);
      |ts| >= 1 && ts[|ts| - 1] == EofToken(ScanLoop(src, 0, 0, [], []).line) &&
      forall i :: 0 <= i < |ts| ==> (ts[i].kind == EOF <==> i == |ts| - 1)
  {
    ScanLoopExtends(src, 0, 0, [], []);
  }

  /** The line counter starts at 0 and ends at or after it. */
  lemma ScanLinesStartAtZero(src: string)
    ensures ScanSource(src).0[|ScanSource(src).0| - 1].line >= 0
  {
    ScanLoopExtends(src, 0, 0, [], []);
  }

  /** Maximal munch: `!=`, `==`, `<=` and `>=` are one token, not their one-character
      prefix followed by `=`; without a following `=` the prefix alone is the token. */
  lemma TwoCharacterOperatorsWin(src: string, start: nat, line: int)
    requires start < |src| && src[start] in "!=<>"
    ensures var r := ResolveAt(src, start, line);
      var two := start + 1 < |src| && src[start + 1] == '=';
      r.err == None && r.line == line && r.next == (if two then start + 2 else start + 1) &&
      r.kind == match src[start]
        case '!' => if two then BangEqual else Bang
        case '=' => if two then EqualEqual else Equal
        case '<' => if two then LessEqual else Less
        case _ => if two then GreaterEqual else Greater
  {
  }

  predicate IsBlank(c: char) { c == ' ' || c == '\r' || c == '\t' || c == '\n' }

  lemma {:induction false} NewlinesFront(src: string, i: nat, j: nat)
    requires i < j <= |src|
    ensures NewlinesIn(src, i, j) == (if src[i] == '\n' then 1 else 0) + NewlinesIn(src, i + 1, j)
    decreases j - i
  {
    if i + 1 < j {
      NewlinesFront(src, i, j - 1);
    }
  }

  /** Spaces, tabs and carriage returns yield no token; each newline yields no token and
      increments the line counter. */
  lemma {:induction false} BlanksYieldNothing(src: string, cur: nat, line: int, toks: seq<Token>, errs: seq<ScanError>)
    requires cur <= |src|
    requires forall k :: cur <= k < |src| ==> IsBlank(src[k])
    ensures ScanLoop(src, cur, line, toks, errs) == Scanned(toks, errs, line + NewlinesIn(src, cur, |src|))
    decreases |src| - cur
  {
    if cur < |src| {
      var next := if src[cur] == '\n' then line + 1 else line;
      var r := ResolveAt(src, cur, line);
      assert r == Simple(Meaningless, cur + 1, next);
      assert toks + Emitted(src, cur, r) == toks && errs + Reported(r) == errs;
      NewlinesFront(src, cur, |src|);
      BlanksYieldNothing(src, cur + 1, next, toks, errs);
    }
  }

  /** A comment (two backslashes) that reaches the end of the input is an error and adds no
      token. */
  lemma CommentAtEndIsError(src: string, start: nat, line: int, toks: seq<Token>, errs: seq<ScanError>)
    requires start + 1 < |src| && src[start] == '\\' && src[start + 1] == '\\'
    requires forall k :: start + 2 <= k < |src| ==> src[k] != '\n'
    ensures ScanLoop(src, start, line, toks, errs) == Scanned(toks, errs + [EndOfFileReached], line)
  {
    assert ScanWhile(src, start + 2, NotNewline) == |src|;
  }

  /** A comment ended by a newline adds no token and no error; the comment increments the
      line and the newline that follows increments it again. */
  lemma CommentThenNewline(src: string, start: nat, e: nat, line: int, toks: seq<Token>, errs: seq<ScanError>)
    requires start + 1 < |src| && src[start] == '\\' && src[start + 1] == '\\'
    requires start + 2 <= e < |src| && src[e] == '\n'
    requires forall k :: start + 2 <= k < e ==> src[k] != '\n'
    ensures ScanLoop(src, start, line, toks, errs) == ScanLoop(src, e + 1, line + 2, toks, errs)
  {
    CommentSkipsToNewline(src, start, e, line, toks, errs);
    NewlineYieldsNothing(src, e, line + 1, toks, errs);
  }

  /** The comment itself: the scan resumes at the newline that ends it, one line on. */
  lemma CommentSkipsToNewline(src: string, start: nat, e: nat, line: int, toks: seq<Token>, errs: seq<ScanError>)
    requires start + 1 < |src| && src[start] == '\\' && src[start + 1] == '\\'
    requires start + 2 <= e < |src| && src[e] == '\n'
    requires forall k :: start + 2 <= k < e ==> src[k] != '\n'
    ensures ScanLoop(src, start, line, toks, errs) == ScanLoop(src, e, line + 1, toks, errs)
  {
    assert ScanWhile(src, start + 2, NotNewline) == e;
    var r := ResolveAt(src, start, line);
    assert r == Simple(Meaningless, e, line + 1);
    assert toks + Emitted(src, start, r) == toks && errs + Reported(r) == errs;
  }

  /** A newline adds nothing and increments the line counter. */
  lemma NewlineYieldsNothing(src: string, e: nat, line: int, toks: seq<Token>, errs: seq<ScanError>)
    requires e < |src| && src[e] == '\n'
    ensures ScanLoop(src, e, line, toks, errs) == ScanLoop(src, e + 1, line + 1, toks, errs)
  {
    var r := ResolveAt(src, e, line);
    assert r == Simple(Meaningless, e + 1, line + 1);
    assert toks + Emitted(src, e, r) == toks && errs + Reported(r) == errs;
  }

  /** A single backslash is the Slash token. */
  lemma SingleBackslashIsSlash(src: string, start: nat, line: int)
    requires start < |src| && src[start] == '\\'
    requires start + 1 == |src| || src[start + 1] != '\\'
    ensures ResolveAt(src, start, line) == Simple(Slash, start + 1, line)
  {
  }

  /** A string token's literal is the text strictly between its quotes, its lexeme keeps the
      quotes, and the newlines inside it advance the line counter. */
  lemma StringLiteralBetweenQuotes(src: string, start: nat, j: nat, line: int)
    requires start < j < |src| && src[start] == '"' && src[j] == '"'
    requires forall k :: start < k < j ==> src[k] != '"'
    ensures var r := ResolveAt(src, start, line);
      r == Lexed(String, src[start + 1..j], 0.0, None, j + 1, line + NewlinesIn(src, start + 1, j)) &&
      Emitted(src, start, r) == [Token(String, src[start..j + 1], src[start + 1..j], 0.0, r.line)]
  {
    assert ScanWhile(src, start + 1, NotQuote) == j;
    var r := ResolveAt(src, start, line);
    assert r == StringAt(src, start, line);
    assert r.err == None && r.kind == String && r.next == j + 1;
  }

  /** Reaching the end of the input before the closing quote is "Unterminated string", with
      no token and the cursor at the end. */
  lemma UnterminatedStringIsError(src: string, start: nat, line: int)
    requires start < |src| && src[start] == '"'
    requires forall k :: start < k < |src| ==> src[k] != '"'
    ensures var r := ResolveAt(src, start, line);
      r.err == Some(UnterminatedString) && r.next == |src| && Emitted(src, start, r) == []
  {
    assert ScanWhile(src, start + 1, NotQuote) == |src|;
  }

  /** An identifier is a letter or underscore followed by the longest run of letters, digits
      and underscores; it is reclassified as a keyword exactly when its text is reserved. */
  lemma IdentifiersAreMaximalAndReclassified(src: string, start: nat, line: int)
    requires start < |src| && IsAlpha(src[start])
    ensures var r := ResolveAt(src, start, line);
      var text := src[start..r.next];
      r.err == None &&
      (forall k :: start <= k < r.next ==> IsAlphanumeric(src[k])) &&
      (r.next == |src| || !IsAlphanumeric(src[r.next])) &&
      (text in Keywords ==> r.kind == Keywords[text]) &&
      (text !in Keywords ==> r.kind == Identifier)
  {
  }

  /** The bytes the scanner accepts as the start of some lexeme. */
  predicate Recognized(c: char)
  {
    c in "(){},.-+;*!=<>\\ \r\t\n\"" || IsDigit(c) || IsAlpha(c)
  }

  /** Any other byte (for example `/`) is reported with its line and text, adds no token,
      and scanning resumes at the next byte. */
  lemma UnrecognizedByteIsReported(src: string, cur: nat, line: int, toks: seq<Token>, errs: seq<ScanError>)
    requires cur < |src| && !Recognized(src[cur])
    ensures ScanLoop(src, cur, line, toks, errs) ==
            ScanLoop(src, cur + 1, line, toks, errs + [NotRecognized(line, [src[cur]])])
  {
    assert src[cur..cur + 1] == [src[cur]];
    var r := ResolveAt(src, cur, line);
    assert r == Failed(EOF, NotRecognized(line, [src[cur]]), cur + 1, line);
    assert toks + Emitted(src, cur, r) == toks;
  }

  /** A number that runs to the end of the input is the peek error "End of file reached"
      and adds no token. */
  lemma NumberAtEndIsError(src: string, start: nat, line: int)
    requires start < |src| && forall k :: start <= k < |src| ==> IsDigit(src[k])
    ensures var r := ResolveAt(src, start, line);
      r.err == Some(EndOfFileReached) && r.next == |src| && Emitted(src, start, r) == []
  {
    assert ScanWhile(src, start + 1, IsDigit) == |src|;
  }

  // ---------------------------------------------------------------------------------
  // The `peekNext` bound

  /** What `peekNext` does as written: its guard `current_char+1 > len(source)` lets
      `current_char+1 == len(source)` through to an index that is out of range. */
  datatype Peeked = Byte(c: char) | PeekFailed(e: ScanError) | IndexOutOfRange

  function PeekNextAsWritten(src: string, cur: nat): (p: Peeked)
    ensures p == IndexOutOfRange <==> cur + 1 == |src|
  {
    if cur + 1 > |src| then PeekFailed(EofReached)
    else if cur + 1 < |src| then Byte(src[cur + 1])
    else IndexOutOfRange
  }

  /** On "1;" the number branch stops its digit loop at index 1, where `peek` succeeds, and
      then calls `peekNext` at the last byte: as written that reads index 2 of a 2-byte
      string. The corrected bound reports "EOF reached" instead. */
  lemma NumberBeforeLastByteReadsPastEnd()
    ensures ScanWhile("1;", 1, IsDigit) == 1
    ensures PeekNextAsWritten("1;", 1) == IndexOutOfRange
    ensures PeekNextAt("1;", 1) == Err(EofReached)
  {
    assert ScanWhile("1;", 1, IsDigit) == 1 by {
      assert !IsDigit("1;"[1]);
    }
  }

  /** With the corrected bound, "1;" reports "EOF reached" for the number, keeps scanning
      and yields the semicolon and the EOF token. */
  lemma NumberBeforeLastByteCorrected()
    ensures ScanSource("1;") == ([Token(Semicolon, ";", "", 0.0, 0), EofToken(0)], [EofReached])
  {
    assert ScanWhile("1;", 1, IsDigit) == 1 by {
      assert !IsDigit("1;"[1]);
    }
    var r := ResolveAt("1;", 0, 0);
    assert r == Failed(Number, EofReached, 1, 0);
    var r2 := ResolveAt("1;", 1, 0);
    assert r2 == Simple(Semicolon, 2, 0);
    assert "1;"[1..2] == ";";
    assert ScanLoop("1;", 2, 0, [Token(Semicolon, ";", "", 0.0, 0)], [EofReached])
        == Scanned([Token(Semicolon, ";", "", 0.0, 0)], [EofReached], 0);
    assert ScanLoop("1;", 1, 0, [], [EofReached])
        == ScanLoop("1;", 2, 0, [Token(Semicolon, ";", "", 0.0, 0)], [EofReached]);
    assert ScanLoop("1;", 0, 0, [], []) == ScanLoop("1;", 1, 0, [], [EofReached]);
    assert [Token(Semicolon, ";", "", 0.0, 0)] + [EofToken(0)] == [Token(Semicolon, ";", "", 0.0, 0), EofToken(0)];
  }

  // ---------------------------------------------------------------------------------
  // The unit tests of golox/internal/scanner/scanner_test.go

  /** "88.8" scans to one number token whose value is 88.8, and no error. */
  lemma ScansNumber()
    ensures ScanSource("88.8") == ([Token(Number, "88.8", "", 88.8, 0), EofToken(0)], [])
  {
    var src := "88.8";
    assert ScanWhile(src, 1, IsDigit) == 2 by {
      assert IsDigit(src[1]) && !IsDigit(src[2]);
      assert ScanWhile(src, 2, IsDigit) == 2;
    }
    assert ScanWhile(src, 3, IsDigit) == 4;
    assert DotIndex(src) == 2 by {
      assert src[1..] == "8.8" && "8.8"[1..] == ".8";
    }
    assert src[..2] == "88" && src[3..] == "8";
    assert DigitsValue("88") == 88 by {
      assert "88"[..1] == "8";
      assert "8"[..0] == "";
    }
    assert ParseDecimal(src) == 88.8;
    assert src[0..4] == src;
    var r := ResolveAt(src, 0, 0);
    assert r == Lexed(Number, "", 88.8, None, 4, 0);
    assert ScanLoop(src, 0, 0, [], []) == Scanned([Token(Number, "88.8", "", 88.8, 0)], [], 0);
    assert [Token(Number, "88.8", "", 88.8, 0)] + [EofToken(0)] == [Token(Number, "88.8", "", 88.8, 0), EofToken(0)];
  }

  /** "\"Ahoj\"" scans to one string token whose literal is "Ahoj", and no error. */
  lemma ScansString()
    ensures ScanSource("\"Ahoj\"") == ([Token(String, "\"Ahoj\"", "Ahoj", 0.0, 0), EofToken(0)], [])
  {
    var src := "\"Ahoj\"";
    StringLiteralBetweenQuotes(src, 0, 5, 0);
    assert NewlinesIn(src, 1, 5) == 0;
    assert src[1..5] == "Ahoj" && src[0..6] == src;
    assert ScanLoop(src, 0, 0, [], []) == Scanned([Token(String, src, "Ahoj", 0.0, 0)], [], 0);
    assert [Token(String, src, "Ahoj", 0.0, 0)] + [EofToken(0)] == [Token(String, src, "Ahoj", 0.0, 0), EofToken(0)];
  }

  /** Reserved words are matched case-sensitively: "And and" scans to an identifier followed
      by the And keyword (the reverse of what `Test_createIdent` expects). */
  lemma ScansKeywordsCaseSensitively()
    ensures ScanSource("And and").0 ==
      [Token(Identifier, "And", "", 0.0, 0), Token(And, "and", "", 0.0, 0), EofToken(0)]
  {
    var src := "And and";
    var t0 := Token(Identifier, "And", "", 0.0, 0);
    var t1 := Token(And, "and", "", 0.0, 0);
    ScansCapitalisedAnd();
    ScansLowerCaseAnd();
    ScanLoopStep(src, 0, 0, [], []);
    assert [] + [t0] == [t0];
    ScanLoopStep(src, 3, 0, [t0], []);
    assert [t0] + [] == [t0];
    assert [t0, t1] + [EofToken(0)] == [t0, t1, EofToken(0)];
  }

  /** One turn of the scan loop. */
  lemma ScanLoopStep(src: string, cur: nat, line: int, toks: seq<Token>, errs: seq<ScanError>)
    requires cur < |src|
    ensures var r := ResolveAt(src, cur, line);
      ScanLoop(src, cur, line, toks, errs) ==
      ScanLoop(src, r.next, r.line, toks + Emitted(src, cur, r), errs + Reported(r))
  {
  }

  /** The first word of "And and" is an identifier. */
  lemma ScansCapitalisedAnd()
    ensures ResolveAt("And and", 0, 0) == Simple(Identifier, 3, 0)
    ensures Emitted("And and", 0, Simple(Identifier, 3, 0)) == [Token(Identifier, "And", "", 0.0, 0)]
  {
    var src := "And and";
    KeywordsCaseSensitive();
    assert ScanWhile(src, 1, IsAlphanumeric) == 3 by {
      assert IsAlphanumeric(src[1]) && IsAlphanumeric(src[2]) && !IsAlphanumeric(src[3]);
      assert ScanWhile(src, 3, IsAlphanumeric) == 3;
    }
    assert src[0..3] == "And";
    assert ResolveAt(src, 0, 0) == IdentifierAt(src, 0, 0);
  }

  /** The second word of "And and" is the keyword. */
  lemma ScansLowerCaseAnd()
    ensures ScanLoop("And and", 4, 0, [Token(Identifier, "And", "", 0.0, 0)], []) ==
      Scanned([Token(Identifier, "And", "", 0.0, 0), Token(And, "and", "", 0.0, 0)], [], 0)
    ensures ResolveAt("And and", 3, 0) == Simple(Meaningless, 4, 0)
  {
    var src := "And and";
    KeywordsCaseSensitive();
    assert ScanWhile(src, 5, IsAlphanumeric) == 7;
    assert src[4..7] == "and";
    var r2 := ResolveAt(src, 4, 0);
    assert r2 == IdentifierAt(src, 4, 0);
    assert r2 == Simple(And, 7, 0);
  }
}
