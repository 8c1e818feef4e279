/** The lexer: a cursor over the source text that yields one token per call.
    `Scan` is the specification of one call; the class `Lexer` is the cursor
    itself and is proved to follow `Scan`. */
module Lexing {
  import opened Tokens

  // Character classes, on ASCII.

  /** The ASCII characters that Python's `str.isspace` accepts. */
  predicate IsSpace(c: char) { 9 <= c as int <= 13 || 28 <= c as int <= 32 }

  predicate IsDigit(c: char) { '0' <= c <= '9' }

  predicate IsAlpha(c: char) { 'a' <= c <= 'z' || 'A' <= c <= 'Z' }

  /** The characters of a name: letters and underscore. */
  predicate IsNameChar(c: char) { IsAlpha(c) || c == '_' }

  /** The characters a line comment consumes. */
  predicate NotNewline(c: char) { c != '\n' }

  /** The characters that may begin a token. */
  predicate StartsToken(c: char)
  {
    IsDigit(c) || IsNameChar(c) || c == '=' || c == '(' || c == ')' || c == ','
  }

  /** The character under the cursor; `None` once the cursor is past the text. */
  function CharAt(code: string, p: nat): Option<char>
  {
    if p < |code| then Some(code[p]) else None
  }

  /** The end of the longest run of characters in the class `inRun` that starts at `p`. */
  function RunEnd(code: string, p: nat, inRun: char -> bool): (e: nat)
    requires p <= |code|
    ensures p <= e <= |code|
    ensures forall k | p <= k < e :: inRun(code[k])
    ensures e == |code| || !inRun(code[e])
    decreases |code| - p
  {
    if p < |code| && inRun(code[p]) then RunEnd(code, p + 1, inRun) else p
  }

  // Numerals.

  predicate AllDigits(s: string)
  {
    forall k | 0 <= k < |s| :: IsDigit(s[k])
  }

  function DigitValue(c: char): (d: nat)
    requires IsDigit(c)
    ensures d < 10
  {
    c as int - '0' as int
  }

  function DigitChar(d: nat): (c: char)
    requires d < 10
    ensures IsDigit(c) && DigitValue(c) == d
  {
    ('0' as int + d) as char
  }

  function Pow10(n: nat): (r: nat)
    ensures r >= 1
  {
    if n == 0 then 1 else 10 * Pow10(n - 1)
  }

  /** The value Python's `int` gives a non-empty string of decimal digits
      (the empty string, which `int` rejects, folds to 0). */
  function Numeral(s: string): (n: nat)
    requires AllDigits(s)
    ensures n < Pow10(|s|)
  {
    if s == [] then 0 else 10 * Numeral(s[..|s| - 1]) + DigitValue(s[|s| - 1])
  }

  /** The decimal spelling of a natural number, without leading zeros. */
  function Decimal(n: nat): (s: string)
    ensures |s| > 0 && AllDigits(s)
    ensures |s| > 1 ==> s[0] != '0'
  {
    if n < 10 then [DigitChar(n)] else Decimal(n / 10) + [DigitChar(n % 10)]
  }

  lemma {:induction false} NumeralOfDecimal(n: nat)
    ensures Numeral(Decimal(n)) == n
  {
    if n >= 10 {
      var s := Decimal(n / 10);
      var t := s + [DigitChar(n % 10)];
      assert t[..|t| - 1] == s;
      NumeralOfDecimal(n / 10);
    }
  }

  // One call of the lexer.

  /** The four two-character prefixes the lexer would take for keywords. */
  const KeywordPrefixes: set<string> := {"O ", "YA", "NO", "OI"}

  /** `s` with every blank replaced by an underscore. */
  function Underscored(s: string): (r: string)
    ensures |r| == |s|
  {
    seq(|s|, k requires 0 <= k < |s| => if s[k] == ' ' then '_' else s[k])
  }

  /** The token types of the one-character tokens. */
  function Punctuation(c: char): (r: Option<TokenKind>)
    ensures r.Some? ==> r.value in {Eq, LParen, RParen, Comma}
  {
    if c == '=' then Some(Eq)
    else if c == '(' then Some(LParen)
    else if c == ')' then Some(RParen)
    else if c == ',' then Some(Comma)
    else None
  }

  /** What one call of the lexer returns when the cursor is at `p`, and
      where it leaves the cursor. */
  function Scan(code: string, p: nat): (r: (Result<Token>, nat))
    requires p <= |code|
    ensures p <= r.1 <= |code|
    ensures r.0.Ok? && r.0.value.kind != Eof ==> p < r.1
    ensures r.0.Ok? && r.0.value.kind == Eof ==> r.1 == |code|
    ensures r.0.Ok? ==> r.0.value.WellFormed()
    decreases |code| - p
  {
    if p == |code| then (Ok(EofToken), p)
    else
      var c := code[p];
      if IsSpace(c) then Scan(code, RunEnd(code, p, IsSpace))
      else if IsDigit(c) then
        var e := RunEnd(code, p, IsDigit);
        (Ok(Token(Integer, IntValue(Numeral(code[p..e])))), e)
      else if IsNameChar(c) then
        var e := RunEnd(code, p, IsNameChar);
        (Ok(Token(Variable, Text(code[p..e]))), e)
      else if Punctuation(c).Some? then (Ok(Token(Punctuation(c).value, NoValue)), p + 1)
      else if c == '#' then Scan(code, RunEnd(code, p, NotNewline))
      else
        var two := code[p..if p + 1 < |code| then p + 2 else p + 1];
        if two in KeywordPrefixes then
          match KindOfSpelling(Underscored(two))
          case Some(k) => (Ok(Token(k, NoValue)), p + 2)
          case None => (Err(UnknownTokenType(Underscored(two))), p + 2)
        else (Err(InvalidCharacter(c, p)), p)
  }

  /** The cursor as it rests after whitespace and comments starting at `p`. */
  function SkipTrivia(code: string, p: nat): (q: nat)
    requires p <= |code|
    ensures p <= q <= |code|
    ensures q < |code| ==> !IsSpace(code[q]) && code[q] != '#'
    decreases |code| - p
  {
    if p < |code| && IsSpace(code[p]) then SkipTrivia(code, RunEnd(code, p, IsSpace))
    else if p < |code| && code[p] == '#' then SkipTrivia(code, RunEnd(code, p, NotNewline))
    else p
  }

  /** A call fails exactly when, after whitespace and comments, the cursor
      rests on a character that cannot begin a token; the error names that
      character and its position, and the two-character keyword branch never
      decides anything. */
  lemma {:induction false} ScanFailsIff(code: string, p: nat)
    requires p <= |code|
    ensures var q := SkipTrivia(code, p);
      && (Scan(code, p).0.Err? <==> q < |code| && !StartsToken(code[q]))
      && (Scan(code, p).0.Err? ==> Scan(code, p) == (Err(InvalidCharacter(code[q], q)), q))
    decreases |code| - p
  {
    if p < |code| && IsSpace(code[p]) {
      ScanFailsIff(code, RunEnd(code, p, IsSpace));
    } else if p < |code| && code[p] == '#' {
      ScanFailsIff(code, RunEnd(code, p, NotNewline));
    } else if p < |code| && !StartsToken(code[p]) {
      KeywordBranchUnreachable(code, p);
    }
  }

  /** The two-character branch is dead: every prefix it looks for begins with
      a letter, which the name rule has already taken. */
  lemma KeywordBranchUnreachable(code: string, p: nat)
    requires p < |code| && !IsNameChar(code[p])
    ensures code[p..if p + 1 < |code| then p + 2 else p + 1] !in KeywordPrefixes
  {
    var two := code[p..if p + 1 < |code| then p + 2 else p + 1];
    assert two[0] == code[p];
  }

  /** At a digit, one call yields one INTEGER token holding the value of the
      longest run of digits, and the cursor rests just after that run. */
  lemma ScanInteger(code: string, p: nat)
    requires p < |code| && IsDigit(code[p])
    ensures var (r, e) := Scan(code, p);
      && p < e
      && (forall k | p <= k < e :: IsDigit(code[k]))
      && (e == |code| || !IsDigit(code[e]))
      && r == Ok(Token(Integer, IntValue(Numeral(code[p..e]))))
  {
  }

  /** At a letter or underscore, one call yields one VARIABLE token holding
      the longest run of letters and underscores. */
  lemma ScanName(code: string, p: nat)
    requires p < |code| && IsNameChar(code[p])
    ensures var (r, e) := Scan(code, p);
      && p < e
      && (forall k | p <= k < e :: IsNameChar(code[k]))
      && (e == |code| || !IsNameChar(code[e]))
      && r == Ok(Token(Variable, Text(code[p..e])))
  {
  }

  /** Whitespace and comments yield no token: a call at `p` returns what a
      call at the end of the skipped stretch returns. */
  lemma {:induction false} ScanSkipsTrivia(code: string, p: nat)
    requires p <= |code|
    ensures Scan(code, p) == Scan(code, SkipTrivia(code, p))
    decreases |code| - p
  {
    if p < |code| && IsSpace(code[p]) {
      ScanSkipsTrivia(code, RunEnd(code, p, IsSpace));
    } else if p < |code| && code[p] == '#' {
      var e := RunEnd(code, p, NotNewline);
      assert e == |code| || code[e] == '\n';
      ScanSkipsTrivia(code, e);
    }
  }

  /** At the end of the text a call yields EOF and leaves the cursor where it
      is, so that calling again yields EOF again. */
  lemma EofIsStable(code: string, p: nat)
    requires p <= |code| && Scan(code, p).0 == Ok(EofToken)
    ensures Scan(code, Scan(code, p).1) == (Ok(EofToken), |code|)
  {
  }

  // The lexer as the stream of its successive calls.

  /** The token stream of the text from cursor `p` on: the tokens of
      successive calls up to EOF or up to the first error. */
  function Lex(code: string, p: nat): (s: TokenStream)
    requires p <= |code|
    ensures s.WellFormed()
    ensures EofToken !in s.tokens
    decreases |code| - p
  {
    var step := Scan(code, p);
    match step.0
    case Err(e) => TokenStream([], Some(e))
    case Ok(t) =>
      if t.kind == Eof then TokenStream([], None)
      else
        var rest := Lex(code, step.1);
        TokenStream([t] + rest.tokens, rest.failure)
  }

  /** The `k`-th call (counting from 0) of a lexer whose cursor starts at
      `p`; a raised error ends the sequence of calls. */
  function Pull(code: string, p: nat, k: nat): (r: Result<Token>)
    requires p <= |code|
    ensures r.Ok? ==> r.value.WellFormed()
    decreases k
  {
    var step := Scan(code, p);
    if k == 0 || step.0.Err? then step.0 else Pull(code, step.1, k - 1)
  }

  lemma {:induction false} PullAtEnd(code: string, k: nat)
    ensures Pull(code, |code|, k) == Ok(EofToken)
    decreases k
  {
    if k > 0 {
      PullAtEnd(code, k - 1);
    }
  }

  /** The stream `Lex` describes is exactly what successive calls return. */
  lemma {:induction false} LexIsPull(code: string, p: nat, k: nat)
    requires p <= |code|
    ensures Lex(code, p).At(k) == Pull(code, p, k)
    decreases k
  {
    var r := Scan(code, p).0;
    if k == 0 || r.Err? || r.value.kind == Eof {
      LexStops(code, p, k);
    } else {
      var q := Scan(code, p).1;
      LexIsPull(code, q, k - 1);
      LexStep(code, p, k);
    }
  }

  /** The first call, a call after an error and any call after EOF agree with the stream. */
  lemma LexStops(code: string, p: nat, k: nat)
    requires p <= |code|
    requires k == 0 || Scan(code, p).0.Err? || Scan(code, p).0.value.kind == Eof
    ensures Lex(code, p).At(k) == Pull(code, p, k)
  {
    var (r, q) := Scan(code, p);
    if k > 0 && r.Ok? {
      PullAtEnd(code, k - 1);
    }
  }

  /** One more token in front of the stream shifts every later position by one. */
  lemma LexStep(code: string, p: nat, k: nat)
    requires p <= |code| && k > 0
    requires Scan(code, p).0.Ok? && Scan(code, p).0.value.kind != Eof
    ensures Lex(code, p).At(k) == Lex(code, Scan(code, p).1).At(k - 1)
    ensures Pull(code, p, k) == Pull(code, Scan(code, p).1, k - 1)
  {
    var t := Scan(code, p).0.value;
    var rest := Lex(code, Scan(code, p).1);
    assert Lex(code, p) == TokenStream([t] + rest.tokens, rest.failure);
    if k - 1 < |rest.tokens| {
      assert ([t] + rest.tokens)[k] == rest.tokens[k - 1];
    }
  }

  /** Lexing the decimal spelling of `n` yields one INTEGER token of value `n`, then EOF. */
  lemma LexDecimal(n: nat)
    ensures Lex(Decimal(n), 0) == TokenStream([Token(Integer, IntValue(n))], None)
  {
    var code := Decimal(n);
    assert code[0..|code|] == code;
    NumeralOfDecimal(n);
  }

  /** Lexing a word of letters and underscores yields one VARIABLE token with
      exactly that text, then EOF: keyword-looking words are names too. */
  lemma LexWord(w: string)
    requires |w| > 0 && forall k | 0 <= k < |w| :: IsNameChar(w[k])
    ensures Lex(w, 0) == TokenStream([Token(Variable, Text(w))], None)
  {
    assert w[0..|w|] == w;
  }

  /** `O RLY?` lexes as the names `O` and `RLY`, then fails on `?`. */
  lemma LexORly()
    ensures Lex("O RLY?", 0)
         == TokenStream([Token(Variable, Text("O")), Token(Variable, Text("RLY"))],
                        Some(InvalidCharacter('?', 5)))
  {
    var code := "O RLY?";
    assert code[5] == '?';
    assert Scan(code, 5) == (Err(InvalidCharacter('?', 5)), 5) by {
      KeywordBranchUnreachable(code, 5);
    }
    assert code[1] == ' ' && code[2] == 'R' && code[3] == 'L' && code[4] == 'Y';
    assert code[2..5] == "RLY";
    assert Scan(code, 1) == (Ok(Token(Variable, Text("RLY"))), 5);
    assert Lex(code, 1) == TokenStream([Token(Variable, Text("RLY"))], Some(InvalidCharacter('?', 5)));
    assert code[0] == 'O';
    assert code[0..1] == "O";
    assert Scan(code, 0) == (Ok(Token(Variable, Text("O"))), 1);
  }

  /** The arithmetic signs and quotes are no tokens at all. */
  lemma ScanRejectsSigns(code: string, p: nat)
    requires p < |code| && code[p] in "+-\"?"
    ensures Scan(code, p) == (Err(InvalidCharacter(code[p], p)), p)
  {
    KeywordBranchUnreachable(code, p);
  }

  /** The cursor over the source text. */
  class Lexer {
    const code: string
    var pos: nat
    var currentChar: Option<char>

    /** The cursor lies within the text and `currentChar` is the character under it. */
    ghost predicate Valid()
      reads this
    {
      pos <= |code| && currentChar == CharAt(code, pos)
    }

    constructor (code: string)
      ensures this.code == code && pos == 0 && Valid()
    {
      this.code := code;
      pos := 0;
      currentChar := CharAt(code, 0);
    }

    method Advance()
      requires currentChar == CharAt(code, pos)
      modifies this
      ensures pos == old(pos) + 1 && currentChar == CharAt(code, pos)
    {
      pos := pos + 1;
      currentChar := if pos < |code| then Some(code[pos]) else None;
    }

    method SkipWhitespace()
      requires Valid()
      modifies this
      ensures Valid() && pos == RunEnd(code, old(pos), IsSpace)
    {
      while currentChar.Some? && IsSpace(currentChar.value)
        invariant Valid() && old(pos) <= pos
        invariant RunEnd(code, old(pos), IsSpace) == RunEnd(code, pos, IsSpace)
        decreases |code| - pos
      {
        Advance();
      }
    }

    /** The comment loop inside the token loop: moves to the next newline or the end. */
    method SkipComment()
      requires Valid()
      modifies this
      ensures Valid() && pos == RunEnd(code, old(pos), NotNewline)
    {
      while currentChar.Some? && currentChar.value != '\n'
        invariant Valid() && old(pos) <= pos
        invariant RunEnd(code, old(pos), NotNewline) == RunEnd(code, pos, NotNewline)
        decreases |code| - pos
      {
        Advance();
      }
    }

    /** Reads the longest run of digits; like `int('')`, fails when there is none. */
    method Integer() returns (r: Result<int>)
      requires Valid()
      modifies this
      ensures Valid() && pos == RunEnd(code, old(pos), IsDigit)
      ensures r == if old(pos) < pos then Ok(Numeral(code[old(pos)..pos]))
                   else Err(InvalidLiteral(""))
    {
      var result := "";
      while currentChar.Some? && IsDigit(currentChar.value)
        invariant Valid() && old(pos) <= pos
        invariant result == code[old(pos)..pos]
        invariant RunEnd(code, old(pos), IsDigit) == RunEnd(code, pos, IsDigit)
        decreases |code| - pos
      {
        result := result + [currentChar.value];
        Advance();
      }
      if result == "" {
        r := Err(InvalidLiteral(""));
      } else {
        r := Ok(Numeral(result));
      }
    }

    /** Reads the longest run of letters and underscores. */
    method Variable() returns (name: string)
      requires Valid()
      modifies this
      ensures Valid() && pos == RunEnd(code, old(pos), IsNameChar)
      ensures name == code[old(pos)..pos]
    {
      name := "";
      while currentChar.Some? && IsNameChar(currentChar.value)
        invariant Valid() && old(pos) <= pos
        invariant name == code[old(pos)..pos]
        invariant RunEnd(code, old(pos), IsNameChar) == RunEnd(code, pos, IsNameChar)
        decreases |code| - pos
      {
        name := name + [currentChar.value];
        Advance();
      }
    }

    method GetNextToken() returns (r: Result<Token>)
      requires Valid()
      modifies this
      ensures Valid() && (r, pos) == Scan(code, old(pos))
    {
      while currentChar.Some?
        invariant Valid()
        invariant Scan(code, pos) == Scan(code, old(pos))
        decreases |code| - pos
      {
        var c := currentChar.value;
        if IsSpace(c) {
          SkipWhitespace();
          continue;
        }
        if IsDigit(c) {
          var n := Integer();
          r := Ok(Token(TokenKind.Integer, IntValue(n.value)));
          return;
        }
        if IsNameChar(c) {
          var name := Variable();
          r := Ok(Token(TokenKind.Variable, Text(name)));
          return;
        }
        var punctuation := Punctuation(c);
        if punctuation.Some? {
          Advance();
          r := Ok(Token(punctuation.value, NoValue));
          return;
        }
        if c == '#' {
          SkipComment();
          continue;
        }
        var two := code[pos..if pos + 1 < |code| then pos + 2 else pos + 1];
        if two in KeywordPrefixes {
          Advance();
          Advance();
          var kind := KindOfSpelling(Underscored(two));
          r := if kind.Some? then Ok(Token(kind.value, NoValue)) else Err(UnknownTokenType(Underscored(two)));
          return;
        }
        r := Err(InvalidCharacter(c, pos));
        return;
      }
      r := Ok(EofToken);
    }
  }
}
