/** Source text to value: lex lazily, parse one expression, evaluate it with
    a fresh interpreter. */
module Pipeline {
  import opened Tokens
  import opened Ast
  import opened Lexing
  import opened Parsing
  import opened Interpreting

  /** Parsing the text with a parser that pulls from a lexer over it. */
  function ParseSource(code: string): Result<Option<Node>>
  {
    ParseStream(Lex(code, 0))
  }

  /** Parsing the text, then evaluating the tree against an empty table.
      Nothing is bound in a fresh interpreter and the parser builds no
      declarations, so a run that succeeds yields an integer, or `None` when
      the parser yields no tree. */
  function Run(code: string): (r: Result<Value>)
    ensures ParseSource(code).Err? ==> r == Err(ParseSource(code).error)
    ensures r.Ok? ==> r.value.Int? || ParseSource(code) == Ok(None)
    ensures ParseSource(code) == Ok(None) ==> r == Ok(NoneValue)
  {
    match ParseSource(code)
    case Err(e) => Err(e)
    case Ok(tree) =>
      EvalExpressionFresh(tree);
      Eval(map[], tree).0
  }

  /** The decimal spelling of any `n` runs to the integer `n`. */
  lemma RunDecimal(n: nat)
    ensures Run(Decimal(n)) == Ok(Int(n))
  {
    LexDecimal(n);
    var s := Lex(Decimal(n), 0);
    assert ParseFactor(s, 0) == Ok((Some(Num(n)), 1));
    assert s.At(1) == Ok(EofToken);
    assert ParseTermLoop(s, Some(Num(n)), 1) == Ok((Some(Num(n)), 1));
    assert ParseTerm(s, 0) == Ok((Some(Num(n)), 1));
    assert ParseExpr(s, 0) == Ok((Some(Num(n)), 1));
    assert ParseSource(Decimal(n)) == Ok(Some(Num(n)));
  }

  /** Any word of letters and underscores, keyword-looking or not, is a name,
      and a fresh interpreter has nothing bound to it. */
  lemma RunWord(w: string)
    requires |w| > 0 && forall k | 0 <= k < |w| :: IsNameChar(w[k])
    ensures Run(w) == Err(UndefinedVariable(w))
  {
    LexWord(w);
    var s := Lex(w, 0);
    assert ParseFactor(s, 0) == Ok((Some(Var(w)), 1));
    assert s.At(1) == Ok(EofToken);
    assert ParseTermLoop(s, Some(Var(w)), 1) == Ok((Some(Var(w)), 1));
    assert ParseTerm(s, 0) == Ok((Some(Var(w)), 1));
    assert ParseExpr(s, 0) == Ok((Some(Var(w)), 1));
    assert ParseSource(w) == Ok(Some(Var(w)));
  }

  /** `HAI` is the name `HAI`, and so fails as an unbound name. */
  lemma RunHai()
    ensures Run("HAI") == Err(UndefinedVariable("HAI"))
  {
    RunWord("HAI");
  }

  /** The lexer has no token for `+`: `1 + 2` fails when the parser, having
      read `1`, pulls the next token. */
  lemma RunOnePlusTwo()
    ensures Run("1 + 2") == Err(InvalidCharacter('+', 2))
  {
    var code := "1 + 2";
    assert code[0..1] == "1";
    assert Numeral("1") == 1;
    ScanRejectsSigns(code, 2);
    assert Lex(code, 0) == TokenStream([Token(Integer, IntValue(1))], Some(InvalidCharacter('+', 2)));
  }

  /** After `(7)`, only a space and a comment remain: the stream ends there. */
  lemma LexCommentTail()
    ensures Lex("(7) # seven", 3) == TokenStream([], None)
  {
    var code := "(7) # seven";
    assert RunEnd(code, 3, IsSpace) == 4;
    assert RunEnd(code, 4, NotNewline) == |code|;
    assert Scan(code, 3) == (Ok(EofToken), |code|);
  }

  /** From the `)` on, the stream is `)` alone. */
  lemma LexClose()
    ensures Lex("(7) # seven", 2) == TokenStream([Token(RParen, NoValue)], None)
  {
    var code := "(7) # seven";
    LexCommentTail();
    assert code[2] == ')';
    assert Scan(code, 2) == (Ok(Token(RParen, NoValue)), 3);
    assert [Token(RParen, NoValue)] + [] == [Token(RParen, NoValue)];
  }

  /** From the `7` on, the stream is `7`, `)`. */
  lemma LexSevenClose()
    ensures Lex("(7) # seven", 1) == TokenStream([Token(Integer, IntValue(7)), Token(RParen, NoValue)], None)
  {
    var code := "(7) # seven";
    LexClose();
    assert code[1] == '7' && code[2] == ')';
    assert code[1..2] == "7";
    assert Numeral("7") == 7;
    assert Scan(code, 1) == (Ok(Token(Integer, IntValue(7))), 2);
  }

  /** `(7) # seven` lexes to the three tokens `(`, `7`, `)`. */
  lemma LexParenthesisedSeven()
    ensures Lex("(7) # seven", 0) == TokenStream([Token(LParen, NoValue), Token(Integer, IntValue(7)),
                                                  Token(RParen, NoValue)], None)
  {
    var code := "(7) # seven";
    LexSevenClose();
    assert code[0] == '(';
    assert Scan(code, 0) == (Ok(Token(LParen, NoValue)), 1);
  }

  /** The token right after the expression is always fetched, so an invalid
      character there does raise. */
  lemma RunBadLookahead()
    ensures Run("5 ?") == Err(InvalidCharacter('?', 2))
  {
    var code := "5 ?";
    assert code[0] == '5' && code[1] == ' ' && code[2] == '?';
    assert code[0..1] == "5";
    assert Numeral("5") == 5;
    ScanRejectsSigns(code, 2);
    assert Scan(code, 1) == Scan(code, 2);
    assert Lex(code, 0) == TokenStream([Token(Integer, IntValue(5))], Some(InvalidCharacter('?', 2)));
  }

  /** A comment after the expression, and a parenthesised number. */
  lemma RunParenthesisedWithComment()
    ensures Run("(7) # seven") == Ok(Int(7))
  {
    LexParenthesisedSeven();
    var s := Lex("(7) # seven", 0);
    assert ParseFactor(s, 1) == Ok((Some(Num(7)), 2));
    assert ParseExpr(s, 1) == Ok((Some(Num(7)), 2));
    assert ParseFactor(s, 0) == Ok((Some(Num(7)), 3));
  }

  /** An empty group: the inner expression finds `)`, which starts no
      factor, so the parser yields no tree and the run yields `None`. */
  lemma RunEmptyGroup()
    ensures ParseSource("()") == Ok(None)
    ensures Run("()") == Ok(NoneValue)
  {
    var code := "()";
    assert code[0] == '(' && code[1] == ')';
    assert Scan(code, 2) == (Ok(EofToken), 2);
    assert Scan(code, 1) == (Ok(Token(RParen, NoValue)), 2);
    assert Scan(code, 0) == (Ok(Token(LParen, NoValue)), 1);
    var s := Lex(code, 0);
    assert s == TokenStream([Token(LParen, NoValue), Token(RParen, NoValue)], None);
    assert ParseExpr(s, 1) == Ok((None, 1));
    assert ParseFactor(s, 0) == Ok((None, 2));
  }

  /** The lexer is lazy: text after the one token of lookahead that follows
      the parsed expression is never lexed, so an invalid character there
      raises nothing. */
  lemma RunIgnoresBadTail()
    ensures Run("5 6 ?") == Ok(Int(5))
  {
    var code := "5 6 ?";
    assert code[0..1] == "5";
    assert code[2..3] == "6";
    assert Numeral("5") == 5;
    assert Numeral("6") == 6;
    ScanRejectsSigns(code, 4);
    var s := Lex(code, 0);
    assert s == TokenStream([Token(Integer, IntValue(5)), Token(Integer, IntValue(6))],
                            Some(InvalidCharacter('?', 4)));
    assert ParseFactor(s, 0) == Ok((Some(Num(5)), 1));
  }
}
