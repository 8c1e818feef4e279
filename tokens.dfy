/** Token kinds, tokens, the errors of the pipeline and the lazy token stream
    that the parser pulls from. */
module Tokens {

  datatype Option<+T> = None | Some(value: T)

  /** Every exception the pipeline can raise, as a value. */
  datatype Error =
    | InvalidCharacter(c: char, pos: nat)          // the lexer's own error
    | InvalidLiteral(text: string)                 // int() of a non-numeral
    | UnknownTokenType(spelling: string)           // the enum has no member with that value
    | UnexpectedToken(expected: TokenKind, actual: TokenKind)
    | UndefinedVariable(name: string)
    | UnsupportedOperands                          // `+` or `-` applied to a non-integer
    | MissingAttribute(name: string)               // a name the program refers to but never defines

  datatype Result<+T> = Ok(value: T) | Err(error: Error)

  /** The token types of the language. `Sub` is the subtraction token the
      parser and the interpreter refer to; the enum of the program lacks it. */
  datatype TokenKind =
    | Hai | KThxBye | ICanHazFunction | Gimmeh | ORly | YaRly | NoWai | Oic | Visible
    | Add | Sub | Integer | Variable | Eq | LParen | RParen | Comma | Eof

  /** The value string of each token type. */
  function Spelling(k: TokenKind): string
  {
    match k
    case Hai => "HAI"
    case KThxBye => "KTHXBYE"
    case ICanHazFunction => "I CAN HAZ FUNCTION"
    case Gimmeh => "GIMMEH"
    case ORly => "O RLY?"
    case YaRly => "YA RLY"
    case NoWai => "NO WAI"
    case Oic => "OIC"
    case Visible => "VISIBLE"
    case Add => "ADD"
    case Sub => "SUB"
    case Integer => "INTEGER"
    case Variable => "VARIABLE"
    case Eq => "="
    case LParen => "("
    case RParen => ")"
    case Comma => ","
    case Eof => "EOF"
  }

  /** Looking a token type up by its value, as calling the enum class with a
      string does; `None` where that raises. */
  function KindOfSpelling(s: string): (r: Option<TokenKind>)
    ensures r.Some? ==> Spelling(r.value) == s
  {
    if s == "HAI" then Some(Hai)
    else if s == "KTHXBYE" then Some(KThxBye)
    else if s == "I CAN HAZ FUNCTION" then Some(ICanHazFunction)
    else if s == "GIMMEH" then Some(Gimmeh)
    else if s == "O RLY?" then Some(ORly)
    else if s == "YA RLY" then Some(YaRly)
    else if s == "NO WAI" then Some(NoWai)
    else if s == "OIC" then Some(Oic)
    else if s == "VISIBLE" then Some(Visible)
    else if s == "ADD" then Some(Add)
    else if s == "SUB" then Some(Sub)
    else if s == "INTEGER" then Some(Integer)
    else if s == "VARIABLE" then Some(Variable)
    else if s == "=" then Some(Eq)
    else if s == "(" then Some(LParen)
    else if s == ")" then Some(RParen)
    else if s == "," then Some(Comma)
    else if s == "EOF" then Some(Eof)
    else None
  }

  /** Each token type is found again from its value: the values are distinct. */
  lemma SpellingRoundTrip(k: TokenKind)
    ensures KindOfSpelling(Spelling(k)) == Some(k)
  {
    match k
    case Hai =>
    case KThxBye =>
    case ICanHazFunction =>
    case Gimmeh =>
    case ORly =>
    case YaRly =>
    case NoWai =>
    case Oic =>
    case Visible =>
    case Add =>
    case Sub =>
    case Integer =>
    case Variable =>
    case Eq =>
    case LParen =>
    case RParen =>
    case Comma =>
    case Eof =>
  }

  /** A token's optional literal: the integer of a numeral or the text of a name. */
  datatype Payload = NoValue | IntValue(n: int) | Text(s: string)

  datatype Token = Token(kind: TokenKind, value: Payload)
  {
    /** INTEGER tokens carry an integer, VARIABLE tokens a text, all others nothing. */
    predicate WellFormed()
    {
      && (kind == Integer <==> value.IntValue?)
      && (kind == Variable <==> value.Text?)
      && (value.NoValue? <==> kind != Integer && kind != Variable)
    }
  }

  const EofToken: Token := Token(Eof, NoValue)

  /** What successive calls of the lexer's next-token operation yield:
      `tokens`, then the lexer's error if `failure` holds one, and EOF for
      ever otherwise. */
  datatype TokenStream = TokenStream(tokens: seq<Token>, failure: Option<Error>)
  {
    function At(i: nat): Result<Token>
    {
      if i < |tokens| then Ok(tokens[i])
      else if failure.Some? then Err(failure.value)
      else Ok(EofToken)
    }

    predicate WellFormed()
    {
      forall t | t in tokens :: t.WellFormed()
    }

    /** How many real tokens lie at or after position `i`. */
    function Remaining(i: nat): nat
    {
      if i < |tokens| then |tokens| - i else 0
    }
  }
}
