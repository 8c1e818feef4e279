/** The recursive-descent parser over the token stream. The functions
    `EatToken`, `ParseFactor`, `ParseTerm`, `ParseTermLoop` and `ParseExpr`
    say what each procedure yields from a stream position: the node (or
    `None`) and the position of the new current token. The class `Parser`
    is proved to follow them. */
module Parsing {
  import opened Tokens
  import opened Ast

  /** A node, or nothing, and the position of the next current token. */
  type Parsed = Result<(Option<Node>, nat)>

  /** Consuming the current token at `i` when it has kind `kind`. */
  function EatToken(s: TokenStream, i: nat, kind: TokenKind): (r: Result<nat>)
    requires s.At(i).Ok?
    ensures r.Ok? <==> s.At(i).value.kind == kind && s.At(i + 1).Ok?
    ensures r.Ok? ==> r.value == i + 1
    ensures s.At(i).value.kind != kind ==> r == Err(UnexpectedToken(kind, s.At(i).value.kind))
    ensures s.At(i).value.kind == kind && s.At(i + 1).Err? ==> r == Err(s.At(i + 1).error)
  {
    if s.At(i).value.kind == kind then
      match s.At(i + 1)
      case Ok(_) => Ok(i + 1)
      case Err(e) => Err(e)
    else Err(UnexpectedToken(kind, s.At(i).value.kind))
  }

  lemma TokenIsWellFormed(s: TokenStream, i: nat)
    requires s.WellFormed() && i < |s.tokens|
    ensures s.tokens[i].WellFormed()
  {
    assert s.tokens[i] in s.tokens;
  }

  /** factor := INTEGER | VARIABLE | '(' expr ')', and nothing on any other token. */
  function ParseFactor(s: TokenStream, i: nat): (r: Parsed)
    requires s.WellFormed() && s.At(i).Ok?
    ensures r.Ok? ==> i <= r.value.1 && s.At(r.value.1).Ok?
    ensures r.Ok? && i <= |s.tokens| ==> r.value.1 <= |s.tokens|
    ensures s.At(i).value.kind !in {Integer, Variable, LParen} ==> r == Ok((None, i))
    ensures r.Ok? ==> Expression(r.value.0)
    decreases s.Remaining(i), 1
  {
    var tok := s.At(i).value;
    if tok.kind == Integer then
      TokenIsWellFormed(s, i);
      match EatToken(s, i, Integer)
      case Err(e) => Err(e)
      case Ok(j) => Ok((Some(Num(tok.value.n)), j))
    else if tok.kind == Variable then
      TokenIsWellFormed(s, i);
      match EatToken(s, i, Variable)
      case Err(e) => Err(e)
      case Ok(j) => Ok((Some(Var(tok.value.s)), j))
    else if tok.kind == LParen then
      match EatToken(s, i, LParen)
      case Err(e) => Err(e)
      case Ok(j) =>
        match ParseExpr(s, j)
        case Err(e) => Err(e)
        case Ok((node, k)) =>
          match EatToken(s, k, RParen)
          case Err(e) => Err(e)
          case Ok(m) => Ok((node, m))
    else Ok((None, i))
  }

  /** term := factor (('+' | '-') factor)*, folded to the left. */
  function ParseTerm(s: TokenStream, i: nat): (r: Parsed)
    requires s.WellFormed() && s.At(i).Ok?
    ensures r.Ok? ==> i <= r.value.1 && s.At(r.value.1).Ok?
    ensures r.Ok? && i <= |s.tokens| ==> r.value.1 <= |s.tokens|
    ensures s.At(i).value.kind !in {Integer, Variable, LParen, Add, Sub} ==> r == Ok((None, i))
    ensures r.Ok? ==> Expression(r.value.0)
    decreases s.Remaining(i), 2
  {
    match ParseFactor(s, i)
    case Err(e) => Err(e)
    case Ok((node, j)) => ParseTermLoop(s, node, j)
  }

  /** The loop of `term`: while the current token is `+` or `-`, the tree so
      far becomes the left child of a new operation node. */
  function ParseTermLoop(s: TokenStream, acc: Option<Node>, i: nat): (r: Parsed)
    requires s.WellFormed() && s.At(i).Ok?
    ensures r.Ok? ==> i <= r.value.1 && s.At(r.value.1).Ok?
    ensures r.Ok? && i <= |s.tokens| ==> r.value.1 <= |s.tokens|
    ensures r.Ok? ==> s.At(r.value.1).value.kind !in {Add, Sub}
    ensures r.Ok? && Expression(acc) ==> Expression(r.value.0)
    decreases s.Remaining(i), 0
  {
    var tok := s.At(i).value;
    if tok.kind == Add || tok.kind == Sub then
      match EatToken(s, i, tok.kind)
      case Err(e) => Err(e)
      case Ok(j) =>
        match ParseFactor(s, j)
        case Err(e) => Err(e)
        case Ok((right, k)) => ParseTermLoop(s, Some(BinOp(acc, tok, right)), k)
    else Ok((acc, i))
  }

  function ParseExpr(s: TokenStream, i: nat): (r: Parsed)
    requires s.WellFormed() && s.At(i).Ok?
    ensures r.Ok? ==> i <= r.value.1 && s.At(r.value.1).Ok?
    ensures r.Ok? && i <= |s.tokens| ==> r.value.1 <= |s.tokens|
    ensures s.At(i).value.kind !in {Integer, Variable, LParen, Add, Sub} ==> r == Ok((None, i))
    ensures r.Ok? ==> Expression(r.value.0)
    decreases s.Remaining(i), 3
  {
    ParseTerm(s, i)
  }

  /** Building a parser over `s` and parsing: the first token is fetched,
      then one expression is parsed; whatever follows it is never looked at. */
  function ParseStream(s: TokenStream): (r: Result<Option<Node>>)
    requires s.WellFormed()
    ensures s.At(0).Err? ==> r == Err(s.At(0).error)
    ensures s.At(0).Ok? && s.At(0).value.kind !in {Integer, Variable, LParen, Add, Sub} ==> r == Ok(None)
    ensures r.Ok? ==> Expression(r.value)
  {
    match s.At(0)
    case Err(e) => Err(e)
    case Ok(_) =>
      match ParseExpr(s, 0)
      case Err(e) => Err(e)
      case Ok((node, _)) => Ok(node)
  }

  // Properties of the parser.

  /** `acc` sits at the bottom of the left spine of `n`, and every node above
      it on that spine is an operation node of a `+` or `-`. */
  predicate OnLeftSpine(acc: Option<Node>, n: Option<Node>)
  {
    n == acc || (n.Some? && n.value.BinOp? && n.value.op.kind in {Add, Sub} && OnLeftSpine(acc, n.value.left))
  }

  /** The loop of `term` only ever wraps the tree built so far as a left
      child: whatever it returns has that tree at the bottom of its left
      spine, and every node above it is an operation node of a `+` or `-`. */
  lemma {:induction false} TermLoopExtendsLeft(s: TokenStream, acc: Option<Node>, i: nat)
    requires s.WellFormed() && s.At(i).Ok?
    requires ParseTermLoop(s, acc, i).Ok?
    ensures OnLeftSpine(acc, ParseTermLoop(s, acc, i).value.0)
    decreases s.Remaining(i)
  {
    var tok := s.At(i).value;
    if tok.kind == Add || tok.kind == Sub {
      var j := EatToken(s, i, tok.kind).value;
      var right := ParseFactor(s, j).value.0;
      var k := ParseFactor(s, j).value.1;
      var next := Some(BinOp(acc, tok, right));
      TermLoopExtendsLeft(s, next, k);
      OnLeftSpineTrans(acc, next, ParseTermLoop(s, next, k).value.0);
    }
  }

  lemma {:induction false} OnLeftSpineTrans(a: Option<Node>, b: Option<Node>, c: Option<Node>)
    requires b.Some? && b.value.BinOp? && b.value.op.kind in {Add, Sub} && b.value.left == a
    requires OnLeftSpine(b, c)
    ensures OnLeftSpine(a, c)
    decreases c
  {
    if c != b {
      OnLeftSpineTrans(a, b, c.value.left);
    }
  }

  /** The tree of `acc op1 y1 op2 y2 ... opn yn` grouped to the left: the
      last operator is at the root, and its left child groups all the others. */
  function FoldLeft(acc: Option<Node>, ops: seq<Token>, rights: seq<Option<Node>>): Option<Node>
    requires |ops| == |rights|
    decreases |ops|
  {
    if |ops| == 0 then acc
    else
      var n := |ops|;
      Some(BinOp(FoldLeft(acc, ops[..n - 1], rights[..n - 1]), ops[n - 1], rights[n - 1]))
  }

  /** Folding from the left is combining `acc` with the first operand, then
      folding the rest. */
  lemma {:induction false} FoldLeftFirst(acc: Option<Node>, ops: seq<Token>, rights: seq<Option<Node>>)
    requires |ops| == |rights| > 0
    ensures FoldLeft(acc, ops, rights) == FoldLeft(Some(BinOp(acc, ops[0], rights[0])), ops[1..], rights[1..])
    decreases |ops|
  {
    var n := |ops|;
    if n > 1 {
      FoldLeftFirst(acc, ops[..n - 1], rights[..n - 1]);
      assert ops[..n - 1][1..] == ops[1..][..n - 2];
      assert rights[..n - 1][1..] == rights[1..][..n - 2];
    }
  }

  /** A run of the loop of `term` from position `i` to position `end`: an
      operator `ops[0]` that is `+` or `-`, then a factor `rights[0]`, then the
      rest of the run from where that factor ends; an empty run ends on a
      token that is neither. */
  ghost predicate OperatorChain(s: TokenStream, i: nat, ops: seq<Token>, rights: seq<Option<Node>>, end: nat)
    requires s.WellFormed()
    decreases |ops|
  {
    && |ops| == |rights|
    && if |ops| == 0 then i == end && s.At(i).Ok? && s.At(i).value.kind !in {Add, Sub}
       else
         && s.At(i) == Ok(ops[0]) && ops[0].kind in {Add, Sub}
         && s.At(i + 1).Ok? && ParseFactor(s, i + 1).Ok? && ParseFactor(s, i + 1).value.0 == rights[0]
         && OperatorChain(s, ParseFactor(s, i + 1).value.1, ops[1..], rights[1..], end)
  }

  /** Over any run of operators and factors, the loop of `term` yields the
      left fold of the operands and stops where the run ends. */
  lemma {:induction false} TermLoopFolds(s: TokenStream, acc: Option<Node>, i: nat, ops: seq<Token>,
                                         rights: seq<Option<Node>>, end: nat)
    requires s.WellFormed() && OperatorChain(s, i, ops, rights, end)
    ensures s.At(i).Ok? && ParseTermLoop(s, acc, i) == Ok((FoldLeft(acc, ops, rights), end))
    decreases |ops|
  {
    if |ops| > 0 {
      var k := ParseFactor(s, i + 1).value.1;
      TermLoopFolds(s, Some(BinOp(acc, ops[0], rights[0])), k, ops[1..], rights[1..], end);
      TermLoopStep(s, acc, i, rights[0], k);
      FoldLeftFirst(acc, ops, rights);
    }
  }

  /** Conversely, every run of the loop of `term` that succeeds reads such a
      run of operators and factors and yields their left fold. */
  lemma {:induction false} TermLoopChain(s: TokenStream, acc: Option<Node>, i: nat)
    returns (ops: seq<Token>, rights: seq<Option<Node>>, end: nat)
    requires s.WellFormed() && s.At(i).Ok? && ParseTermLoop(s, acc, i).Ok?
    ensures OperatorChain(s, i, ops, rights, end)
    ensures ParseTermLoop(s, acc, i) == Ok((FoldLeft(acc, ops, rights), end))
    decreases s.Remaining(i)
  {
    var tok := s.At(i).value;
    if tok.kind == Add || tok.kind == Sub {
      var y := ParseFactor(s, i + 1).value.0;
      var k := ParseFactor(s, i + 1).value.1;
      var ops', rights', end' := TermLoopChain(s, Some(BinOp(acc, tok, y)), k);
      ops, rights, end := [tok] + ops', [y] + rights', end';
      assert ops[1..] == ops' && rights[1..] == rights';
      FoldLeftFirst(acc, ops, rights);
    } else {
      ops, rights, end := [], [], i;
    }
  }

  /** `+` and `-` associate to the left: with three operands, the first two
      are combined first. */
  lemma TermAssociatesLeft(s: TokenStream, i: nat, x: Option<Node>, j: nat, y: Option<Node>, k: nat,
                           z: Option<Node>, m: nat)
    requires s.WellFormed() && s.At(i).Ok? && ParseFactor(s, i) == Ok((x, j))
    requires s.At(j).value.kind in {Add, Sub} && s.At(j + 1).Ok? && ParseFactor(s, j + 1) == Ok((y, k))
    requires s.At(k).value.kind in {Add, Sub} && s.At(k + 1).Ok? && ParseFactor(s, k + 1) == Ok((z, m))
    requires s.At(m).value.kind !in {Add, Sub}
    ensures ParseTerm(s, i) == Ok((Some(BinOp(Some(BinOp(x, s.At(j).value, y)), s.At(k).value, z)), m))
  {
    var xy := Some(BinOp(x, s.At(j).value, y));
    TermLoopStep(s, x, j, y, k);
    TermLoopStep(s, xy, k, z, m);
  }

  /** One round of the loop of `term`. */
  lemma TermLoopStep(s: TokenStream, acc: Option<Node>, i: nat, y: Option<Node>, k: nat)
    requires s.WellFormed() && s.At(i).Ok? && s.At(i).value.kind in {Add, Sub}
    requires s.At(i + 1).Ok? && ParseFactor(s, i + 1) == Ok((y, k))
    ensures ParseTermLoop(s, acc, i) == ParseTermLoop(s, Some(BinOp(acc, s.At(i).value, y)), k)
  {
  }

  /** `a + b - c` parses as `(a + b) - c`. */
  lemma ParseAddThenSub(a: string, b: string, c: string)
    ensures var add := Token(Add, NoValue);
      var sub := Token(Sub, NoValue);
      var s := TokenStream([Token(Variable, Text(a)), add, Token(Variable, Text(b)), sub,
                            Token(Variable, Text(c))], None);
      s.WellFormed() &&
      ParseStream(s) == Ok(Some(BinOp(Some(BinOp(Some(Var(a)), add, Some(Var(b)))), sub, Some(Var(c)))))
  {
    var add := Token(Add, NoValue);
    var sub := Token(Sub, NoValue);
    var s := TokenStream([Token(Variable, Text(a)), add, Token(Variable, Text(b)), sub,
                          Token(Variable, Text(c))], None);
    assert ParseFactor(s, 0) == Ok((Some(Var(a)), 1));
    assert ParseFactor(s, 2) == Ok((Some(Var(b)), 3));
    assert ParseFactor(s, 4) == Ok((Some(Var(c)), 5));
    TermAssociatesLeft(s, 0, Some(Var(a)), 1, Some(Var(b)), 3, Some(Var(c)), 5);
  }

  /** A parenthesised factor is the inner expression's node itself, with no
      node of its own. */
  lemma ParenthesesAddNoNode(s: TokenStream, i: nat)
    requires s.WellFormed() && s.At(i).Ok? && s.At(i).value.kind == LParen
    requires s.At(i + 1).Ok? && ParseExpr(s, i + 1).Ok?
    requires var k := ParseExpr(s, i + 1).value.1;
      s.At(k).value.kind == RParen && s.At(k + 1).Ok?
    ensures ParseFactor(s, i) == Ok((ParseExpr(s, i + 1).value.0, ParseExpr(s, i + 1).value.1 + 1))
  {
  }

  /** Two streams that agree up to position `j`. */
  ghost predicate AgreeUpTo(s: TokenStream, t: TokenStream, j: nat)
  {
    forall k: nat | k <= j :: s.At(k) == t.At(k)
  }

  /** What a procedure yields from position `i` depends only on the tokens up
      to the position where it stops: tokens after it are never examined, so
      trailing tokens are ignored. */
  lemma {:induction false} FactorLooksNoFurther(s: TokenStream, t: TokenStream, i: nat)
    requires s.WellFormed() && t.WellFormed() && s.At(i).Ok? && ParseFactor(s, i).Ok?
    requires AgreeUpTo(s, t, ParseFactor(s, i).value.1)
    ensures t.At(i).Ok? && ParseFactor(t, i) == ParseFactor(s, i)
    decreases s.Remaining(i), 1
  {
    var tok := s.At(i).value;
    assert t.At(i) == s.At(i);
    if tok.kind == Integer || tok.kind == Variable {
      assert t.At(i + 1) == s.At(i + 1);
      TokenIsWellFormed(s, i);
    } else if tok.kind == LParen {
      var k := ParseExpr(s, i + 1).value.1;
      ExprLooksNoFurther(s, t, i + 1);
      assert t.At(k + 1) == s.At(k + 1);
    }
  }

  lemma {:induction false} TermLoopLooksNoFurther(s: TokenStream, t: TokenStream, acc: Option<Node>, i: nat)
    requires s.WellFormed() && t.WellFormed() && s.At(i).Ok? && ParseTermLoop(s, acc, i).Ok?
    requires AgreeUpTo(s, t, ParseTermLoop(s, acc, i).value.1)
    ensures t.At(i).Ok? && ParseTermLoop(t, acc, i) == ParseTermLoop(s, acc, i)
    decreases s.Remaining(i), 0
  {
    var tok := s.At(i).value;
    assert t.At(i) == s.At(i);
    if tok.kind == Add || tok.kind == Sub {
      assert t.At(i + 1) == s.At(i + 1);
      var k := ParseFactor(s, i + 1).value.1;
      var right := ParseFactor(s, i + 1).value.0;
      TermLoopLooksNoFurther(s, t, Some(BinOp(acc, tok, right)), k);
      FactorLooksNoFurther(s, t, i + 1);
    }
  }

  lemma {:induction false} ExprLooksNoFurther(s: TokenStream, t: TokenStream, i: nat)
    requires s.WellFormed() && t.WellFormed() && s.At(i).Ok? && ParseExpr(s, i).Ok?
    requires AgreeUpTo(s, t, ParseExpr(s, i).value.1)
    ensures t.At(i).Ok? && ParseExpr(t, i) == ParseExpr(s, i)
    decreases s.Remaining(i), 3
  {
    var j := ParseFactor(s, i).value.1;
    var node := ParseFactor(s, i).value.0;
    TermLoopLooksNoFurther(s, t, node, j);
    FactorLooksNoFurther(s, t, i);
  }

  /** `1 2` parses as the number 1: the second token is left unread. */
  lemma TrailingTokenIgnored()
    ensures ParseStream(TokenStream([Token(Integer, IntValue(1)), Token(Integer, IntValue(2))], None))
         == Ok(Some(Num(1)))
  {
    var s := TokenStream([Token(Integer, IntValue(1)), Token(Integer, IntValue(2))], None);
    assert ParseFactor(s, 0) == Ok((Some(Num(1)), 1));
  }

  /** The parser as written: `term` names the token type SUB, which the
      enum of token types does not define, so evaluating its loop condition
      raises as soon as the first factor has been parsed. */
  function ParseTermAsWritten(s: TokenStream, i: nat): (r: Parsed)
    requires s.WellFormed() && s.At(i).Ok?
    ensures r.Err?
    decreases s.Remaining(i), 2
  {
    match ParseFactorAsWritten(s, i)
    case Err(e) => Err(e)
    case Ok(_) => Err(MissingAttribute("SUB"))
  }

  function ParseFactorAsWritten(s: TokenStream, i: nat): (r: Parsed)
    requires s.WellFormed() && s.At(i).Ok?
    ensures s.At(i).value.kind == LParen ==> r.Err?
    ensures r.Ok? ==> r == ParseFactor(s, i)
    decreases s.Remaining(i), 1
  {
    var tok := s.At(i).value;
    if tok.kind == Integer then
      TokenIsWellFormed(s, i);
      match EatToken(s, i, Integer)
      case Err(e) => Err(e)
      case Ok(j) => Ok((Some(Num(tok.value.n)), j))
    else if tok.kind == Variable then
      TokenIsWellFormed(s, i);
      match EatToken(s, i, Variable)
      case Err(e) => Err(e)
      case Ok(j) => Ok((Some(Var(tok.value.s)), j))
    else if tok.kind == LParen then
      match EatToken(s, i, LParen)
      case Err(e) => Err(e)
      case Ok(j) =>
        // `expr`, that is `term`, raises before the `)` is looked at
        ParseTermAsWritten(s, j)
    else Ok((None, i))
  }

  /** As written, even the one-token stream `1` fails, where the repaired
      parser yields the number 1. */
  lemma ParseOneAsWritten()
    ensures var s := TokenStream([Token(Integer, IntValue(1))], None);
      ParseTermAsWritten(s, 0) == Err(MissingAttribute("SUB"))
      && ParseStream(s) == Ok(Some(Num(1)))
  {
    var s := TokenStream([Token(Integer, IntValue(1))], None);
    assert ParseFactor(s, 0) == Ok((Some(Num(1)), 1));
  }

  /** The result of a procedure, with the parser's position afterwards. */
  function Outcome(r: Result<Option<Node>>, pos: nat): Parsed
  {
    match r
    case Ok(node) => Ok((node, pos))
    case Err(e) => Err(e)
  }

  class Parser {
    const stream: TokenStream
    var pos: nat
    var currentToken: Token

    /** `currentToken` is the token at position `pos` of the stream. */
    ghost predicate Valid()
      reads this
    {
      stream.WellFormed() && stream.At(pos) == Ok(currentToken)
    }

    constructor (stream: TokenStream, first: Token)
      requires stream.WellFormed() && stream.At(0) == Ok(first)
      ensures Valid() && this.stream == stream && pos == 0
    {
      this.stream := stream;
      pos := 0;
      currentToken := first;
    }

    /** Building a parser fetches the first token, which may fail. */
    static method Create(stream: TokenStream) returns (r: Result<Parser>)
      requires stream.WellFormed()
      ensures r.Ok? <==> stream.At(0).Ok?
      ensures r.Ok? ==> fresh(r.value) && r.value.Valid() && r.value.stream == stream && r.value.pos == 0
      ensures r.Err? ==> stream.At(0) == Err(r.error)
    {
      match stream.At(0)
      case Err(e) =>
        r := Err(e);
      case Ok(first) =>
        var p := new Parser(stream, first);
        r := Ok(p);
    }

    method Eat(kind: TokenKind) returns (err: Option<Error>)
      requires Valid()
      modifies this
      ensures Valid()
      ensures match EatToken(stream, old(pos), kind)
        case Ok(j) => err == None && pos == j
        case Err(e) => err == Some(e) && pos == old(pos) && currentToken == old(currentToken)
    {
      if currentToken.kind == kind {
        var next := stream.At(pos + 1);
        if next.Err? {
          return Some(next.error);
        }
        pos := pos + 1;
        currentToken := next.value;
        err := None;
      } else {
        err := Some(UnexpectedToken(kind, currentToken.kind));
      }
    }

    method Factor() returns (r: Result<Option<Node>>)
      requires Valid()
      modifies this
      ensures Valid() && Outcome(r, pos) == ParseFactor(stream, old(pos))
      decreases stream.Remaining(pos), 1
    {
      var token := currentToken;
      if token.kind == TokenKind.Integer {
        TokenIsWellFormed(stream, pos);
        var err := Eat(TokenKind.Integer);
        if err.Some? {
          return Err(err.value);
        }
        return Ok(Some(Num(token.value.n)));
      } else if token.kind == TokenKind.Variable {
        TokenIsWellFormed(stream, pos);
        var err := Eat(TokenKind.Variable);
        if err.Some? {
          return Err(err.value);
        }
        return Ok(Some(Var(token.value.s)));
      } else if token.kind == LParen {
        var err := Eat(LParen);
        if err.Some? {
          return Err(err.value);
        }
        var node := Expr();
        if node.Err? {
          return node;
        }
        err := Eat(RParen);
        if err.Some? {
          return Err(err.value);
        }
        return node;
      }
      return Ok(None);
    }

    method Term() returns (r: Result<Option<Node>>)
      requires Valid()
      modifies this
      ensures Valid() && Outcome(r, pos) == ParseTerm(stream, old(pos))
      decreases stream.Remaining(pos), 2
    {
      var first := Factor();
      if first.Err? {
        return first;
      }
      var node := first.value;
      while currentToken.kind == Add || currentToken.kind == Sub
        invariant Valid() && old(pos) <= pos
        invariant ParseTerm(stream, old(pos)) == ParseTermLoop(stream, node, pos)
        decreases stream.Remaining(pos)
      {
        var token := currentToken;
        var err: Option<Error>;
        if token.kind == Add {
          err := Eat(Add);
        } else {
          err := Eat(Sub);
        }
        if err.Some? {
          return Err(err.value);
        }
        var right := Factor();
        if right.Err? {
          return right;
        }
        node := Some(BinOp(node, token, right.value));
      }
      return Ok(node);
    }

    method Expr() returns (r: Result<Option<Node>>)
      requires Valid()
      modifies this
      ensures Valid() && Outcome(r, pos) == ParseExpr(stream, old(pos))
      decreases stream.Remaining(pos), 3
    {
      r := Term();
    }

    method Parse() returns (r: Result<Option<Node>>)
      requires Valid()
      modifies this
      ensures Valid() && Outcome(r, pos) == ParseExpr(stream, old(pos))
      decreases stream.Remaining(pos), 4
    {
      r := Expr();
    }
  }
}
