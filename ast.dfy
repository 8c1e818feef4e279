/** The syntax tree. A child that the program leaves as Python's `None` (a
    factor that matched nothing, an absent else branch) is `None` here. */
module Ast {
  import opened Tokens

  datatype Node =
    | Num(value: int)
    | Var(name: string)
    | BinOp(left: Option<Node>, op: Token, right: Option<Node>)
    | Function(name: string, args: seq<string>, body: seq<Node>)
    | If(condition: Option<Node>, ifBody: Option<Node>, elseBody: Option<Node>)

  /** Whether `tree` holds a function declaration anywhere that evaluation can reach. */
  predicate HasDeclaration(tree: Option<Node>)
  {
    match tree
    case None => false
    case Some(Num(_)) => false
    case Some(Var(_)) => false
    case Some(BinOp(l, _, r)) => HasDeclaration(l) || HasDeclaration(r)
    case Some(Function(_, _, _)) => true
    case Some(If(c, a, b)) => HasDeclaration(c) || HasDeclaration(a) || HasDeclaration(b)
  }

  /** The trees the parser can build: numbers, names and `+`/`-` operation
      nodes, where any child may be missing (a factor that matched nothing). */
  predicate Expression(tree: Option<Node>)
  {
    match tree
    case None => true
    case Some(Num(_)) => true
    case Some(Var(_)) => true
    case Some(BinOp(l, op, r)) => op.kind in {Add, Sub} && Expression(l) && Expression(r)
    case Some(_) => false
  }
}
