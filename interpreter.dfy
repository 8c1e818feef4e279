/** The tree-walking interpreter. `Eval` says what evaluating a tree yields
    and what the symbol table is afterwards; the class `Interpreter` holds
    the table and is proved to follow `Eval`. */
module Interpreting {
  import opened Tokens
  import opened Ast

  /** The values evaluation produces: integers, declarations looked up by
      name, and Python's `None`. */
  datatype Value = Int(n: int) | Func(decl: Node) | NoneValue

  /** The symbol table; a name bound to `NoneValue` counts as unbound. */
  type Table = map<string, Value>

  /** Python's truth value of a runtime value: everything but `None` and 0. */
  predicate Truthy(v: Value)
    ensures Truthy(v) <==> v != NoneValue && v != Int(0)
  {
    match v
    case Int(n) => n != 0
    case Func(_) => true
    case NoneValue => false
  }

  /** Reading a name, as `symbol_table.get` followed by the `None` check. */
  function Lookup(table: Table, name: string): (r: Result<Value>)
    ensures r.Ok? <==> name in table && table[name] != NoneValue
    ensures r.Ok? ==> r.value == table[name]
    ensures r.Err? ==> r.error == UndefinedVariable(name)
  {
    if name in table && table[name] != NoneValue then Ok(table[name])
    else Err(UndefinedVariable(name))
  }

  /** Python's `+` or `-`: defined on two integers only. */
  function Arith(op: TokenKind, a: Value, b: Value): (r: Result<Value>)
    requires op == Add || op == Sub
    ensures r.Ok? <==> a.Int? && b.Int?
    ensures r.Ok? ==> r.value.Int?
    ensures r.Err? ==> r.error == UnsupportedOperands
  {
    if a.Int? && b.Int? then Ok(Int(if op == Add then a.n + b.n else a.n - b.n))
    else Err(UnsupportedOperands)
  }

  /** Subtracting and then adding back the same integer gives the first
      operand again, and so does adding and then subtracting it. */
  lemma ArithInverse(a: Value, b: Value)
    requires a.Int? && b.Int?
    ensures Arith(Add, Arith(Sub, a, b).value, b) == Ok(a)
    ensures Arith(Sub, Arith(Add, a, b).value, b) == Ok(a)
  {
  }

  /** Evaluating `tree` against `table`: the value or the error, and the
      table afterwards. A declaration met on the way stays bound even when a
      later step fails. */
  function Eval(table: Table, tree: Option<Node>): (r: (Result<Value>, Table))
    ensures table.Keys <= r.1.Keys
    ensures forall x | x in r.1 && (x !in table || r.1[x] != table[x]) :: r.1[x].Func?
    decreases tree
  {
    match tree
    case None => (Ok(NoneValue), table)
    case Some(node) =>
      match node
      case Num(n) => (Ok(Int(n)), table)
      case Var(x) => (Lookup(table, x), table)
      case BinOp(l, op, r) =>
        if op.kind == Add || op.kind == Sub then
          var left := Eval(table, l);
          if left.0.Err? then left
          else
            var right := Eval(left.1, r);
            if right.0.Err? then right
            else (Arith(op.kind, left.0.value, right.0.value), right.1)
        else (Ok(NoneValue), table)
      case Function(name, _, _) => (Ok(NoneValue), table[name := Func(node)])
      case If(c, a, b) =>
        var cond := Eval(table, c);
        if cond.0.Err? then cond
        else if Truthy(cond.0.value) then Eval(cond.1, a)
        else Eval(cond.1, b)
  }

  // Properties of evaluation.

  /** Only declarations write the table: a tree without one leaves it as it was. */
  lemma {:induction false} EvalWithoutDeclarationKeepsTable(table: Table, tree: Option<Node>)
    requires !HasDeclaration(tree)
    ensures Eval(table, tree).1 == table
    decreases tree
  {
    match tree
    case None =>
    case Some(node) =>
      match node
      case Num(_) =>
      case Var(_) =>
      case BinOp(l, op, r) =>
        EvalWithoutDeclarationKeepsTable(table, l);
        EvalWithoutDeclarationKeepsTable(table, r);
      case Function(_, _, _) =>
      case If(c, a, b) =>
        EvalWithoutDeclarationKeepsTable(table, c);
        EvalWithoutDeclarationKeepsTable(table, a);
        EvalWithoutDeclarationKeepsTable(table, b);
  }

  /** Every name in the table is bound to a declaration. */
  ghost predicate HoldsDeclarations(table: Table)
  {
    forall x | x in table :: table[x].Func?
  }

  /** Evaluation keeps a table of declarations a table of declarations: an
      interpreter that starts empty never binds a name to an integer. */
  lemma {:induction false} EvalKeepsDeclarations(table: Table, tree: Option<Node>)
    requires HoldsDeclarations(table)
    ensures HoldsDeclarations(Eval(table, tree).1)
    decreases tree
  {
    match tree
    case None =>
    case Some(node) =>
      match node
      case Num(_) =>
      case Var(_) =>
      case BinOp(l, op, r) =>
        if op.kind == Add || op.kind == Sub {
          EvalKeepsDeclarations(table, l);
          EvalKeepsDeclarations(Eval(table, l).1, r);
        }
      case Function(_, _, _) =>
      case If(c, a, b) =>
        EvalKeepsDeclarations(table, c);
        EvalKeepsDeclarations(Eval(table, c).1, a);
        EvalKeepsDeclarations(Eval(table, c).1, b);
  }

  /** With only declarations bound, adding or subtracting two names always
      fails: names never hold integers. */
  lemma NamesNeverAdd(table: Table, x: string, op: Token, y: string)
    requires HoldsDeclarations(table) && (op.kind == Add || op.kind == Sub)
    ensures Eval(table, Some(BinOp(Some(Var(x)), op, Some(Var(y))))).0.Err?
  {
  }

  /** The names a tree reads. */
  function Names(tree: Option<Node>): set<string>
  {
    match tree
    case Some(Var(x)) => {x}
    case Some(BinOp(l, _, r)) => Names(l) + Names(r)
    case Some(If(c, a, b)) => Names(c) + Names(a) + Names(b)
    case _ => {}
  }

  /** A tree built from numbers, names and `+`/`-` only, as the parser builds
      from a stream whose factors all match. */
  predicate Arithmetic(tree: Option<Node>)
  {
    match tree
    case Some(Num(_)) => true
    case Some(Var(_)) => true
    case Some(BinOp(l, op, r)) => (op.kind == Add || op.kind == Sub) && Arithmetic(l) && Arithmetic(r)
    case _ => false
  }

  /** An arithmetic tree evaluates to an integer exactly when every name in
      it holds an integer; unless it is a lone name, it then cannot yield
      anything but an integer. */
  lemma {:induction false} ArithmeticEvalIff(table: Table, tree: Option<Node>)
    requires Arithmetic(tree)
    ensures (Eval(table, tree).0.Ok? && Eval(table, tree).0.value.Int?)
        <==> forall x | x in Names(tree) :: x in table && table[x].Int?
    ensures !tree.value.Var? && Eval(table, tree).0.Ok? ==> Eval(table, tree).0.value.Int?
    decreases tree
  {
    match tree.value
    case Num(_) =>
    case Var(_) =>
    case BinOp(l, op, r) =>
      ArithmeticNoDeclaration(l);
      EvalWithoutDeclarationKeepsTable(table, l);
      ArithmeticEvalIff(table, l);
      ArithmeticEvalIff(table, r);
  }

  lemma {:induction false} ArithmeticNoDeclaration(tree: Option<Node>)
    requires Arithmetic(tree)
    ensures !HasDeclaration(tree)
    decreases tree
  {
    match tree.value
    case Num(_) =>
    case Var(_) =>
    case BinOp(l, _, r) =>
      ArithmeticNoDeclaration(l);
      ArithmeticNoDeclaration(r);
  }

  /** An operation node adds or subtracts the values of its children, the
      right one evaluated against the table the left one leaves. */
  lemma EvalBinOp(table: Table, l: Option<Node>, op: Token, r: Option<Node>, a: int, b: int)
    requires op.kind == Add || op.kind == Sub
    requires Eval(table, l).0 == Ok(Int(a))
    requires Eval(Eval(table, l).1, r).0 == Ok(Int(b))
    ensures Eval(table, Some(BinOp(l, op, r))) == (Ok(Int(if op.kind == Add then a + b else a - b)),
                                                   Eval(Eval(table, l).1, r).1)
  {
  }

  /** Without a declaration in the left child, both children see the same table. */
  lemma EvalBinOpPlain(table: Table, l: Option<Node>, op: Token, r: Option<Node>, a: int, b: int)
    requires op.kind == Add || op.kind == Sub
    requires !HasDeclaration(l) && Eval(table, l).0 == Ok(Int(a))
    requires Eval(table, r).0 == Ok(Int(b))
    ensures Eval(table, Some(BinOp(l, op, r))).0 == Ok(Int(if op.kind == Add then a + b else a - b))
  {
    EvalWithoutDeclarationKeepsTable(table, l);
  }

  /** A declaration binds its name to the very same node and changes no other
      name; declaring the name again replaces the binding. */
  lemma DeclarationBindsName(table: Table, f: Node, g: Node, x: string)
    requires f.Function? && g.Function? && f.name == g.name
    ensures var t1 := Eval(table, Some(f)).1;
      && Eval(table, Some(f)).0 == Ok(NoneValue)
      && Eval(t1, Some(Var(f.name))).0 == Ok(Func(f))
      && (x != f.name ==> (x in t1 <==> x in table) && (x in table ==> t1[x] == table[x]))
      && Eval(Eval(t1, Some(g)).1, Some(Var(f.name))).0 == Ok(Func(g))
  {
  }

  /** A conditional takes its first branch on a truthy condition and its
      second otherwise; a missing second branch yields `None`, not an error. */
  lemma IfSelectsBranch(table: Table, c: Option<Node>, a: Option<Node>, b: Option<Node>)
    requires Eval(table, c).0.Ok?
    ensures var t := Eval(table, c).1;
      && (Truthy(Eval(table, c).0.value) ==> Eval(table, Some(If(c, a, b))) == Eval(t, a))
      && (!Truthy(Eval(table, c).0.value) ==> Eval(table, Some(If(c, a, b))) == Eval(t, b))
      && (!Truthy(Eval(table, c).0.value) ==> Eval(table, Some(If(c, a, None))) == (Ok(NoneValue), t))
  {
  }

  /** A condition without a declaration leaves the table as it was, so the
      chosen branch sees the table the conditional started from. */
  lemma IfSelectsBranchPlain(table: Table, c: Option<Node>, a: Option<Node>, b: Option<Node>)
    requires !HasDeclaration(c) && Eval(table, c).0.Ok?
    ensures Truthy(Eval(table, c).0.value) ==> Eval(table, Some(If(c, a, b))) == Eval(table, a)
    ensures !Truthy(Eval(table, c).0.value) ==> Eval(table, Some(If(c, a, b))) == Eval(table, b)
    ensures !Truthy(Eval(table, c).0.value) ==> Eval(table, Some(If(c, a, None))) == (Ok(NoneValue), table)
  {
    EvalWithoutDeclarationKeepsTable(table, c);
  }

  /** `(a + b) - c` with a = 5, b = 3 and c = 2 evaluates to 6. */
  lemma ExampleArithmetic()
    ensures var add := Token(Add, NoValue);
      var sub := Token(Sub, NoValue);
      var tree := Some(BinOp(Some(BinOp(Some(Var("a")), add, Some(Var("b")))), sub, Some(Var("c"))));
      Eval(map["a" := Int(5), "b" := Int(3), "c" := Int(2)], tree).0 == Ok(Int(6))
  {
    var table := map["a" := Int(5), "b" := Int(3), "c" := Int(2)];
    var add := Token(Add, NoValue);
    var sum := Some(BinOp(Some(Var("a")), add, Some(Var("b"))));
    EvalBinOp(table, Some(Var("a")), add, Some(Var("b")), 5, 3);
    assert Eval(table, sum) == (Ok(Int(8)), table);
    EvalBinOp(table, sum, Token(Sub, NoValue), Some(Var("c")), 8, 2);
  }

  /** `x + y` with `y` unbound fails naming `y`. */
  lemma ExampleUnbound(table: Table)
    requires "x" in table && table["x"].Int? && "y" !in table
    ensures Eval(table, Some(BinOp(Some(Var("x")), Token(Add, NoValue), Some(Var("y"))))).0
         == Err(UndefinedVariable("y"))
  {
  }

  /** The interpreter as written: the visitors call `self.visit`, which the
      class does not define, and the subtraction branch names the undefined
      token type SUB, so every operation node and every conditional raises. */
  function EvalAsWritten(table: Table, tree: Option<Node>): (r: (Result<Value>, Table))
    ensures tree.Some? && (tree.value.BinOp? || tree.value.If?) ==> r.0.Err?
    ensures r.0.Ok? ==> r == Eval(table, tree)
  {
    match tree
    case None => (Ok(NoneValue), table)
    case Some(node) =>
      match node
      case Num(n) => (Ok(Int(n)), table)
      case Var(x) => (Lookup(table, x), table)
      case BinOp(_, op, _) =>
        (Err(MissingAttribute(if op.kind == Add then "visit" else "SUB")), table)
      case Function(name, _, _) => (Ok(NoneValue), table[name := Func(node)])
      case If(_, _, _) => (Err(MissingAttribute("visit")), table)
  }

  /** `1 + 2` fails as written and yields 3 once `visit` is the dispatcher. */
  lemma OnePlusTwo(table: Table)
    ensures var tree := Some(BinOp(Some(Num(1)), Token(Add, NoValue), Some(Num(2))));
      && EvalAsWritten(table, tree).0 == Err(MissingAttribute("visit"))
      && Eval(table, tree).0 == Ok(Int(3))
  {
  }

  /** A fresh interpreter evaluating a tree the parser can build binds
      nothing, reads no name successfully, and yields an integer unless the
      tree is missing altogether. */
  lemma {:induction false} EvalExpressionFresh(tree: Option<Node>)
    requires Expression(tree)
    ensures Eval(map[], tree).1 == map[]
    ensures Eval(map[], tree).0.Ok? ==> Names(tree) == {}
    ensures Eval(map[], tree).0.Ok? ==> Eval(map[], tree).0.value.Int? || tree.None?
    decreases tree
  {
    match tree
    case None =>
    case Some(node) =>
      match node
      case Num(_) =>
      case Var(_) =>
      case BinOp(l, op, r) =>
        EvalExpressionFresh(l);
        EvalExpressionFresh(r);
  }

  class Interpreter {
    var symbolTable: Table

    constructor ()
      ensures symbolTable == map[]
    {
      symbolTable := map[];
    }

    method VisitNum(node: Node) returns (v: Value)
      requires node.Num?
      ensures (Ok(v), symbolTable) == Eval(symbolTable, Some(node))
    {
      v := Int(node.value);
    }

    method VisitVar(node: Node) returns (r: Result<Value>)
      requires node.Var?
      ensures (r, symbolTable) == Eval(symbolTable, Some(node))
    {
      var name := node.name;
      if name in symbolTable && symbolTable[name] != NoneValue {
        r := Ok(symbolTable[name]);
      } else {
        r := Err(UndefinedVariable(name));
      }
    }

    method VisitBinOp(node: Node) returns (r: Result<Value>)
      requires node.BinOp?
      modifies this
      ensures (r, symbolTable) == Eval(old(symbolTable), Some(node))
      decreases node, 0
    {
      if node.op.kind == Add || node.op.kind == Sub {
        var left := Interpret(node.left);
        if left.Err? {
          return left;
        }
        var right := Interpret(node.right);
        if right.Err? {
          return right;
        }
        r := Arith(node.op.kind, left.value, right.value);
      } else {
        r := Ok(NoneValue);
      }
    }

    method VisitFunction(node: Node) returns (r: Result<Value>)
      requires node.Function?
      modifies this
      ensures r == Ok(NoneValue)
      ensures symbolTable == old(symbolTable)[node.name := Func(node)]
    {
      symbolTable := symbolTable[node.name := Func(node)];
      r := Ok(NoneValue);
    }

    method VisitIf(node: Node) returns (r: Result<Value>)
      requires node.If?
      modifies this
      ensures (r, symbolTable) == Eval(old(symbolTable), Some(node))
      decreases node, 0
    {
      var condition := Interpret(node.condition);
      if condition.Err? {
        return condition;
      }
      if Truthy(condition.value) {
        r := Interpret(node.ifBody);
      } else {
        r := Interpret(node.elseBody);
      }
    }

    /** The dispatcher; the visitors' `self.visit` is this method. */
    method Interpret(tree: Option<Node>) returns (r: Result<Value>)
      modifies this
      ensures (r, symbolTable) == Eval(old(symbolTable), tree)
      decreases tree, 1
    {
      match tree
      case None =>
        r := Ok(NoneValue);
      case Some(node) =>
        match node
        case Num(_) =>
          var v := VisitNum(node);
          r := Ok(v);
        case Var(_) =>
          r := VisitVar(node);
        case BinOp(_, _, _) =>
          r := VisitBinOp(node);
        case Function(_, _, _) =>
          r := VisitFunction(node);
        case If(_, _, _) =>
          r := VisitIf(node);
    }
  }
}
