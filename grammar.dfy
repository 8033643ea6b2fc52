/**
 * The recursive-descent grammar as pure functions over a token list and an
 * index: each function returns the node it parsed and the index after it,
 * or the error that stops the parse. The imperative parser is proved to
 * agree with these functions.
 */
module Grammar {
  import opened Wrappers
  import JavaLang
  import opened Lexer
  import opened Ast

  /** A parsed piece and the index just after it. */
  datatype Parsed<T> = Parsed(node: T, next: int)

  datatype ParseError =
    | Expected(expected: TokenType, got: Token)
    | NotAnAtom(got: Token)
    | NumberFormat(text: string)

  /** The token at `i`, or EOF past the end. */
  function Cur(toks: seq<Token>, i: int): (t: Token)
    requires 0 <= i
    ensures i >= |toks| ==> t == EOF
  {
    if i < |toks| then toks[i] else EOF
  }

  /** The index after `i`; it never moves past the end. */
  function Next(toks: seq<Token>, i: int): (j: int)
    requires 0 <= i <= |toks|
    ensures i <= j <= |toks| && (i < |toks| ==> j == i + 1)
  {
    if i >= |toks| then i else i + 1
  }

  /** Succeeds with the current token when it has the expected kind. */
  function Expect(toks: seq<Token>, i: int, kind: TokenType): (r: Result<Token, ParseError>)
    requires 0 <= i
    ensures r.Ok? <==> Cur(toks, i).kind == kind
    ensures r.Ok? ==> r.value == Cur(toks, i)
    ensures r.Err? ==> r.error == Expected(kind, Cur(toks, i))
  {
    if Cur(toks, i).kind != kind then Err(Expected(kind, Cur(toks, i))) else Ok(Cur(toks, i))
  }

  /** The kinds that end a block without being consumed by it. */
  const END_BLOCK: set<TokenType> := {EndOfFile, End, Else, Do}

  const COMPARISON_OPS: set<TokenType> := {EqualsEquals, NotEquals, GreaterThan, GreaterThanEquals, LessThan, LessThanEquals}

  /** The binary precedence levels, loosest first, and the atoms below them. */
  datatype Level = Assignment | Or | And | Comparison | Addition | Multiplication | Exponent | Atom

  /** How far a level sits above the atoms. */
  function Depth(lv: Level): nat {
    match lv
    case Assignment => 7
    case Or => 6
    case And => 5
    case Comparison => 4
    case Addition => 3
    case Multiplication => 2
    case Exponent => 1
    case Atom => 0
  }

  /** The operators a level folds. */
  function Ops(lv: Level): set<TokenType> {
    match lv
    case Assignment => {Assign}
    case Or => {OrOr}
    case And => {AndAnd}
    case Comparison => COMPARISON_OPS
    case Addition => {Add, Sub}
    case Multiplication => {Mul, Div, Mod}
    case Exponent => {Pow}
    case Atom => {}
  }

  /** The level that parses a left operand: the next tighter one. */
  function LeftOf(lv: Level): (l: Level)
    requires lv != Atom
    ensures Depth(l) + 1 == Depth(lv)
  {
    match lv
    case Assignment => Or
    case Or => And
    case And => Comparison
    case Comparison => Addition
    case Addition => Multiplication
    case Multiplication => Exponent
    case Exponent => Atom
  }

  /** The level that parses a right operand: the next tighter one, except that `^` takes a multiplicative one. */
  function RightOf(lv: Level): (r: Level)
    requires lv != Atom
    ensures lv != Exponent ==> r == LeftOf(lv)
    ensures lv == Exponent ==> r == Multiplication
  {
    if lv == Exponent then Multiplication else LeftOf(lv)
  }

  /** An expression: the loosest level. */
  function Expr(toks: seq<Token>, i: int): (r: Result<Parsed<Node>, ParseError>)
    requires 0 <= i <= |toks|
    decreases |toks| - i, 2 * Depth(Assignment) + 4
    ensures r.Ok? ==> i < r.value.next <= |toks|
  {
    AtLevel(toks, i, Assignment)
  }

  /**
   * An expression at level `lv`. A `!` prefix wraps a whole comparison, and a
   * `+` or `-` prefix a whole multiplicative expression, in a NegationNode.
   */
  function AtLevel(toks: seq<Token>, i: int, lv: Level): (r: Result<Parsed<Node>, ParseError>)
    requires 0 <= i <= |toks|
    decreases |toks| - i, 2 * Depth(lv) + 3
    ensures r.Ok? ==> i < r.value.next <= |toks|
  {
    var t := Cur(toks, i);
    if lv == Atom then AtomAt(toks, i)
    else if lv == Comparison && t.kind == Not then
      var a :- AtLevel(toks, Next(toks, i), Comparison);
      Ok(Parsed(NegationNode(a.node, Not), a.next))
    else if lv == Multiplication && t.kind in {Add, Sub} then
      var a :- AtLevel(toks, Next(toks, i), Multiplication);
      Ok(Parsed(NegationNode(a.node, t.kind), a.next))
    else Maths(toks, i, lv)
  }

  /** The generic fold of a level: a left operand, then operator and right operand pairs, nested to the left. */
  function Maths(toks: seq<Token>, i: int, lv: Level): (r: Result<Parsed<Node>, ParseError>)
    requires 0 <= i <= |toks| && lv != Atom
    decreases |toks| - i, 2 * Depth(lv) + 2
    ensures r.Ok? ==> i < r.value.next <= |toks|
  {
    var l :- AtLevel(toks, i, LeftOf(lv));
    MathsLoop(toks, l.next, l.node, lv)
  }

  function MathsLoop(toks: seq<Token>, j: int, left: Node, lv: Level): (r: Result<Parsed<Node>, ParseError>)
    requires 0 <= j <= |toks| && lv != Atom
    decreases |toks| - j, 0
    ensures r.Ok? ==> j <= r.value.next <= |toks|
    ensures r.Ok? ==> Cur(toks, r.value.next).kind !in Ops(lv)
  {
    var op := Cur(toks, j).kind;
    if op in Ops(lv) then
      var rhs :- AtLevel(toks, Next(toks, j), RightOf(lv));
      MathsLoop(toks, rhs.next, MathNode(left, rhs.node, op), lv)
    else Ok(Parsed(left, j))
  }

  /** An atom: a literal, a parenthesised expression, a name or call, or one of the keyword forms. */
  function AtomAt(toks: seq<Token>, i: int): (r: Result<Parsed<Node>, ParseError>)
    requires 0 <= i <= |toks|
    decreases |toks| - i, 2
    ensures r.Ok? ==> i < r.value.next <= |toks|
  {
    var t := Cur(toks, i);
    if t.kind == Fun then FunctionDeclaration(toks, i)
    else if t.kind == LParen then
      var e :- Expr(toks, Next(toks, i));
      var _ :- Expect(toks, e.next, RParen);
      Ok(Parsed(e.node, Next(toks, e.next)))
    else if t.kind == Integer then
      match JavaLang.ParseInt(t.contents)
      case Some(n) => Ok(Parsed(IntegerNode(n), Next(toks, i)))
      case None => Err(NumberFormat(t.contents))
    else if t.kind == String then Ok(Parsed(StringNode(t.contents), Next(toks, i)))
    else if t.kind == If then IfStatement(toks, i)
    else if t.kind == Var then VariableDeclaration(toks, i)
    else if t.kind == Identifier then
      var j := Next(toks, i);
      if Cur(toks, j).kind == LParen then
        var k := Next(toks, j);
        var args :- if Cur(toks, k).kind != RParen then
            var first :- Expr(toks, k);
            CallArgs(toks, first.next, [first.node])
          else Ok(Parsed([], k));
        var _ :- Expect(toks, args.next, RParen);
        Ok(Parsed(FunctionCallNode(t.contents, args.node), Next(toks, args.next)))
      else Ok(Parsed(VariableAccessNode(t.contents), j))
    else if t.kind == For then ForLoop(toks, i)
    else Err(NotAnAtom(t))
  }

  /** Further call arguments, each after a comma. */
  function CallArgs(toks: seq<Token>, j: int, args: seq<Node>): (r: Result<Parsed<seq<Node>>, ParseError>)
    requires 0 <= j <= |toks|
    decreases |toks| - j, 0
    ensures r.Ok? ==> j <= r.value.next <= |toks| && Cur(toks, r.value.next).kind != Comma
    ensures r.Ok? ==> |args| <= |r.value.node| && r.value.node[..|args|] == args
  {
    if Cur(toks, j).kind == Comma then
      var a :- Expr(toks, Next(toks, j));
      CallArgs(toks, a.next, args + [a.node])
    else Ok(Parsed(args, j))
  }

  /** A block: expressions up to a terminator, which stays unconsumed, each optionally followed by one Newline. */
  function Block(toks: seq<Token>, i: int): (r: Result<Parsed<Node>, ParseError>)
    requires 0 <= i <= |toks|
    decreases |toks| - i, 2 * Depth(Assignment) + 6
    ensures r.Ok? ==> i <= r.value.next <= |toks| && Cur(toks, r.value.next).kind in END_BLOCK
    ensures r.Ok? ==> r.value.node.BlockNode?
  {
    var b :- BlockFrom(toks, i, []);
    Ok(Parsed(BlockNode(b.node), b.next))
  }

  function BlockFrom(toks: seq<Token>, j: int, exprs: seq<Node>): (r: Result<Parsed<seq<Node>>, ParseError>)
    requires 0 <= j <= |toks|
    decreases |toks| - j, 2 * Depth(Assignment) + 5
    ensures r.Ok? ==> j <= r.value.next <= |toks| && Cur(toks, r.value.next).kind in END_BLOCK
    ensures r.Ok? ==> |exprs| <= |r.value.node| && r.value.node[..|exprs|] == exprs
  {
    if Cur(toks, j).kind in END_BLOCK then Ok(Parsed(exprs, j))
    else
      var e :- Expr(toks, j);
      var k := if Cur(toks, e.next).kind == Newline then Next(toks, e.next) else e.next;
      BlockFrom(toks, k, exprs + [e.node])
  }

  /** `for` condition-block `do` [Newline] body-block, and then one more token, whatever it is. */
  function ForLoop(toks: seq<Token>, i: int): (r: Result<Parsed<Node>, ParseError>)
    requires 0 <= i <= |toks|
    decreases |toks| - i, 1
    ensures r.Ok? ==> i < r.value.next <= |toks|
  {
    var _ :- Expect(toks, i, For);
    var cond :- Block(toks, Next(toks, i));
    var _ :- Expect(toks, cond.next, Do);
    var j := Next(toks, cond.next);
    var k := if Cur(toks, j).kind == Newline then Next(toks, j) else j;
    var body :- Block(toks, k);
    Ok(Parsed(ForNode(cond.node, body.node), Next(toks, body.next)))
  }

  /** `var` name `:` type `<-` expression. */
  function VariableDeclaration(toks: seq<Token>, i: int): (r: Result<Parsed<Node>, ParseError>)
    requires 0 <= i <= |toks|
    decreases |toks| - i, 1
    ensures r.Ok? ==> i < r.value.next <= |toks|
  {
    var _ :- Expect(toks, i, Var);
    var id :- Expect(toks, Next(toks, i), Identifier);
    var j := Next(toks, Next(toks, i));
    var _ :- Expect(toks, j, Colon);
    var ty :- Expect(toks, Next(toks, j), Identifier);
    var k := Next(toks, Next(toks, j));
    var _ :- Expect(toks, k, Assign);
    var value :- Expr(toks, Next(toks, k));
    Ok(Parsed(VariableDeclarationNode(id.contents, ty.contents, value.node), value.next))
  }

  /** `if` condition `then` [Newline] block. */
  function IfBranch(toks: seq<Token>, i: int): (r: Result<Parsed<Branch>, ParseError>)
    requires 0 <= i <= |toks|
    decreases |toks| - i, 0
    ensures r.Ok? ==> i < r.value.next <= |toks| && Cur(toks, r.value.next).kind in END_BLOCK
  {
    var _ :- Expect(toks, i, If);
    var cond :- Expr(toks, Next(toks, i));
    var _ :- Expect(toks, cond.next, Then);
    var j := Next(toks, cond.next);
    var k := if Cur(toks, j).kind == Newline then Next(toks, j) else j;
    var body :- Block(toks, k);
    Ok(Parsed(Branch(cond.node, body.node), body.next))
  }

  /** A whole `if`: its first arm, any `else if` arms, an optional `else` block, and `end`. */
  function IfStatement(toks: seq<Token>, i: int): (r: Result<Parsed<Node>, ParseError>)
    requires 0 <= i <= |toks|
    decreases |toks| - i, 1
    ensures r.Ok? ==> i < r.value.next <= |toks|
  {
    var first :- IfBranch(toks, i);
    var arms :- ElseArms(toks, first.next, [first.node]);
    var _ :- Expect(toks, arms.next, End);
    Ok(Parsed(IfNode(arms.node.0, arms.node.1), Next(toks, arms.next)))
  }

  /** The arms after the first: `else if` arms until a plain `else`, whose block ends the chain. */
  function ElseArms(toks: seq<Token>, j: int, branches: seq<Branch>): (r: Result<Parsed<(seq<Branch>, Option<Node>)>, ParseError>)
    requires 0 <= j <= |toks|
    decreases |toks| - j, 0
    ensures r.Ok? ==> j <= r.value.next <= |toks|
    ensures r.Ok? ==> |branches| <= |r.value.node.0| && r.value.node.0[..|branches|] == branches
  {
    if Cur(toks, j).kind == Else then
      var k := Next(toks, j);
      if Cur(toks, k).kind == If then
        var b :- IfBranch(toks, k);
        ElseArms(toks, b.next, branches + [b.node])
      else
        var m := if Cur(toks, k).kind == Newline then Next(toks, k) else k;
        var otherwise :- Block(toks, m);
        Ok(Parsed((branches, Some(otherwise.node)), otherwise.next))
    else Ok(Parsed((branches, None), j))
  }

  /** A parameter: name `:` type. */
  function ArgumentAt(toks: seq<Token>, i: int): (r: Result<Parsed<Argument>, ParseError>)
    requires 0 <= i <= |toks|
    ensures r.Ok? ==> i < r.value.next <= |toks|
  {
    var name :- Expect(toks, i, Identifier);
    var _ :- Expect(toks, Next(toks, i), Colon);
    var ty :- Expect(toks, Next(toks, Next(toks, i)), Identifier);
    Ok(Parsed(Argument(name.contents, ty.contents), Next(toks, Next(toks, Next(toks, i)))))
  }

  /** Further parameters, each after a comma. */
  function Params(toks: seq<Token>, j: int, args: seq<Argument>): (r: Result<Parsed<seq<Argument>>, ParseError>)
    requires 0 <= j <= |toks|
    decreases |toks| - j
    ensures r.Ok? ==> j <= r.value.next <= |toks| && Cur(toks, r.value.next).kind != Comma
    ensures r.Ok? ==> |args| <= |r.value.node| && r.value.node[..|args|] == args
  {
    if Cur(toks, j).kind == Comma then
      var a :- ArgumentAt(toks, Next(toks, j));
      Params(toks, a.next, args + [a.node])
    else Ok(Parsed(args, j))
  }

  /** `fun` name `(` parameters `)` [Newline] block `end`. */
  function FunctionDeclaration(toks: seq<Token>, i: int): (r: Result<Parsed<Node>, ParseError>)
    requires 0 <= i <= |toks|
    decreases |toks| - i, 1
    ensures r.Ok? ==> i < r.value.next <= |toks|
  {
    var _ :- Expect(toks, i, Fun);
    var id :- Expect(toks, Next(toks, i), Identifier);
    var j := Next(toks, Next(toks, i));
    var _ :- Expect(toks, j, LParen);
    var k := Next(toks, j);
    var args :- if Cur(toks, k).kind == Identifier then
        var first :- ArgumentAt(toks, k);
        Params(toks, first.next, [first.node])
      else Ok(Parsed([], k));
    var _ :- Expect(toks, args.next, RParen);
    var m := Next(toks, args.next);
    var n := if Cur(toks, m).kind == Newline then Next(toks, m) else m;
    var body :- Block(toks, n);
    var _ :- Expect(toks, body.next, End);
    Ok(Parsed(FunctionDeclarationNode(id.contents, args.node, body.node), Next(toks, body.next)))
  }

  /** A whole program: one block, which must be followed by EndOfFile. */
  function Parse(toks: seq<Token>): (r: Result<Node, ParseError>)
    ensures r.Ok? ==> r.value.BlockNode?
  {
    var b :- Block(toks, 0);
    var _ :- Expect(toks, b.next, EndOfFile);
    Ok(b.node)
  }
}
