/**
 * Facts about the grammar: expressions are parsed greedily, the
 * precedence and associativity of every operator, and the quirks of the
 * `for`, block and atom rules.
 */
module GrammarFacts {
  import opened Wrappers
  import JavaLang
  import opened Lexer
  import opened Ast
  import opened Grammar

  /** Every binary operator a level or any tighter level folds. */
  function OpsUpTo(lv: Level): (s: set<TokenType>)
    ensures Ops(lv) <= s
  {
    match lv
    case Atom => {}
    case Exponent => {Pow}
    case Multiplication => {Mul, Div, Mod, Pow}
    case Addition => {Add, Sub, Mul, Div, Mod, Pow}
    case Comparison => COMPARISON_OPS + {Add, Sub, Mul, Div, Mod, Pow}
    case And => {AndAnd} + COMPARISON_OPS + {Add, Sub, Mul, Div, Mod, Pow}
    case Or => {OrOr, AndAnd} + COMPARISON_OPS + {Add, Sub, Mul, Div, Mod, Pow}
    case Assignment => {Assign, OrOr, AndAnd} + COMPARISON_OPS + {Add, Sub, Mul, Div, Mod, Pow}
  }

  /** Each level adds its own operators to those of the level below; `^`'s right operand level covers its left's. */
  lemma OpsUpToStep(lv: Level)
    requires lv != Atom
    ensures OpsUpTo(lv) == Ops(lv) + OpsUpTo(LeftOf(lv))
    ensures OpsUpTo(LeftOf(lv)) <= OpsUpTo(RightOf(lv))
  {
  }

  /** A token at no particular position, for the examples below. */
  function Tok(kind: TokenType, contents: string): Token {
    Token(kind, contents, Position(0, 0, 0, ""))
  }

  function Id(name: string): Token {
    Tok(Identifier, name)
  }

  function Sym(kind: TokenType): Token {
    Tok(kind, "")
  }

  /** A left-nested MathNode: the tree `maths` builds for `a op b`. */
  function Bin(l: Node, op: TokenType, r: Node): Node {
    MathNode(l, r, op)
  }

  function V(name: string): Node {
    VariableAccessNode(name)
  }

  // Greedy parsing: an expression at a level stops only at a token that no
  // level at or below it could continue with.

  lemma {:induction false} AtLevelStops(toks: seq<Token>, i: int, lv: Level)
    requires 0 <= i <= |toks|
    requires AtLevel(toks, i, lv).Ok?
    decreases |toks| - i, 2 * Depth(lv) + 3
    ensures Cur(toks, AtLevel(toks, i, lv).value.next).kind !in OpsUpTo(lv)
  {
    var t := Cur(toks, i);
    if lv == Atom {
    } else if lv == Comparison && t.kind == Not {
      AtLevelStops(toks, Next(toks, i), Comparison);
    } else if lv == Multiplication && t.kind in {Add, Sub} {
      AtLevelStops(toks, Next(toks, i), Multiplication);
    } else {
      MathsStops(toks, i, lv);
    }
  }

  lemma {:induction false} MathsStops(toks: seq<Token>, i: int, lv: Level)
    requires 0 <= i <= |toks| && lv != Atom
    requires Maths(toks, i, lv).Ok?
    decreases |toks| - i, 2 * Depth(lv) + 2
    ensures Cur(toks, Maths(toks, i, lv).value.next).kind !in OpsUpTo(lv)
  {
    var l := AtLevel(toks, i, LeftOf(lv)).value;
    AtLevelStops(toks, i, LeftOf(lv));
    MathsLoopStops(toks, l.next, l.node, lv);
  }

  lemma {:induction false} MathsLoopStops(toks: seq<Token>, j: int, left: Node, lv: Level)
    requires 0 <= j <= |toks| && lv != Atom
    requires Cur(toks, j).kind !in OpsUpTo(LeftOf(lv))
    requires MathsLoop(toks, j, left, lv).Ok?
    decreases |toks| - j, 0
    ensures Cur(toks, MathsLoop(toks, j, left, lv).value.next).kind !in OpsUpTo(lv)
  {
    OpsUpToStep(lv);
    var op := Cur(toks, j).kind;
    if op in Ops(lv) {
      var rhs := AtLevel(toks, Next(toks, j), RightOf(lv)).value;
      AtLevelStops(toks, Next(toks, j), RightOf(lv));
      MathsLoopStops(toks, rhs.next, MathNode(left, rhs.node, op), lv);
    }
  }

  /** An expression is maximal: it is never followed by a binary operator. */
  lemma ExprIsGreedy(toks: seq<Token>, i: int)
    requires 0 <= i <= |toks| && Expr(toks, i).Ok?
    ensures Cur(toks, Expr(toks, i).value.next).kind !in OpsUpTo(Assignment)
    ensures OpsUpTo(Assignment) == {Assign, OrOr, AndAnd, EqualsEquals, NotEquals, GreaterThan, GreaterThanEquals, LessThan, LessThanEquals, Add, Sub, Mul, Div, Mod, Pow}
  {
    AtLevelStops(toks, i, Assignment);
  }

  // Precedence and associativity over all token lists.

  /** Depth tells the levels apart. */
  lemma DepthInjective(lv: Level, lv2: Level)
    requires Depth(lv) == Depth(lv2)
    ensures lv == lv2
  {
  }

  /** A level covers the operators of every tighter level. */
  lemma {:induction false} OpsUpToMonotone(lv: Level, lv2: Level)
    requires Depth(lv) <= Depth(lv2)
    ensures OpsUpTo(lv) <= OpsUpTo(lv2)
    decreases Depth(lv2)
  {
    if Depth(lv) < Depth(lv2) {
      OpsUpToStep(lv2);
      OpsUpToMonotone(lv, LeftOf(lv2));
    } else {
      DepthInjective(lv, lv2);
    }
  }

  /** An operator of a level belongs to no tighter level. */
  lemma OpNotTighter(op: TokenType, lv: Level, lv2: Level)
    requires lv != Atom && op in Ops(lv) && Depth(lv2) < Depth(lv)
    ensures op !in OpsUpTo(lv2)
  {
    OpsUpToMonotone(lv2, LeftOf(lv));
  }

  /** An atom followed by no operator of a level is, alone, the parse at that level. */
  lemma AtomLifts(toks: seq<Token>, i: int, a: Node, j: int, lv: Level)
    requires 0 <= i <= |toks| && AtLevel(toks, i, Atom) == Ok(Parsed(a, j)) && Cur(toks, j).kind !in OpsUpTo(lv)
    ensures i < j <= |toks| && Cur(toks, i).kind !in {Not, Add, Sub}
    ensures AtLevel(toks, i, lv) == Ok(Parsed(a, j))
  {
    LiftTo(toks, i, Atom, lv, a, j);
  }

  /**
   * A left operand, an operator of level `lv`, a right operand, and no
   * operator after: with no prefix operator in front, the whole
   * expression is that one MathNode.
   */
  lemma Combine(toks: seq<Token>, i: int, lv: Level, left: Node, j: int, right: Node, m: int)
    requires 0 <= i <= |toks| && lv != Atom && Cur(toks, i).kind !in {Not, Add, Sub}
    requires AtLevel(toks, i, LeftOf(lv)) == Ok(Parsed(left, j)) && Cur(toks, j).kind in Ops(lv)
    requires AtLevel(toks, Next(toks, j), RightOf(lv)) == Ok(Parsed(right, m)) && Cur(toks, m).kind !in OpsUpTo(Assignment)
    ensures Expr(toks, i) == Ok(Parsed(MathNode(left, right, Cur(toks, j).kind), m))
  {
    OpsUpToMonotone(lv, Assignment);
    OneOperator(toks, i, lv, left, j, right, m);
    LiftTo(toks, i, lv, Assignment, MathNode(left, right, Cur(toks, j).kind), m);
  }

  /**
   * Two atoms joined by an operator of level `lv`, followed by no operator
   * that level `lv2`, or `lv`'s right operand, could continue with: read
   * at `lv2`, as loose as `lv` or looser, they are that one MathNode.
   */
  lemma Pair(toks: seq<Token>, x: int, lv: Level, lv2: Level, b: Node, k: int, c: Node, m: int)
    requires 0 <= x <= |toks| && lv != Atom && Depth(lv) <= Depth(lv2)
    requires AtLevel(toks, x, Atom) == Ok(Parsed(b, k)) && Cur(toks, k).kind in Ops(lv)
    requires k < |toks| && AtLevel(toks, k + 1, Atom) == Ok(Parsed(c, m))
    requires Cur(toks, m).kind !in OpsUpTo(lv2) + OpsUpTo(RightOf(lv))
    ensures AtLevel(toks, x, lv2) == Ok(Parsed(MathNode(b, c, Cur(toks, k).kind), m))
  {
    OpNotTighter(Cur(toks, k).kind, lv, LeftOf(lv));
    AtomLifts(toks, x, b, k, LeftOf(lv));
    AtomLifts(toks, k + 1, c, m, RightOf(lv));
    OneOperator(toks, x, lv, b, k, c, m);
    LiftTo(toks, x, lv, lv2, MathNode(b, c, Cur(toks, k).kind), m);
  }

  /** Two atoms joined by an operator of level `lv`, with no operator after, read at `lv2`, as loose as `lv` or looser. */
  lemma PairEnd(toks: seq<Token>, x: int, lv: Level, lv2: Level, b: Node, k: int, c: Node, m: int)
    requires 0 <= x <= |toks| && lv != Atom && Depth(lv) <= Depth(lv2)
    requires AtLevel(toks, x, Atom) == Ok(Parsed(b, k)) && Cur(toks, k).kind in Ops(lv)
    requires k < |toks| && AtLevel(toks, k + 1, Atom) == Ok(Parsed(c, m)) && Cur(toks, m).kind !in OpsUpTo(Assignment)
    ensures AtLevel(toks, x, lv2) == Ok(Parsed(MathNode(b, c, Cur(toks, k).kind), m))
  {
    OpsUpToMonotone(lv2, Assignment);
    OpsUpToMonotone(RightOf(lv), Assignment);
    Pair(toks, x, lv, lv2, b, k, c, m);
  }

  /**
   * Two atoms joined by an operator of level `lv`, followed by an operator
   * of a looser level `lv1` (other than `*`, `/` or `%` after `^`): read as
   * the left operand of `lv1`, they are that one MathNode.
   */
  lemma PairBefore(toks: seq<Token>, x: int, lv: Level, lv1: Level, b: Node, k: int, c: Node, m: int)
    requires 0 <= x <= |toks| && lv != Atom && Depth(lv) < Depth(lv1) && !(lv == Exponent && lv1 == Multiplication)
    requires AtLevel(toks, x, Atom) == Ok(Parsed(b, k)) && Cur(toks, k).kind in Ops(lv)
    requires k < |toks| && AtLevel(toks, k + 1, Atom) == Ok(Parsed(c, m)) && Cur(toks, m).kind in Ops(lv1)
    ensures AtLevel(toks, x, LeftOf(lv1)) == Ok(Parsed(MathNode(b, c, Cur(toks, k).kind), m))
  {
    OpNotTighter(Cur(toks, m).kind, lv1, LeftOf(lv1));
    OpNotTighter(Cur(toks, m).kind, lv1, RightOf(lv));
    Pair(toks, x, lv, LeftOf(lv1), b, k, c, m);
  }

  /** An atom, an operator of level `lv`, and a right operand of that level, with no operator after: one MathNode. */
  lemma CombineAtomLeft(toks: seq<Token>, i: int, lv: Level, a: Node, j: int, right: Node, m: int)
    requires 0 <= i <= |toks| && lv != Atom
    requires AtLevel(toks, i, Atom) == Ok(Parsed(a, j)) && Cur(toks, j).kind in Ops(lv)
    requires j < |toks| && AtLevel(toks, j + 1, RightOf(lv)) == Ok(Parsed(right, m)) && Cur(toks, m).kind !in OpsUpTo(Assignment)
    ensures Expr(toks, i) == Ok(Parsed(MathNode(a, right, Cur(toks, j).kind), m))
  {
    OpNotTighter(Cur(toks, j).kind, lv, LeftOf(lv));
    AtomLifts(toks, i, a, j, LeftOf(lv));
    Combine(toks, i, lv, a, j, right, m);
  }

  /** A left operand of level `lv` with no prefix operator, an operator of `lv`, and an atom with no operator after: one MathNode. */
  lemma CombineAtomRight(toks: seq<Token>, i: int, lv: Level, left: Node, j: int, c: Node, m: int)
    requires 0 <= i <= |toks| && lv != Atom && Cur(toks, i).kind !in {Not, Add, Sub}
    requires AtLevel(toks, i, LeftOf(lv)) == Ok(Parsed(left, j)) && Cur(toks, j).kind in Ops(lv)
    requires j < |toks| && AtLevel(toks, j + 1, Atom) == Ok(Parsed(c, m)) && Cur(toks, m).kind !in OpsUpTo(Assignment)
    ensures Expr(toks, i) == Ok(Parsed(MathNode(left, c, Cur(toks, j).kind), m))
  {
    OpsUpToMonotone(RightOf(lv), Assignment);
    AtomLifts(toks, j + 1, c, m, RightOf(lv));
    Combine(toks, i, lv, left, j, c, m);
  }

  /**
   * Three atoms `a op1 b op2 c`, with `op2` of a tighter level than `op1`
   * and no operator after `c`: the whole expression is `a op1 (b op2 c)`.
   */
  lemma TighterOnRight(toks: seq<Token>, i: int, lv1: Level, lv2: Level, a: Node, j: int, b: Node, k: int, c: Node, m: int)
    requires 0 <= i <= |toks| && lv2 != Atom && Depth(lv2) < Depth(lv1)
    requires AtLevel(toks, i, Atom) == Ok(Parsed(a, j)) && Cur(toks, j).kind in Ops(lv1)
    requires j < |toks| && AtLevel(toks, j + 1, Atom) == Ok(Parsed(b, k)) && Cur(toks, k).kind in Ops(lv2)
    requires k < |toks| && AtLevel(toks, k + 1, Atom) == Ok(Parsed(c, m)) && Cur(toks, m).kind !in OpsUpTo(Assignment)
    ensures Expr(toks, i) == Ok(Parsed(MathNode(a, MathNode(b, c, Cur(toks, k).kind), Cur(toks, j).kind), m))
  {
    PairEnd(toks, j + 1, lv2, RightOf(lv1), b, k, c, m);
    CombineAtomLeft(toks, i, lv1, a, j, MathNode(b, c, Cur(toks, k).kind), m);
  }

  /**
   * Three atoms `a op2 b op1 c`, with `op2` of a tighter level than `op1`
   * and no operator after `c`: the whole expression is `(a op2 b) op1 c`.
   * The one exception is a product after `^`, which `^` takes whole
   * (`PowTakesWholeProduct`).
   */
  lemma TighterOnLeft(toks: seq<Token>, i: int, lv1: Level, lv2: Level, a: Node, j: int, b: Node, k: int, c: Node, m: int)
    requires 0 <= i <= |toks| && lv2 != Atom && Depth(lv2) < Depth(lv1) && !(lv2 == Exponent && lv1 == Multiplication)
    requires AtLevel(toks, i, Atom) == Ok(Parsed(a, j)) && Cur(toks, j).kind in Ops(lv2)
    requires j < |toks| && AtLevel(toks, j + 1, Atom) == Ok(Parsed(b, k)) && Cur(toks, k).kind in Ops(lv1)
    requires k < |toks| && AtLevel(toks, k + 1, Atom) == Ok(Parsed(c, m)) && Cur(toks, m).kind !in OpsUpTo(Assignment)
    ensures Expr(toks, i) == Ok(Parsed(MathNode(MathNode(a, b, Cur(toks, j).kind), c, Cur(toks, k).kind), m))
  {
    PairBefore(toks, i, lv2, lv1, a, j, b, k);
    AtomLifts(toks, i, a, j, Atom);
    CombineAtomRight(toks, i, lv1, MathNode(a, b, Cur(toks, j).kind), k, c, m);
  }

  /** At an operator of a level other than `^`, the loop takes the atom after it as the right operand. */
  lemma LoopStepAtom(toks: seq<Token>, j: int, left: Node, lv: Level, b: Node, k: int)
    requires 0 <= j < |toks| && lv != Atom && lv != Exponent
    requires Cur(toks, j).kind in Ops(lv) && AtLevel(toks, j + 1, Atom) == Ok(Parsed(b, k))
    requires Cur(toks, k).kind !in OpsUpTo(LeftOf(lv))
    ensures j < k <= |toks|
    ensures MathsLoop(toks, j, left, lv) == MathsLoop(toks, k, MathNode(left, b, Cur(toks, j).kind), lv)
  {
    AtomLifts(toks, j + 1, b, k, RightOf(lv));
    LoopStep(toks, j, left, lv, b, k);
  }

  /** The operator loop of a level other than `^`, over two more operators and atoms: each nests what came before as its left operand. */
  lemma LoopTwice(toks: seq<Token>, j: int, left: Node, lv: Level, b: Node, k: int, c: Node, m: int)
    requires 0 <= j < |toks| && lv != Atom && lv != Exponent
    requires Cur(toks, j).kind in Ops(lv) && AtLevel(toks, j + 1, Atom) == Ok(Parsed(b, k))
    requires k < |toks| && Cur(toks, k).kind in Ops(lv) && AtLevel(toks, k + 1, Atom) == Ok(Parsed(c, m))
    requires Cur(toks, m).kind !in OpsUpTo(Assignment)
    ensures MathsLoop(toks, j, left, lv) == Ok(Parsed(MathNode(MathNode(left, b, Cur(toks, j).kind), c, Cur(toks, k).kind), m))
  {
    OpNotTighter(Cur(toks, k).kind, lv, LeftOf(lv));
    LoopStepAtom(toks, j, left, lv, b, k);
    OpsUpToMonotone(lv, Assignment);
    var ab := MathNode(left, b, Cur(toks, j).kind);
    LoopStepAtom(toks, k, ab, lv, c, m);
    LoopStop(toks, m, MathNode(ab, c, Cur(toks, k).kind), lv);
  }

  /**
   * Three atoms joined by two operators of one level other than `^`, with
   * no operator after: the operators nest to the left, `(a op b) op' c`.
   */
  lemma SameLevelNestsLeft(toks: seq<Token>, i: int, lv: Level, a: Node, j: int, b: Node, k: int, c: Node, m: int)
    requires 0 <= i <= |toks| && lv != Atom && lv != Exponent
    requires AtLevel(toks, i, Atom) == Ok(Parsed(a, j)) && Cur(toks, j).kind in Ops(lv)
    requires j < |toks| && AtLevel(toks, j + 1, Atom) == Ok(Parsed(b, k)) && Cur(toks, k).kind in Ops(lv)
    requires k < |toks| && AtLevel(toks, k + 1, Atom) == Ok(Parsed(c, m)) && Cur(toks, m).kind !in OpsUpTo(Assignment)
    ensures Expr(toks, i) == Ok(Parsed(MathNode(MathNode(a, b, Cur(toks, j).kind), c, Cur(toks, k).kind), m))
  {
    OpNotTighter(Cur(toks, j).kind, lv, LeftOf(lv));
    AtomLifts(toks, i, a, j, LeftOf(lv));
    LoopTwice(toks, j, a, lv, b, k, c, m);
    OpsUpToMonotone(lv, Assignment);
    LiftTo(toks, i, lv, Assignment, MathNode(MathNode(a, b, Cur(toks, j).kind), c, Cur(toks, k).kind), m);
  }

  /** Three atoms joined by two `^`, with no operator after: they nest to the right, `a ^ (b ^ c)`. */
  lemma PowNestsRight(toks: seq<Token>, i: int, a: Node, j: int, b: Node, k: int, c: Node, m: int)
    requires 0 <= i <= |toks|
    requires AtLevel(toks, i, Atom) == Ok(Parsed(a, j)) && Cur(toks, j).kind == Pow
    requires j < |toks| && AtLevel(toks, j + 1, Atom) == Ok(Parsed(b, k)) && Cur(toks, k).kind == Pow
    requires k < |toks| && AtLevel(toks, k + 1, Atom) == Ok(Parsed(c, m)) && Cur(toks, m).kind !in OpsUpTo(Assignment)
    ensures Expr(toks, i) == Ok(Parsed(MathNode(a, MathNode(b, c, Pow), Pow), m))
  {
    PairEnd(toks, j + 1, Exponent, Multiplication, b, k, c, m);
    CombineAtomLeft(toks, i, Exponent, a, j, MathNode(b, c, Pow), m);
  }

  // The statement forms over all token lists.

  /**
   * A program parses iff its block parses and is followed by EndOfFile;
   * the program is then that block.
   */
  lemma ParseIsBlockThenEof(toks: seq<Token>)
    ensures Parse(toks).Ok? <==> Block(toks, 0).Ok? && Cur(toks, Block(toks, 0).value.next).kind == EndOfFile
    ensures Parse(toks).Ok? ==> Parse(toks).value == Block(toks, 0).value.node
    ensures Block(toks, 0).Err? ==> Parse(toks) == Err(Block(toks, 0).error)
  {
  }

  /**
   * A `for` form parses iff `for`, a condition block, `do`, an optional
   * Newline and a body block parse; it then ends one token after the
   * body, and the token it takes there may be any terminator, `end` or
   * not.
   */
  lemma ForLoopShape(toks: seq<Token>, i: int)
    requires 0 <= i <= |toks|
    ensures ForLoop(toks, i).Ok? <==>
      Cur(toks, i).kind == For && Block(toks, Next(toks, i)).Ok? &&
      var cond := Block(toks, Next(toks, i)).value;
      Cur(toks, cond.next).kind == Do &&
      var j := Next(toks, cond.next);
      Block(toks, if Cur(toks, j).kind == Newline then Next(toks, j) else j).Ok?
    ensures ForLoop(toks, i).Ok? ==>
      var cond := Block(toks, Next(toks, i)).value;
      var j := Next(toks, cond.next);
      var body := Block(toks, if Cur(toks, j).kind == Newline then Next(toks, j) else j).value;
      ForLoop(toks, i).value == Parsed(ForNode(cond.node, body.node), Next(toks, body.next)) &&
      Cur(toks, body.next).kind in END_BLOCK
  {
  }

  /**
   * An `if` statement starts at `if`, has at least one conditional arm, and
   * its last token is the `end` it requires.
   */
  lemma IfConsumesEnd(toks: seq<Token>, i: int)
    requires 0 <= i <= |toks| && IfStatement(toks, i).Ok?
    ensures var r := IfStatement(toks, i).value;
      toks[i].kind == If && toks[r.next - 1].kind == End && r.node.IfNode? && |r.node.conditions| >= 1
  {
  }

  /** A function declaration starts at `fun` and its last token is the `end` it requires. */
  lemma FunctionConsumesEnd(toks: seq<Token>, i: int)
    requires 0 <= i <= |toks| && FunctionDeclaration(toks, i).Ok?
    ensures var r := FunctionDeclaration(toks, i).value;
      toks[i].kind == Fun && toks[r.next - 1].kind == End && r.node.FunctionDeclarationNode?
  {
  }

  /**
   * A block's loop refuses a Newline where an expression should start, so
   * after an expression one Newline is skipped and a second is an error.
   */
  lemma SecondNewlineRejected(toks: seq<Token>, j: int, exprs: seq<Node>)
    requires 0 <= j <= |toks| && Cur(toks, j).kind !in END_BLOCK && Expr(toks, j).Ok?
    requires var e := Expr(toks, j).value; Cur(toks, e.next).kind == Newline && Cur(toks, Next(toks, e.next)).kind == Newline
    ensures var e := Expr(toks, j).value; BlockFrom(toks, j, exprs) == Err(NotAnAtom(Cur(toks, Next(toks, e.next))))
  {
    var e := Expr(toks, j).value;
    NotAnExpression(toks, Next(toks, e.next), Assignment);
  }

  /** A Newline cannot start an expression. */
  lemma NewlineStartsNothing(toks: seq<Token>, j: int, exprs: seq<Node>)
    requires 0 <= j <= |toks| && Cur(toks, j).kind == Newline
    ensures BlockFrom(toks, j, exprs) == Err(NotAnAtom(Cur(toks, j)))
  {
    NotAnExpression(toks, j, Assignment);
  }

  // One-step equations the examples below are assembled from.

  /** A name not followed by `(` is a variable access. */
  lemma NameAtom(toks: seq<Token>, i: int)
    requires 0 <= i < |toks| && toks[i].kind == Identifier && Cur(toks, i + 1).kind != LParen
    ensures AtomAt(toks, i) == Ok(Parsed(VariableAccessNode(toks[i].contents), i + 1))
  {
  }

  /** Without a prefix operator, a level is its left operand followed by its operator loop. */
  lemma Fold(toks: seq<Token>, i: int, lv: Level, left: Node, j: int)
    requires 0 <= i <= |toks| && lv != Atom
    requires !(lv == Comparison && Cur(toks, i).kind == Not) && !(lv == Multiplication && Cur(toks, i).kind in {Add, Sub})
    requires AtLevel(toks, i, LeftOf(lv)) == Ok(Parsed(left, j))
    ensures AtLevel(toks, i, lv) == MathsLoop(toks, j, left, lv)
  {
  }

  /** The operator loop stops at a token that is not one of the level's operators. */
  lemma LoopStop(toks: seq<Token>, j: int, left: Node, lv: Level)
    requires 0 <= j <= |toks| && lv != Atom && Cur(toks, j).kind !in Ops(lv)
    ensures MathsLoop(toks, j, left, lv) == Ok(Parsed(left, j))
  {
  }

  /** At one of the level's operators the loop nests what it has so far as the left operand. */
  lemma LoopStep(toks: seq<Token>, j: int, left: Node, lv: Level, right: Node, k: int)
    requires 0 <= j <= |toks| && lv != Atom && Cur(toks, j).kind in Ops(lv)
    requires AtLevel(toks, Next(toks, j), RightOf(lv)) == Ok(Parsed(right, k))
    ensures MathsLoop(toks, j, left, lv) == MathsLoop(toks, k, MathNode(left, right, Cur(toks, j).kind), lv)
  {
  }

  /** One operator of the level between two operands, and none after: the level's parse is that one MathNode. */
  lemma OneOperator(toks: seq<Token>, i: int, lv: Level, left: Node, j: int, right: Node, k: int)
    requires 0 <= i <= |toks| && lv != Atom
    requires !(lv == Comparison && Cur(toks, i).kind == Not) && !(lv == Multiplication && Cur(toks, i).kind in {Add, Sub})
    requires AtLevel(toks, i, LeftOf(lv)) == Ok(Parsed(left, j)) && Cur(toks, j).kind in Ops(lv)
    requires AtLevel(toks, Next(toks, j), RightOf(lv)) == Ok(Parsed(right, k)) && Cur(toks, k).kind !in Ops(lv)
    ensures AtLevel(toks, i, lv) == Ok(Parsed(MathNode(left, right, Cur(toks, j).kind), k))
  {
    Fold(toks, i, lv, left, j);
    LoopStep(toks, j, left, lv, right, k);
    LoopStop(toks, k, MathNode(left, right, Cur(toks, j).kind), lv);
  }

  /** A name not followed by `(` or by an operator of the level is a VariableAccessNode at that level. */
  lemma {:induction false} NameAt(toks: seq<Token>, i: int, lv: Level)
    requires 0 <= i < |toks| && toks[i].kind == Identifier
    requires Cur(toks, i + 1).kind != LParen && Cur(toks, i + 1).kind !in OpsUpTo(lv)
    decreases Depth(lv)
    ensures AtLevel(toks, i, lv) == Ok(Parsed(VariableAccessNode(toks[i].contents), i + 1))
  {
    if lv == Atom {
      NameAtom(toks, i);
    } else {
      OpsUpToStep(lv);
      NameAt(toks, i, LeftOf(lv));
      Fold(toks, i, lv, VariableAccessNode(toks[i].contents), i + 1);
      LoopStop(toks, i + 1, VariableAccessNode(toks[i].contents), lv);
    }
  }

  /** A parse at a tighter level is the parse at every looser level when no operator of theirs follows it. */
  lemma {:induction false} LiftTo(toks: seq<Token>, i: int, from: Level, lv: Level, n: Node, j: int)
    requires 0 <= i <= j <= |toks| && Depth(from) <= Depth(lv)
    requires AtLevel(toks, i, from) == Ok(Parsed(n, j))
    requires Cur(toks, j).kind !in OpsUpTo(lv)
    requires Cur(toks, i).kind == Not ==> Depth(Comparison) <= Depth(from)
    requires Cur(toks, i).kind in {Add, Sub} ==> Depth(Multiplication) <= Depth(from)
    decreases Depth(lv)
    ensures AtLevel(toks, i, lv) == Ok(Parsed(n, j))
  {
    if Depth(lv) > Depth(from) {
      OpsUpToStep(lv);
      LiftTo(toks, i, from, LeftOf(lv), n, j);
      Fold(toks, i, lv, n, j);
      LoopStop(toks, j, n, lv);
    }
  }

  /** An atom that fails, with no prefix operator before it, fails the same way at every level. */
  lemma {:induction false} AtomErrorRises(toks: seq<Token>, i: int, lv: Level)
    requires 0 <= i <= |toks| && AtomAt(toks, i).Err? && Cur(toks, i).kind !in {Not, Add, Sub}
    decreases Depth(lv)
    ensures AtLevel(toks, i, lv) == Err(AtomAt(toks, i).error)
  {
    if lv != Atom {
      AtomErrorRises(toks, i, LeftOf(lv));
    }
  }

  /** A token that starts neither an atom nor a prefix form is refused at every level. */
  lemma NotAnExpression(toks: seq<Token>, i: int, lv: Level)
    requires 0 <= i <= |toks|
    requires Cur(toks, i).kind !in {Fun, LParen, Integer, String, If, Var, Identifier, For, Not, Add, Sub}
    ensures AtLevel(toks, i, lv) == Err(NotAnAtom(Cur(toks, i)))
  {
    AtomErrorRises(toks, i, lv);
  }

  /** A block holding one expression that runs up to a terminator. */
  lemma BlockOne(toks: seq<Token>, i: int, n: Node, j: int)
    requires 0 <= i <= |toks| && Cur(toks, i).kind !in END_BLOCK
    requires Expr(toks, i) == Ok(Parsed(n, j)) && Cur(toks, j).kind in END_BLOCK
    ensures Block(toks, i) == Ok(Parsed(BlockNode([n]), j))
  {
    assert [] + [n] == [n];
    assert BlockFrom(toks, i, []) == BlockFrom(toks, j, [n]);
    assert BlockFrom(toks, j, [n]) == Ok(Parsed([n], j));
  }

  /** A block holding just a name, up to a terminator. */
  lemma NameBlock(toks: seq<Token>, i: int)
    requires 0 <= i < |toks| && toks[i].kind == Identifier && Cur(toks, i + 1).kind in END_BLOCK
    ensures Block(toks, i) == Ok(Parsed(BlockNode([V(toks[i].contents)]), i + 1))
  {
    NameAt(toks, i, Assignment);
    BlockOne(toks, i, V(toks[i].contents), i + 1);
  }

  /** A program that is one expression running to the end of the input is the block of that expression. */
  lemma WholeProgram(toks: seq<Token>, n: Node)
    requires toks != [] && toks[0].kind !in END_BLOCK && Expr(toks, 0) == Ok(Parsed(n, |toks|))
    ensures Parse(toks) == Ok(BlockNode([n]))
  {
    BlockOne(toks, 0, n, |toks|);
  }

  /** A program that is one atom running to the end of the input, with no prefix operator, is the block of that atom. */
  lemma AtomProgram(toks: seq<Token>, n: Node)
    requires toks != [] && toks[0].kind !in END_BLOCK + {Not, Add, Sub}
    requires AtLevel(toks, 0, Atom) == Ok(Parsed(n, |toks|))
    ensures Parse(toks) == Ok(BlockNode([n]))
  {
    LiftTo(toks, 0, Atom, Assignment, n, |toks|);
    WholeProgram(toks, n);
  }

  // Precedence and associativity, on a handful of token lists.

  /** `a + b * c` is `a + (b * c)`: multiplication binds tighter than addition. */
  lemma MulBindsTighterThanAdd(toks: seq<Token>)
    requires toks == [Id("a"), Sym(Add), Id("b"), Sym(Mul), Id("c")]
    ensures Expr(toks, 0) == Ok(Parsed(Bin(V("a"), Add, Bin(V("b"), Mul, V("c"))), 5))
  {
    NameAt(toks, 0, Multiplication);
    NameAt(toks, 2, Exponent);
    NameAt(toks, 4, Exponent);
    var bc := Bin(V("b"), Mul, V("c"));
    OneOperator(toks, 2, Multiplication, V("b"), 3, V("c"), 5);
    var abc := Bin(V("a"), Add, bc);
    OneOperator(toks, 0, Addition, V("a"), 1, bc, 5);
    LiftTo(toks, 0, Addition, Assignment, abc, 5);
  }

  /** `a <- b <- c` is `(a <- b) <- c`: assignment folds to the left. */
  lemma AssignmentIsLeftAssociative(toks: seq<Token>)
    requires toks == [Id("a"), Sym(Assign), Id("b"), Sym(Assign), Id("c")]
    ensures Expr(toks, 0) == Ok(Parsed(Bin(Bin(V("a"), Assign, V("b")), Assign, V("c")), 5))
  {
    NameAt(toks, 0, Or);
    NameAt(toks, 2, Or);
    NameAt(toks, 4, Or);
    var ab := Bin(V("a"), Assign, V("b"));
    Fold(toks, 0, Assignment, V("a"), 1);
    LoopStep(toks, 1, V("a"), Assignment, V("b"), 3);
    LoopStep(toks, 3, ab, Assignment, V("c"), 5);
    LoopStop(toks, 5, Bin(ab, Assign, V("c")), Assignment);
  }

  /** `a ^ b ^ c` is `a ^ (b ^ c)`: the right operand of `^` is a whole multiplicative expression. */
  lemma PowIsRightAssociative(toks: seq<Token>)
    requires toks == [Id("a"), Sym(Pow), Id("b"), Sym(Pow), Id("c")]
    ensures Expr(toks, 0) == Ok(Parsed(Bin(V("a"), Pow, Bin(V("b"), Pow, V("c"))), 5))
  {
    NameAt(toks, 0, Atom);
    NameAt(toks, 2, Atom);
    NameAt(toks, 4, Multiplication);
    var bc := Bin(V("b"), Pow, V("c"));
    OneOperator(toks, 2, Exponent, V("b"), 3, V("c"), 5);
    LiftTo(toks, 2, Exponent, Multiplication, bc, 5);
    var abc := Bin(V("a"), Pow, bc);
    OneOperator(toks, 0, Exponent, V("a"), 1, bc, 5);
    LiftTo(toks, 0, Exponent, Assignment, abc, 5);
  }

  /** `a ^ b * c` is `a ^ (b * c)`: a product to the right of `^` is its exponent. */
  lemma PowTakesWholeProduct(toks: seq<Token>)
    requires toks == [Id("a"), Sym(Pow), Id("b"), Sym(Mul), Id("c")]
    ensures Expr(toks, 0) == Ok(Parsed(Bin(V("a"), Pow, Bin(V("b"), Mul, V("c"))), 5))
  {
    NameAt(toks, 0, Atom);
    NameAt(toks, 2, Exponent);
    NameAt(toks, 4, Exponent);
    var bc := Bin(V("b"), Mul, V("c"));
    OneOperator(toks, 2, Multiplication, V("b"), 3, V("c"), 5);
    var abc := Bin(V("a"), Pow, bc);
    OneOperator(toks, 0, Exponent, V("a"), 1, bc, 5);
    LiftTo(toks, 0, Exponent, Assignment, abc, 5);
  }

  /** `! a == b` negates the whole comparison `a == b`. */
  lemma NotWrapsComparison(toks: seq<Token>)
    requires toks == [Sym(Not), Id("a"), Sym(EqualsEquals), Id("b")]
    ensures Expr(toks, 0) == Ok(Parsed(NegationNode(Bin(V("a"), EqualsEquals, V("b")), Not), 4))
  {
    NameAt(toks, 1, Addition);
    NameAt(toks, 3, Addition);
    var ab := Bin(V("a"), EqualsEquals, V("b"));
    OneOperator(toks, 1, Comparison, V("a"), 2, V("b"), 4);
    var neg := NegationNode(ab, Not);
    assert AtLevel(toks, 0, Comparison) == Ok(Parsed(neg, 4));
    LiftTo(toks, 0, Comparison, Assignment, neg, 4);
  }

  /** `- a * b` negates the whole product `a * b`. */
  lemma MinusWrapsProduct(toks: seq<Token>)
    requires toks == [Sym(Sub), Id("a"), Sym(Mul), Id("b")]
    ensures Expr(toks, 0) == Ok(Parsed(NegationNode(Bin(V("a"), Mul, V("b")), Sub), 4))
  {
    NameAt(toks, 1, Exponent);
    NameAt(toks, 3, Exponent);
    var ab := Bin(V("a"), Mul, V("b"));
    OneOperator(toks, 1, Multiplication, V("a"), 2, V("b"), 4);
    var neg := NegationNode(ab, Sub);
    assert AtLevel(toks, 0, Multiplication) == Ok(Parsed(neg, 4));
    LiftTo(toks, 0, Multiplication, Assignment, neg, 4);
  }

  // The quirks of the statement forms.

  /** `for a do b`, with no `end`, is a whole program: the body's terminator is taken unchecked, and at the end there is none. */
  lemma ForNeedsNoEnd(toks: seq<Token>)
    requires toks == [Sym(For), Id("a"), Sym(Do), Id("b")]
    ensures Parse(toks) == Ok(BlockNode([ForNode(BlockNode([V("a")]), BlockNode([V("b")]))]))
  {
    ForWithoutEnd(toks);
    assert AtLevel(toks, 0, Atom) == ForLoop(toks, 0);
    AtomProgram(toks, ForNode(BlockNode([V("a")]), BlockNode([V("b")])));
  }

  /** The loop of `for a do b` ends with the input, its missing terminator taken as read. */
  lemma ForWithoutEnd(toks: seq<Token>)
    requires toks == [Sym(For), Id("a"), Sym(Do), Id("b")]
    ensures ForLoop(toks, 0) == Ok(Parsed(ForNode(BlockNode([V("a")]), BlockNode([V("b")])), 4))
  {
    NameBlock(toks, 1);
    NameBlock(toks, 3);
  }

  /** `for a do b else` parses the loop and swallows the `else` as its terminator. */
  lemma ForTakesAnyTerminator(toks: seq<Token>)
    requires toks == [Sym(For), Id("a"), Sym(Do), Id("b"), Sym(Else)]
    ensures ForLoop(toks, 0) == Ok(Parsed(ForNode(BlockNode([V("a")]), BlockNode([V("b")])), 5))
  {
    NameBlock(toks, 1);
    NameBlock(toks, 3);
  }

  /** A block skips one Newline after an expression, not two: a second one is not an atom. */
  lemma DoubledNewlineRejected(toks: seq<Token>)
    requires toks == [Id("a"), Sym(Newline), Sym(Newline)]
    ensures Block(toks, 0) == Err(NotAnAtom(Sym(Newline)))
  {
    NameAt(toks, 0, Assignment);
    NotAnExpression(toks, 2, Assignment);
    assert [] + [V("a")] == [V("a")];
    assert BlockFrom(toks, 0, []) == BlockFrom(toks, 2, [V("a")]);
    assert BlockFrom(toks, 2, [V("a")]) == Err(NotAnAtom(Sym(Newline)));
  }

  /** `if` name `then` name, up to a terminator: one arm whose condition and block are those names. */
  lemma NameBranch(toks: seq<Token>, i: int)
    requires 0 <= i && i + 3 < |toks| && toks[i].kind == If && toks[i + 1].kind == Identifier
    requires toks[i + 2].kind == Then && toks[i + 3].kind == Identifier && Cur(toks, i + 4).kind in END_BLOCK
    ensures IfBranch(toks, i) == Ok(Parsed(Branch(V(toks[i + 1].contents), BlockNode([V(toks[i + 3].contents)])), i + 4))
  {
    NameAt(toks, i + 1, Assignment);
    NameBlock(toks, i + 3);
    BranchOf(toks, i, V(toks[i + 1].contents), i + 2, BlockNode([V(toks[i + 3].contents)]), i + 4);
  }

  /** An arm is its condition, `then`, and its block (here with no Newline between). */
  lemma BranchOf(toks: seq<Token>, i: int, cond: Node, j: int, body: Node, k: int)
    requires 0 <= i < j < |toks| && toks[i].kind == If && toks[j].kind == Then && Cur(toks, j + 1).kind != Newline
    requires Expr(toks, i + 1) == Ok(Parsed(cond, j)) && Block(toks, j + 1) == Ok(Parsed(body, k))
    ensures IfBranch(toks, i) == Ok(Parsed(Branch(cond, body), k))
  {
  }

  /** `else` name, up to a terminator: the chain of arms ends with that name's block as the otherwise part. */
  lemma NameElse(toks: seq<Token>, j: int, branches: seq<Branch>)
    requires 0 <= j && j + 1 < |toks| && toks[j].kind == Else && toks[j + 1].kind == Identifier
    requires Cur(toks, j + 2).kind in END_BLOCK
    ensures ElseArms(toks, j, branches) == Ok(Parsed((branches, Some(BlockNode([V(toks[j + 1].contents)]))), j + 2))
  {
    NameBlock(toks, j + 1);
  }

  /** `if a then b else c end`: one conditional arm, an `else` block, and the closing `end`. */
  lemma IfElseShape(toks: seq<Token>)
    requires toks == [Sym(If), Id("a"), Sym(Then), Id("b"), Sym(Else), Id("c"), Sym(End)]
    ensures IfStatement(toks, 0) == Ok(Parsed(IfNode([Branch(V("a"), BlockNode([V("b")]))], Some(BlockNode([V("c")]))), 7))
  {
    NameBranch(toks, 0);
    NameElse(toks, 4, [Branch(V("a"), BlockNode([V("b")]))]);
  }

  /** A program must end at EndOfFile: a stray `end` at the top level is refused. */
  lemma StrayEndRejected(toks: seq<Token>)
    requires toks == [Id("a"), Sym(End)]
    ensures Parse(toks) == Err(Expected(EndOfFile, Sym(End)))
  {
    NameAt(toks, 0, Assignment);
    BlockOne(toks, 0, V("a"), 1);
  }

  /** A name followed by `(` is a call; its comma-separated arguments are collected in order. */
  lemma CallShape(toks: seq<Token>)
    requires toks == [Id("f"), Sym(LParen), Id("x"), Sym(Comma), Id("y"), Sym(RParen)]
    ensures AtomAt(toks, 0) == Ok(Parsed(FunctionCallNode("f", [V("x"), V("y")]), 6))
  {
    NameAt(toks, 2, Assignment);
    NameAt(toks, 4, Assignment);
    assert CallArgs(toks, 5, [V("x"), V("y")]) == Ok(Parsed([V("x"), V("y")], 5));
    assert [V("x")] + [V("y")] == [V("x"), V("y")];
    assert CallArgs(toks, 3, [V("x")]) == Ok(Parsed([V("x"), V("y")], 5));
    CallOf(toks, 0, V("x"), 3, [V("x"), V("y")], 5);
  }

  /** A name, `(`, a first argument, the further ones, and `)`: a call with those arguments. */
  lemma CallOf(toks: seq<Token>, i: int, first: Node, j: int, args: seq<Node>, k: int)
    requires 0 <= i && i + 2 < |toks| && toks[i].kind == Identifier && toks[i + 1].kind == LParen
    requires toks[i + 2].kind != RParen && Expr(toks, i + 2) == Ok(Parsed(first, j))
    requires CallArgs(toks, j, [first]) == Ok(Parsed(args, k)) && Cur(toks, k).kind == RParen
    ensures AtomAt(toks, i) == Ok(Parsed(FunctionCallNode(toks[i].contents, args), k + 1))
  {
  }

  /** An integer literal reads back as the `int` whose `Integer.toString` text it is. */
  lemma IntegerLiteralRoundTrip(toks: seq<Token>, i: int, n: JavaLang.int32)
    requires 0 <= i < |toks| && toks[i].kind == Integer && toks[i].contents == JavaLang.DecimalText(n)
    ensures AtomAt(toks, i) == Ok(Parsed(IntegerNode(n), i + 1))
  {
    JavaLang.ParseIntOfDecimalText(n);
  }

  /** An integer literal outside the `int` range is refused, with a number-format error, as a whole expression. */
  lemma IntegerLiteralOutOfRange(toks: seq<Token>, i: int)
    requires 0 <= i < |toks| && toks[i].kind == Integer && JavaLang.ParseInt(toks[i].contents).None?
    ensures Expr(toks, i) == Err(NumberFormat(toks[i].contents))
  {
    AtomErrorRises(toks, i, Assignment);
  }
}
