/**
 * The recursive-descent parser: a cursor over the token list that every
 * parse method moves on. Each method is proved to agree with the grammar
 * function of the same name: on success it returns that function's node and
 * leaves the cursor at that function's next index; on failure it returns
 * that function's error.
 */
module Parser {
  import opened Wrappers
  import opened Lexer
  import opened Ast
  import G = Grammar

  /** The parser's state: the tokens and the index of the current one. */
  class State {
    const toks: seq<Token>
    var index: int

    constructor (toks: seq<Token>)
      ensures this.toks == toks && index == 0
    {
      this.toks := toks;
      index := 0;
    }

    /** The current token, EOF past the end. */
    function Cur(): Token
      reads this
      requires 0 <= index
    {
      G.Cur(toks, index)
    }

    /** Moves to the next token, except at the end. */
    method Adv()
      requires 0 <= index <= |toks|
      modifies this
      ensures index == G.Next(toks, old(index))
    {
      if index >= |toks| {
        return;
      }
      index := index + 1;
    }
  }

  /** A method's result and final cursor agree with a grammar function's result. */
  predicate Agrees<T(==)>(r: Result<T, G.ParseError>, spec: Result<G.Parsed<T>, G.ParseError>, index: int) {
    match spec
    case Ok(p) => r == Ok(p.node) && index == p.next
    case Err(e) => r == Err(e)
  }

  /** Parses a whole program: a block followed by EndOfFile. */
  method Parse(toks: seq<Token>) returns (r: Result<Node, G.ParseError>)
    ensures r == G.Parse(toks)
  {
    var s := new State(toks);
    var program :- Block(s);
    var _ :- G.Expect(s.toks, s.index, EndOfFile);
    return Ok(program);
  }

  method Block(s: State) returns (r: Result<Node, G.ParseError>)
    requires 0 <= s.index <= |s.toks|
    modifies s
    decreases |s.toks| - s.index, 2 * G.Depth(G.Assignment) + 6
    ensures Agrees(r, G.Block(s.toks, old(s.index)), s.index)
  {
    var exprs: seq<Node> := [];
    while s.Cur().kind !in G.END_BLOCK
      invariant old(s.index) <= s.index <= |s.toks|
      invariant G.BlockFrom(s.toks, s.index, exprs) == G.BlockFrom(s.toks, old(s.index), [])
      decreases |s.toks| - s.index
    {
      var expr :- Expr(s);
      exprs := exprs + [expr];
      if s.Cur().kind == Newline {
        s.Adv();
      }
    }
    return Ok(BlockNode(exprs));
  }

  method Expr(s: State) returns (r: Result<Node, G.ParseError>)
    requires 0 <= s.index <= |s.toks|
    modifies s
    decreases |s.toks| - s.index, 2 * G.Depth(G.Assignment) + 4
    ensures Agrees(r, G.Expr(s.toks, old(s.index)), s.index)
  {
    r := AtLevel(s, G.Assignment);
  }

  /** One precedence level: assignment, `||`, `&&`, comparison, addition, multiplication, exponent, or an atom. */
  method AtLevel(s: State, lv: G.Level) returns (r: Result<Node, G.ParseError>)
    requires 0 <= s.index <= |s.toks|
    modifies s
    decreases |s.toks| - s.index, 2 * G.Depth(lv) + 3
    ensures Agrees(r, G.AtLevel(s.toks, old(s.index), lv), s.index)
  {
    if lv == G.Atom {
      r := Atom(s);
    } else if lv == G.Comparison && s.Cur().kind == Not {
      s.Adv();
      var acting :- AtLevel(s, G.Comparison);
      r := Ok(NegationNode(acting, Not));
    } else if lv == G.Multiplication && s.Cur().kind in {Add, Sub} {
      var op := s.Cur().kind;
      s.Adv();
      var acting :- AtLevel(s, G.Multiplication);
      r := Ok(NegationNode(acting, op));
    } else {
      r := Maths(s, lv);
    }
  }

  /** The generic left-nested fold of one level's operators. */
  method Maths(s: State, lv: G.Level) returns (r: Result<Node, G.ParseError>)
    requires 0 <= s.index <= |s.toks| && lv != G.Atom
    modifies s
    decreases |s.toks| - s.index, 2 * G.Depth(lv) + 2
    ensures Agrees(r, G.Maths(s.toks, old(s.index), lv), s.index)
  {
    var leftExpr :- AtLevel(s, G.LeftOf(lv));
    while s.Cur().kind in G.Ops(lv)
      invariant old(s.index) < s.index <= |s.toks|
      invariant G.MathsLoop(s.toks, s.index, leftExpr, lv) == G.Maths(s.toks, old(s.index), lv)
      decreases |s.toks| - s.index
    {
      var op := s.Cur().kind;
      s.Adv();
      var rightExpr :- AtLevel(s, G.RightOf(lv));
      leftExpr := MathNode(leftExpr, rightExpr, op);
    }
    return Ok(leftExpr);
  }

  method Atom(s: State) returns (r: Result<Node, G.ParseError>)
    requires 0 <= s.index <= |s.toks|
    modifies s
    decreases |s.toks| - s.index, 2
    ensures Agrees(r, G.AtomAt(s.toks, old(s.index)), s.index)
  {
    var t := s.Cur();
    if t.kind == Fun {
      r := FunctionDeclaration(s);
    } else if t.kind == LParen {
      s.Adv();
      var expr :- Expr(s);
      var _ :- G.Expect(s.toks, s.index, RParen);
      s.Adv();
      r := Ok(expr);
    } else if t.kind == Integer {
      match JavaLang.ParseInt(t.contents)
      case Some(n) =>
        s.Adv();
        r := Ok(IntegerNode(n));
      case None =>
        r := Err(G.NumberFormat(t.contents));
    } else if t.kind == String {
      s.Adv();
      r := Ok(StringNode(t.contents));
    } else if t.kind == If {
      r := IfStatement(s);
    } else if t.kind == Var {
      r := VariableDeclaration(s);
    } else if t.kind == Identifier {
      s.Adv();
      if s.Cur().kind == LParen {
        s.Adv();
        var args: seq<Node> := [];
        if s.Cur().kind != RParen {
          var first :- Expr(s);
          args := [first];
          ghost var j := s.index;
          while s.Cur().kind == Comma
            invariant old(s.index) < s.index <= |s.toks|
            invariant G.CallArgs(s.toks, s.index, args) == G.CallArgs(s.toks, j, [first])
            decreases |s.toks| - s.index
          {
            s.Adv();
            var arg :- Expr(s);
            args := args + [arg];
          }
        }
        var _ :- G.Expect(s.toks, s.index, RParen);
        s.Adv();
        r := Ok(FunctionCallNode(t.contents, args));
      } else {
        r := Ok(VariableAccessNode(t.contents));
      }
    } else if t.kind == For {
      r := ForLoop(s);
    } else {
      r := Err(G.NotAnAtom(t));
    }
  }

  /** `for` block `do` [Newline] block, then one token more, unchecked. */
  method ForLoop(s: State) returns (r: Result<Node, G.ParseError>)
    requires 0 <= s.index <= |s.toks|
    modifies s
    decreases |s.toks| - s.index, 1
    ensures Agrees(r, G.ForLoop(s.toks, old(s.index)), s.index)
  {
    var _ :- G.Expect(s.toks, s.index, For);
    s.Adv();
    var condition :- Block(s);
    var _ :- G.Expect(s.toks, s.index, Do);
    s.Adv();
    if s.Cur().kind == Newline {
      s.Adv();
    }
    var body :- Block(s);
    s.Adv();
    return Ok(ForNode(condition, body));
  }

  /** `var` name `:` type `<-` expression. */
  method VariableDeclaration(s: State) returns (r: Result<Node, G.ParseError>)
    requires 0 <= s.index <= |s.toks|
    modifies s
    decreases |s.toks| - s.index, 1
    ensures Agrees(r, G.VariableDeclaration(s.toks, old(s.index)), s.index)
  {
    var _ :- G.Expect(s.toks, s.index, Var);
    s.Adv();
    var _ :- G.Expect(s.toks, s.index, Identifier);
    var id := s.Cur().contents;
    s.Adv();
    var _ :- G.Expect(s.toks, s.index, Colon);
    s.Adv();
    var _ :- G.Expect(s.toks, s.index, Identifier);
    var typeName := s.Cur().contents;
    s.Adv();
    var _ :- G.Expect(s.toks, s.index, Assign);
    s.Adv();
    var value :- Expr(s);
    return Ok(VariableDeclarationNode(id, typeName, value));
  }

  /** `if` condition `then` [Newline] block. */
  method IfBranch(s: State) returns (r: Result<Branch, G.ParseError>)
    requires 0 <= s.index <= |s.toks|
    modifies s
    decreases |s.toks| - s.index, 0
    ensures Agrees(r, G.IfBranch(s.toks, old(s.index)), s.index)
  {
    var _ :- G.Expect(s.toks, s.index, If);
    s.Adv();
    var cond :- Expr(s);
    var _ :- G.Expect(s.toks, s.index, Then);
    s.Adv();
    if s.Cur().kind == Newline {
      s.Adv();
    }
    var body :- Block(s);
    return Ok(Branch(cond, body));
  }

  /** The first arm, `else if` arms, an optional `else` block, and `end`. */
  method IfStatement(s: State) returns (r: Result<Node, G.ParseError>)
    requires 0 <= s.index <= |s.toks|
    modifies s
    decreases |s.toks| - s.index, 1
    ensures Agrees(r, G.IfStatement(s.toks, old(s.index)), s.index)
  {
    var first :- IfBranch(s);
    var branches := [first];
    var otherwise: Option<Node> := None;
    ghost var j := s.index;
    while s.Cur().kind == Else
      invariant old(s.index) < s.index <= |s.toks|
      invariant otherwise.None?
      invariant G.ElseArms(s.toks, s.index, branches) == G.ElseArms(s.toks, j, [first])
      decreases |s.toks| - s.index
    {
      s.Adv();
      if s.Cur().kind == If {
        var branch :- IfBranch(s);
        branches := branches + [branch];
      } else {
        if s.Cur().kind == Newline {
          s.Adv();
        }
        var block :- Block(s);
        otherwise := Some(block);
        break;
      }
    }
    var _ :- G.Expect(s.toks, s.index, End);
    s.Adv();
    return Ok(IfNode(branches, otherwise));
  }

  /** A parameter: name `:` type. */
  method Argument(s: State) returns (r: Result<Ast.Argument, G.ParseError>)
    requires 0 <= s.index <= |s.toks|
    modifies s
    ensures Agrees(r, G.ArgumentAt(s.toks, old(s.index)), s.index)
  {
    var _ :- G.Expect(s.toks, s.index, Identifier);
    var argId := s.Cur().contents;
    s.Adv();
    var _ :- G.Expect(s.toks, s.index, Colon);
    s.Adv();
    var _ :- G.Expect(s.toks, s.index, Identifier);
    var argType := s.Cur().contents;
    s.Adv();
    return Ok(Ast.Argument(argId, argType));
  }

  /** `fun` name `(` parameters `)` [Newline] block `end`. */
  method FunctionDeclaration(s: State) returns (r: Result<Node, G.ParseError>)
    requires 0 <= s.index <= |s.toks|
    modifies s
    decreases |s.toks| - s.index, 1
    ensures Agrees(r, G.FunctionDeclaration(s.toks, old(s.index)), s.index)
  {
    var _ :- G.Expect(s.toks, s.index, Fun);
    s.Adv();
    var _ :- G.Expect(s.toks, s.index, Identifier);
    var id := s.Cur().contents;
    s.Adv();
    var _ :- G.Expect(s.toks, s.index, LParen);
    s.Adv();
    var args: seq<Ast.Argument> := [];
    if s.Cur().kind == Identifier {
      var first :- Argument(s);
      args := [first];
      ghost var j := s.index;
      while s.Cur().kind == Comma
        invariant old(s.index) < s.index <= |s.toks|
        invariant G.Params(s.toks, s.index, args) == G.Params(s.toks, j, [first])
        decreases |s.toks| - s.index
      {
        s.Adv();
        var arg :- Argument(s);
        args := args + [arg];
      }
    }
    var _ :- G.Expect(s.toks, s.index, RParen);
    s.Adv();
    if s.Cur().kind == Newline {
      s.Adv();
    }
    var block :- Block(s);
    var _ :- G.Expect(s.toks, s.index, End);
    s.Adv();
    return Ok(FunctionDeclarationNode(id, args, block));
  }
}
