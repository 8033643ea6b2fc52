/**
 * The tree-walking evaluator: one method per node kind, dispatched by
 * `Interpret`. Evaluation threads a symbol table; blocks, loops and calls
 * open fresh child tables; integers and strings are cells that `<-`
 * overwrites in place. A program need not terminate, so every evaluator
 * carries a fuel bound and reports `OutOfFuel` when it runs out.
 *
 * Each evaluator is proved to compute the function of module `Semantics`
 * of the same name: the heap before it is the store `st` under a
 * numbering `U` of the tables and cells, and the heap after it is the
 * store that function gives, under a numbering that extends `U` by new
 * objects only, with the result agreeing with the function's result.
 */
module Interpreter {
  import opened Wrappers
  import JavaLang
  import Lexer
  import opened Ast
  import opened Values
  import opened Machine
  import opened Scope
  import opened Calls
  import S = Semantics

  /** A list of values agrees with a list of values of the store, position by position. */
  ghost predicate ArgsRel(U: Universe, vs: seq<Value>, avs: seq<AValue>) {
    |vs| == |avs| && forall j :: 0 <= j < |vs| ==> Rel(U, vs[j], avs[j])
  }

  /**
   * `interpret`: runs the evaluator of the node's kind, with one unit of
   * fuel spent; the simple kinds are dispatched by `InterpretSimple`.
   */
  method Interpret(ctx: SymbolTable, node: Node, out: Console, fuel: nat, ghost U: Universe, ghost st: Store, ghost ti: nat)
    returns (r: Result<Value, RuntimeError>, ghost U2: Universe)
    requires Holds(U, st, out) && ti < |U.tabs| && U.tabs[ti] == ctx
    modifies U.tabs, U.ints, U.strs, out
    ensures Grown(U, U2) && Holds(U2, S.Eval(st, ti, node, fuel).st, out)
    ensures Refines(U2, r, S.Eval(st, ti, node, fuel).res)
    decreases fuel, 1
  {
    if fuel == 0 {
      return Err(OutOfFuel), U;
    }
    if S.IsSimple(node) {
      assert S.Eval(st, ti, node, fuel) == S.Simple(st, ti, node, fuel - 1);
      r, U2 := InterpretSimple(ctx, node, out, fuel - 1, U, st, ti);
    } else if node.BlockNode? || node.IfNode? || node.ForNode? {
      r, U2 := InterpretControl(ctx, node, out, fuel, U, st, ti);
    } else {
      r, U2 := InterpretCompound(ctx, node, out, fuel, U, st, ti);
    }
  }

  /** Calls and binary operators, with one unit of fuel spent. */
  method InterpretCompound(ctx: SymbolTable, node: Node, out: Console, fuel: nat, ghost U: Universe, ghost st: Store, ghost ti: nat)
    returns (r: Result<Value, RuntimeError>, ghost U2: Universe)
    requires fuel > 0 && (node.FunctionCallNode? || node.MathNode?)
    requires Holds(U, st, out) && ti < |U.tabs| && U.tabs[ti] == ctx
    modifies U.tabs, U.ints, U.strs, out
    ensures Grown(U, U2) && Holds(U2, S.Eval(st, ti, node, fuel).st, out)
    ensures Refines(U2, r, S.Eval(st, ti, node, fuel).res)
    decreases fuel, 0
  {
    if node.FunctionCallNode? {
      assert S.Eval(st, ti, node, fuel) == S.CallNode(st, ti, node, fuel - 1);
      r, U2 := EvalFunctionCall(ctx, node, out, fuel - 1, U, st, ti);
    } else {
      assert S.Eval(st, ti, node, fuel) == S.Maths(st, ti, node, fuel - 1);
      r, U2 := EvalMaths(ctx, node, out, fuel - 1, U, st, ti);
    }
  }

  /** Blocks, conditionals and loops, with one unit of fuel spent. */
  method InterpretControl(ctx: SymbolTable, node: Node, out: Console, fuel: nat, ghost U: Universe, ghost st: Store, ghost ti: nat)
    returns (r: Result<Value, RuntimeError>, ghost U2: Universe)
    requires fuel > 0 && (node.BlockNode? || node.IfNode? || node.ForNode?)
    requires Holds(U, st, out) && ti < |U.tabs| && U.tabs[ti] == ctx
    modifies U.tabs, U.ints, U.strs, out
    ensures Grown(U, U2) && Holds(U2, S.Eval(st, ti, node, fuel).st, out)
    ensures Refines(U2, r, S.Eval(st, ti, node, fuel).res)
    decreases fuel, 0
  {
    if node.BlockNode? {
      assert S.Eval(st, ti, node, fuel) == S.Block(st, ti, node, fuel - 1);
      r, U2 := EvalBlock(ctx, node, out, fuel - 1, U, st, ti);
    } else if node.IfNode? {
      assert S.Eval(st, ti, node, fuel) == S.IfFrom(st, ti, node.conditions, node.otherwise, 0, fuel - 1);
      r, U2 := EvalIf(ctx, node, out, fuel - 1, U, st, ti);
    } else {
      assert S.Eval(st, ti, node, fuel) == S.Loop(Open(st, ti, map[]), |st.tables|, node.condition, node.body, fuel - 1, fuel - 1);
      r, U2 := EvalFor(ctx, node, out, fuel - 1, U, st, ti);
    }
  }

  /** The simple kinds: literals, names, declarations and prefix operators. */
  method InterpretSimple(ctx: SymbolTable, node: Node, out: Console, fuel: nat, ghost U: Universe, ghost st: Store, ghost ti: nat)
    returns (r: Result<Value, RuntimeError>, ghost U2: Universe)
    requires S.IsSimple(node)
    requires Holds(U, st, out) && ti < |U.tabs| && U.tabs[ti] == ctx
    modifies U.tabs, U.ints, U.strs, out
    ensures Grown(U, U2) && Holds(U2, S.Simple(st, ti, node, fuel).st, out)
    ensures Refines(U2, r, S.Simple(st, ti, node, fuel).res)
    decreases fuel, 4
  {
    match node {
      case IntegerNode(n) =>
        var v;
        v, U2 := EvalInteger(n, out, U, st);
        r := Ok(v);
      case StringNode(s) =>
        var v;
        v, U2 := EvalString(s, out, U, st);
        r := Ok(v);
      case VariableDeclarationNode(_, _, _) =>
        r, U2 := EvalVariableDeclaration(ctx, node, out, fuel, U, st, ti);
      case VariableAccessNode(id) =>
        r := EvalVariableAccess(ctx, id, out, U, st, ti);
        U2 := U;
      case FunctionDeclarationNode(_, _, _) =>
        r := EvalFunctionDeclaration(ctx, node, out, U, st, ti);
        U2 := U;
      case NegationNode(acting, op) =>
        r, U2 := EvalNegation(acting, op, out, U, st);
    }
  }

  /** `integer`: a new cell holding the literal. */
  method EvalInteger(n: JavaLang.int32, out: Console, ghost U: Universe, ghost st: Store) returns (v: Value, ghost U2: Universe)
    requires Holds(U, st, out)
    ensures v.Int? && fresh(v.icell) && v.icell.value == n
    ensures Grown(U, U2) && Holds(U2, AllocInt(st, n).st, out)
    ensures Refines(U2, Ok(v), AllocInt(st, n).res)
  {
    var c := new IntegerValue(n);
    HoldsNewInt(U, st, out, c, n);
    return Int(c), U.(ints := U.ints + [c]);
  }

  /** `string`: a new cell holding the literal. */
  method EvalString(s: string, out: Console, ghost U: Universe, ghost st: Store) returns (v: Value, ghost U2: Universe)
    requires Holds(U, st, out)
    ensures v.Str? && fresh(v.scell) && v.scell.value == s
    ensures Grown(U, U2) && Holds(U2, AllocStr(st, s).st, out)
    ensures Refines(U2, Ok(v), AllocStr(st, s).res)
  {
    var c := new StringValue(s);
    HoldsNewStr(U, st, out, c, s);
    return Str(c), U.(strs := U.strs + [c]);
  }

  /** `variableAccess`: what the name resolves to, the same value and so the same cell. */
  method EvalVariableAccess(ctx: SymbolTable, id: string, out: Console, ghost U: Universe, ghost st: Store, ghost ti: nat)
    returns (r: Result<Value, RuntimeError>)
    requires Holds(U, st, out) && ti < |U.tabs| && U.tabs[ti] == ctx
    modifies U.tabs
    ensures r == if old(ctx.Lookup(id)).Some? then Ok(old(ctx.Lookup(id)).value) else Err(Unresolved(id))
    ensures Holds(U, Fetch(st, ti, id).st, out) && Refines(U, r, Fetch(st, ti, id).res)
  {
    ChainNumbered(U, st, ti);
    r := ctx.TrackedGet(id, U, st, ti);
    ShapeKept(U, st, Fetch(st, ti, id).st);
  }

  /** `add` in table `ti`: the binding the store's `Bind` makes. */
  method AddTracked(ctx: SymbolTable, id: string, v: Value, out: Console, ghost U: Universe, ghost st: Store, ghost ti: nat, ghost a: AValue)
    requires Holds(U, st, out) && ti < |U.tabs| && U.tabs[ti] == ctx && Rel(U, v, a)
    modifies ctx
    ensures ctx.values == old(ctx.values)[id := v]
    ensures Holds(U, Bind(st, ti, id, a), out)
  {
    ghost var st2 := Bind(st, ti, id, a);
    ctx.Add(id, v);
    forall i | 0 <= i < |U.tabs|
      ensures MapRel(U, U.tabs[i].values, st2.tables[i].vals)
    {
      if i == ti {
        MapRelBind(U, old(ctx.values), st.tables[ti].vals, id, v, a);
      } else {
        DistinctAt(U.tabs, i, ti);
        assert old(MapRel(U, U.tabs[i].values, st.tables[i].vals));
      }
    }
  }

  /** `functionDeclaration`: binds the function under its overload key in the current table. */
  method EvalFunctionDeclaration(ctx: SymbolTable, node: Node, out: Console, ghost U: Universe, ghost st: Store, ghost ti: nat)
    returns (r: Result<Value, RuntimeError>)
    requires node.FunctionDeclarationNode?
    requires Holds(U, st, out) && ti < |U.tabs| && U.tabs[ti] == ctx
    modifies ctx
    ensures Holds(U, S.DeclareFunction(st, ti, node).st, out) && Refines(U, r, S.DeclareFunction(st, ti, node).res)
  {
    var f :- FunctionOf(node);
    AddTracked(ctx, f.id, f, out, U, st, ti, AFunction(f.id, f.params, f.todo));
    return Ok(Void);
  }

  /**
   * `variableDeclaration`: binds the name in the current table to the
   * initialiser's value, the very value and so the same cell. The declared
   * type name plays no part.
   */
  method EvalVariableDeclaration(ctx: SymbolTable, node: Node, out: Console, fuel: nat, ghost U: Universe, ghost st: Store, ghost ti: nat)
    returns (r: Result<Value, RuntimeError>, ghost U2: Universe)
    requires node.VariableDeclarationNode?
    requires Holds(U, st, out) && ti < |U.tabs| && U.tabs[ti] == ctx
    modifies U.tabs, U.ints, U.strs, out
    ensures Grown(U, U2) && Holds(U2, S.Declare(st, ti, node, fuel).st, out)
    ensures Refines(U2, r, S.Declare(st, ti, node, fuel).res)
    decreases fuel, 3
  {
    var value;
    value, U2 := Interpret(ctx, node.init, out, fuel, U, st, ti);
    if value.Err? {
      return value, U2;
    }
    ghost var init := S.Eval(st, ti, node.init, fuel);
    AddTracked(ctx, node.id, value.value, out, U2, init.st, ti, init.res.value);
    r := Ok(Void);
  }

  /**
   * `negation`: the operand node is taken as an integer literal, without
   * being evaluated, and the operator applied to it gives a new cell.
   */
  method EvalNegation(acting: Node, op: Lexer.TokenType, out: Console, ghost U: Universe, ghost st: Store)
    returns (r: Result<Value, RuntimeError>, ghost U2: Universe)
    requires Holds(U, st, out)
    ensures Grown(U, U2) && Holds(U2, S.Negate(st, acting, op).st, out)
    ensures Refines(U2, r, S.Negate(st, acting, op).res)
  {
    U2 := U;
    var n :- Negation(acting, op);
    var v;
    v, U2 := EvalInteger(n, out, U, st);
    r := Ok(v);
  }

  /**
   * `maths`: evaluates the left operand, then the right one, then applies
   * the operator to the payloads both hold at that point (so a right
   * operand that assigns to the left operand's cell is seen).
   */
  method EvalMaths(ctx: SymbolTable, node: Node, out: Console, fuel: nat, ghost U: Universe, ghost st: Store, ghost ti: nat)
    returns (r: Result<Value, RuntimeError>, ghost U2: Universe)
    requires node.MathNode?
    requires Holds(U, st, out) && ti < |U.tabs| && U.tabs[ti] == ctx
    modifies U.tabs, U.ints, U.strs, out
    ensures Grown(U, U2) && Holds(U2, S.Maths(st, ti, node, fuel).st, out)
    ensures Refines(U2, r, S.Maths(st, ti, node, fuel).res)
    decreases fuel, 3
  {
    var operands;
    operands, U2 := EvalOperands(ctx, node.left, node.right, out, fuel, U, st, ti);
    if operands.Err? {
      return Err(operands.error), U2;
    }
    var (left, right) := operands.value;
    ghost var p := S.Operands(st, ti, node.left, node.right, fuel);
    r, U2 := ApplyOperator(node.operation, left, right, out, U2, p.st, p.res.value.0, p.res.value.1);
  }

  /** The operator applied to two evaluated operands: what `Apply` does in the store. */
  method ApplyOperator(op: Lexer.TokenType, left: Value, right: Value, out: Console,
                       ghost U: Universe, ghost st: Store, ghost a: AValue, ghost b: AValue)
    returns (r: Result<Value, RuntimeError>, ghost U2: Universe)
    requires Holds(U, st, out) && Rel(U, left, a) && Rel(U, right, b)
    modifies U.ints, U.strs
    ensures Grown(U, U2) && Holds(U2, S.Apply(st, op, a, b).st, out)
    ensures Refines(U2, r, S.Apply(st, op, a, b).res)
  {
    SnapRead(U, st, left, a);
    SnapRead(U, st, right, b);
    if Binary(op, Snap(left), Snap(right)) == Ok(Assigned) {
      r := AssignOperator(op, left, right, out, U, st, a, b);
      return r, U;
    }
    r := ApplyBinary(op, left, right);
    match Binary(op, Read(st, a), Read(st, b))
    case Err(_) =>
      U2 := U;
    case Ok(NewInt(i)) =>
      HoldsNewInt(U, st, out, r.value.icell, i);
      U2 := U.(ints := U.ints + [r.value.icell]);
    case Ok(NewStr(s)) =>
      HoldsNewStr(U, st, out, r.value.scell, s);
      U2 := U.(strs := U.strs + [r.value.scell]);
  }

  /** `<-`: the left value's cell takes the right value's payload; no cell is made. */
  method AssignOperator(op: Lexer.TokenType, left: Value, right: Value, out: Console,
                        ghost U: Universe, ghost st: Store, ghost a: AValue, ghost b: AValue)
    returns (r: Result<Value, RuntimeError>)
    requires Holds(U, st, out) && Rel(U, left, a) && Rel(U, right, b)
    requires Binary(op, Read(st, a), Read(st, b)) == Ok(Assigned)
    modifies U.ints, U.strs
    ensures Holds(U, S.Apply(st, op, a, b).st, out) && Refines(U, r, S.Apply(st, op, a, b).res)
  {
    SnapRead(U, st, left, a);
    SnapRead(U, st, right, b);
    r := ApplyBinary(op, left, right);
    AssignedSameType(op, Read(st, a), Read(st, b));
    ghost var st2 := S.Assign(st, a, b);
    forall k | 0 <= k < |U.ints|
      ensures U.ints[k].value == st2.ints[k]
    {
      if left.Int? && k != a.ic {
        DistinctAt(U.ints, k, a.ic);
      }
    }
    forall k | 0 <= k < |U.strs|
      ensures U.strs[k].value == st2.strs[k]
    {
      if left.Str? && k != a.sc {
        DistinctAt(U.strs, k, a.sc);
      }
    }
  }

  /** Results of evaluating two operands agree: the same error, or two agreeing values. */
  ghost predicate PairRefines(U: Universe, r: Result<(Value, Value), RuntimeError>, s: Result<(AValue, AValue), RuntimeError>) {
    match r
    case Ok(p) => s.Ok? && Rel(U, p.0, s.value.0) && Rel(U, p.1, s.value.1)
    case Err(e) => s == Err(e)
  }

  /** The two operands of a `Maths` node, left first; the first failure stops. */
  method EvalOperands(ctx: SymbolTable, left: Node, right: Node, out: Console, fuel: nat, ghost U: Universe, ghost st: Store, ghost ti: nat)
    returns (r: Result<(Value, Value), RuntimeError>, ghost U2: Universe)
    requires Holds(U, st, out) && ti < |U.tabs| && U.tabs[ti] == ctx
    modifies U.tabs, U.ints, U.strs, out
    ensures Grown(U, U2) && Holds(U2, S.Operands(st, ti, left, right, fuel).st, out)
    ensures PairRefines(U2, r, S.Operands(st, ti, left, right, fuel).res)
    decreases fuel, 2
  {
    var lv;
    lv, U2 := Interpret(ctx, left, out, fuel, U, st, ti);
    if lv.Err? {
      return Err(lv.error), U2;
    }
    ghost var U1 := U2;
    ghost var l := S.Eval(st, ti, left, fuel);
    var rv;
    rv, U2 := Interpret(ctx, right, out, fuel, U1, l.st, ti);
    if rv.Err? {
      return Err(rv.error), U2;
    }
    RelGrow(U1, U2, lv.value, l.res.value);
    r := Ok((lv.value, rv.value));
  }

  /** An empty child of the current table, as `block` and `forLoop` make; it is numbered next. */
  method OpenScope(ctx: SymbolTable, out: Console, ghost U: Universe, ghost st: Store, ghost ti: nat)
    returns (symb: SymbolTable, ghost U2: Universe)
    requires Holds(U, st, out) && ti < |U.tabs| && U.tabs[ti] == ctx
    ensures fresh(symb) && U2 == U.(tabs := U.tabs + [symb])
    ensures Grown(U, U2) && Holds(U2, Open(st, ti, map[]), out) && U2.tabs[|st.tables|] == symb
  {
    symb := new SymbolTable(ctx);
    HoldsOpen(U, st, out, symb, ti, map[]);
    U2 := U.(tabs := U.tabs + [symb]);
  }

  /**
   * `block`: evaluates the expressions in order in one fresh child table
   * and gives the last one's value; an empty block is an error.
   */
  method EvalBlock(ctx: SymbolTable, node: Node, out: Console, fuel: nat, ghost U: Universe, ghost st: Store, ghost ti: nat)
    returns (r: Result<Value, RuntimeError>, ghost U2: Universe)
    requires node.BlockNode?
    requires Holds(U, st, out) && ti < |U.tabs| && U.tabs[ti] == ctx
    modifies U.tabs, U.ints, U.strs, out
    ensures Grown(U, U2) && Holds(U2, S.Block(st, ti, node, fuel).st, out)
    ensures Refines(U2, r, S.Block(st, ti, node, fuel).res)
    decreases fuel, 3
  {
    var exprs := node.exprs;
    if exprs == [] {
      return Err(EmptyBlock), U;
    }
    var symb;
    ghost var U1;
    symb, U1 := OpenScope(ctx, out, U, st, ti);
    r, U2 := BlockIn(symb, exprs, out, fuel, U1, Open(st, ti, map[]), |st.tables|);
  }

  /** The expressions of a block, in order, in its table `symb`, numbered `si`. */
  method BlockIn(symb: SymbolTable, exprs: seq<Node>, out: Console, fuel: nat, ghost U: Universe, ghost st: Store, ghost si: nat)
    returns (r: Result<Value, RuntimeError>, ghost U2: Universe)
    requires exprs != []
    requires Holds(U, st, out) && si < |U.tabs| && U.tabs[si] == symb
    modifies U.tabs, U.ints, U.strs, out
    ensures Grown(U, U2) && Holds(U2, S.BlockFrom(st, si, exprs, 0, fuel).st, out)
    ensures Refines(U2, r, S.BlockFrom(st, si, exprs, 0, fuel).res)
    decreases fuel, 2
  {
    ghost var cur := st;
    ghost var goal := S.BlockFrom(st, si, exprs, 0, fuel);
    U2 := U;
    var i := 0;
    while i < |exprs| - 1
      invariant 0 <= i <= |exprs| - 1
      invariant Grown(U, U2) && Holds(U2, cur, out) && si < |U2.tabs| && U2.tabs[si] == symb
      invariant S.BlockFrom(cur, si, exprs, i, fuel) == goal
    {
      var v;
      ghost var U3;
      v, U3 := Interpret(symb, exprs[i], out, fuel, U2, cur, si);
      ghost var e := S.Eval(cur, si, exprs[i], fuel);
      if v.Err? {
        assert goal == e;
        return v, U3;
      }
      assert goal == S.BlockFrom(e.st, si, exprs, i + 1, fuel);
      cur, U2 := e.st, U3;
      i := i + 1;
    }
    assert goal == S.Eval(cur, si, exprs[i], fuel);
    r, U2 := Interpret(symb, exprs[i], out, fuel, U2, cur, si);
  }

  /**
   * `ifStatement`: evaluates the conditions in order in the current table
   * and runs the body of the first truthy one; with none, the `else`
   * block, and with no `else` the void value. A condition without a truth
   * value is an error.
   */
  method EvalIf(ctx: SymbolTable, node: Node, out: Console, fuel: nat, ghost U: Universe, ghost st: Store, ghost ti: nat)
    returns (r: Result<Value, RuntimeError>, ghost U2: Universe)
    requires node.IfNode?
    requires Holds(U, st, out) && ti < |U.tabs| && U.tabs[ti] == ctx
    modifies U.tabs, U.ints, U.strs, out
    ensures Grown(U, U2) && Holds(U2, S.IfFrom(st, ti, node.conditions, node.otherwise, 0, fuel).st, out)
    ensures Refines(U2, r, S.IfFrom(st, ti, node.conditions, node.otherwise, 0, fuel).res)
    decreases fuel, 5
  {
    var conditions := node.conditions;
    ghost var cur := st;
    ghost var goal := S.IfFrom(st, ti, conditions, node.otherwise, 0, fuel);
    U2 := U;
    var i := 0;
    while i < |conditions|
      invariant 0 <= i <= |conditions|
      invariant Grown(U, U2) && Holds(U2, cur, out) && ti < |U2.tabs| && U2.tabs[ti] == ctx
      invariant S.IfFrom(cur, ti, conditions, node.otherwise, i, fuel) == goal
    {
      var taken;
      ghost var U3, next;
      taken, r, U3, next := IfArm(ctx, conditions, node.otherwise, i, out, fuel, U2, cur, ti);
      if taken {
        return r, U3;
      }
      cur, U2 := next, U3;
      i := i + 1;
    }
    match node.otherwise {
      case Some(e) =>
        assert goal == S.Eval(cur, ti, e, fuel);
        r, U2 := Interpret(ctx, e, out, fuel, U2, cur, ti);
      case None =>
        r := Ok(Void);
    }
  }

  /**
   * One arm of `ifStatement`: its condition, and its body when the
   * condition is truthy. When the arm is not taken, the statement goes on
   * from the next arm in the store the condition left.
   */
  method IfArm(ctx: SymbolTable, conditions: seq<Branch>, otherwise: Option<Node>, i: nat, out: Console, fuel: nat,
               ghost U: Universe, ghost st: Store, ghost ti: nat)
    returns (taken: bool, r: Result<Value, RuntimeError>, ghost U2: Universe, ghost next: Store)
    requires i < |conditions|
    requires Holds(U, st, out) && ti < |U.tabs| && U.tabs[ti] == ctx
    modifies U.tabs, U.ints, U.strs, out
    ensures Grown(U, U2)
    ensures taken ==> Holds(U2, S.IfFrom(st, ti, conditions, otherwise, i, fuel).st, out)
    ensures taken ==> Refines(U2, r, S.IfFrom(st, ti, conditions, otherwise, i, fuel).res)
    ensures !taken ==> Holds(U2, next, out) && ti < |U2.tabs| && U2.tabs[ti] == ctx
    ensures !taken ==> S.IfFrom(next, ti, conditions, otherwise, i + 1, fuel) == S.IfFrom(st, ti, conditions, otherwise, i, fuel)
    decreases fuel, 4
  {
    var b;
    b, U2 := EvalCondition(ctx, conditions[i].cond, out, fuel, U, st, ti);
    next := S.Eval(st, ti, conditions[i].cond, fuel).st;
    if b.Err? {
      return true, Err(b.error), U2, next;
    }
    if b.value {
      ghost var U3 := U2;
      r, U2 := Interpret(ctx, conditions[i].body, out, fuel, U3, next, ti);
      return true, r, U2, next;
    }
    return false, Ok(Void), U2, next;
  }

  /** A condition of `ifStatement` or `forLoop`: its value's truth, or the error that stops the statement. */
  method EvalCondition(ctx: SymbolTable, cond: Node, out: Console, fuel: nat, ghost U: Universe, ghost st: Store, ghost ti: nat)
    returns (b: Result<bool, RuntimeError>, ghost U2: Universe)
    requires Holds(U, st, out) && ti < |U.tabs| && U.tabs[ti] == ctx
    modifies U.tabs, U.ints, U.strs, out
    ensures Grown(U, U2) && Holds(U2, S.Eval(st, ti, cond, fuel).st, out)
    ensures var c := S.Eval(st, ti, cond, fuel);
      b == if c.res.Err? then Err(c.res.error) else Truthy(Read(c.st, c.res.value))
    decreases fuel, 3
  {
    var c;
    c, U2 := Interpret(ctx, cond, out, fuel, U, st, ti);
    if c.Err? {
      return Err(c.error), U2;
    }
    ghost var cs := S.Eval(st, ti, cond, fuel);
    SnapRead(U2, cs.st, c.value, cs.res.value);
    b := Truthy(Snap(c.value));
  }

  /**
   * `forLoop`: one fresh child table serves every iteration; the body
   * runs while the condition, evaluated in that table, is truthy, and the
   * loop's value is void. At most `fuel` iterations are run.
   */
  method EvalFor(ctx: SymbolTable, node: Node, out: Console, fuel: nat, ghost U: Universe, ghost st: Store, ghost ti: nat)
    returns (r: Result<Value, RuntimeError>, ghost U2: Universe)
    requires node.ForNode?
    requires Holds(U, st, out) && ti < |U.tabs| && U.tabs[ti] == ctx
    modifies U.tabs, U.ints, U.strs, out
    ensures Grown(U, U2) && Holds(U2, S.Loop(Open(st, ti, map[]), |st.tables|, node.condition, node.body, fuel, fuel).st, out)
    ensures Refines(U2, r, S.Loop(Open(st, ti, map[]), |st.tables|, node.condition, node.body, fuel, fuel).res)
    decreases fuel, 6
  {
    var symb;
    ghost var U1;
    symb, U1 := OpenScope(ctx, out, U, st, ti);
    r, U2 := LoopIn(symb, node.condition, node.body, out, fuel, U1, Open(st, ti, map[]), |st.tables|);
  }

  /** The loop of `forLoop` in its table `symb`, numbered `si`, with at most `fuel` iterations. */
  method LoopIn(symb: SymbolTable, cond: Node, body: Node, out: Console, fuel: nat, ghost U: Universe, ghost st: Store, ghost si: nat)
    returns (r: Result<Value, RuntimeError>, ghost U2: Universe)
    requires Holds(U, st, out) && si < |U.tabs| && U.tabs[si] == symb
    modifies U.tabs, U.ints, U.strs, out
    ensures Grown(U, U2) && Holds(U2, S.Loop(st, si, cond, body, fuel, fuel).st, out)
    ensures Refines(U2, r, S.Loop(st, si, cond, body, fuel, fuel).res)
    decreases fuel, 5
  {
    ghost var cur := st;
    ghost var goal := S.Loop(st, si, cond, body, fuel, fuel);
    U2 := U;
    var budget := fuel;
    while budget > 0
      invariant Grown(U, U2)
      invariant Holds(U2, cur, out) && si < |U2.tabs| && U2.tabs[si] == symb
      invariant S.Loop(cur, si, cond, body, fuel, budget) == goal
    {
      var finished;
      ghost var U3, next;
      finished, r, U3, next := ForIteration(symb, cond, body, out, fuel, budget - 1, U2, cur, si, goal);
      if finished {
        return r, U3;
      }
      cur, U2 := next, U3;
      budget := budget - 1;
    }
    r := Err(OutOfFuel);
  }

  /**
   * One iteration of `forLoop`: the condition, and the body when it is
   * truthy. When the loop goes on, it does so from the store the body
   * left, with one iteration fewer.
   */
  method ForIteration(symb: SymbolTable, cond: Node, body: Node, out: Console, fuel: nat, left: nat,
                      ghost U: Universe, ghost st: Store, ghost si: nat, ghost goal: Step)
    returns (finished: bool, r: Result<Value, RuntimeError>, ghost U2: Universe, ghost next: Store)
    requires S.Iteration(st, si, cond, body, fuel, left) == goal
    requires Holds(U, st, out) && si < |U.tabs| && U.tabs[si] == symb
    modifies U.tabs, U.ints, U.strs, out
    ensures Grown(U, U2)
    ensures finished ==> Holds(U2, goal.st, out) && Refines(U2, r, goal.res)
    ensures !finished ==> Holds(U2, next, out) && si < |U2.tabs| && U2.tabs[si] == symb
    ensures !finished ==> S.Loop(next, si, cond, body, fuel, left) == goal
    decreases fuel, 4
  {
    var b;
    b, U2 := EvalCondition(symb, cond, out, fuel, U, st, si);
    ghost var cst := S.Eval(st, si, cond, fuel).st;
    if b.Err? {
      return true, Err(b.error), U2, cst;
    }
    if !b.value {
      return true, Ok(Void), U2, cst;
    }
    ghost var U3 := U2;
    r, U2 := Interpret(symb, body, out, fuel, U3, cst, si);
    next := S.Eval(cst, si, body, fuel).st;
    return r.Err?, r, U2, next;
  }

  /**
   * `functionCall`: evaluates the arguments in order, resolves the name
   * followed by the arguments' type tags, and calls what it finds.
   */
  method EvalFunctionCall(ctx: SymbolTable, node: Node, out: Console, fuel: nat, ghost U: Universe, ghost st: Store, ghost ti: nat)
    returns (r: Result<Value, RuntimeError>, ghost U2: Universe)
    requires node.FunctionCallNode?
    requires Holds(U, st, out) && ti < |U.tabs| && U.tabs[ti] == ctx
    modifies U.tabs, U.ints, U.strs, out
    ensures Grown(U, U2) && Holds(U2, S.CallNode(st, ti, node, fuel).st, out)
    ensures Refines(U2, r, S.CallNode(st, ti, node, fuel).res)
    decreases fuel, 5
  {
    var evaluated;
    evaluated, U2 := EvalArgs(ctx, node.callArgs, out, fuel, U, st, ti);
    if evaluated.Err? {
      return Err(evaluated.error), U2;
    }
    ghost var a := S.ArgsFrom(st, ti, node.callArgs, 0, [], fuel);
    var actuals := evaluated.value;
    TypesAgree(U2, actuals, a.res.value);
    var mangled := MangleCallerSide(node.toCall, actuals);
    r, U2 := CallByKey(ctx, mangled, actuals, out, fuel, U2, a.st, ti, a.res.value);
  }

  /** The value bound to the mangled key, called with the evaluated arguments. */
  method CallByKey(ctx: SymbolTable, key: string, actuals: seq<Value>, out: Console, fuel: nat,
                   ghost U: Universe, ghost st: Store, ghost ti: nat, ghost aargs: seq<AValue>)
    returns (r: Result<Value, RuntimeError>, ghost U2: Universe)
    requires Holds(U, st, out) && ti < |U.tabs| && U.tabs[ti] == ctx && ArgsRel(U, actuals, aargs)
    modifies U.tabs, U.ints, U.strs, out
    ensures Grown(U, U2) && Holds(U2, S.CallByKey(st, ti, key, aargs, fuel).st, out)
    ensures Refines(U2, r, S.CallByKey(st, ti, key, aargs, fuel).res)
    decreases fuel, 4
  {
    var f := EvalVariableAccess(ctx, key, out, U, st, ti);
    if f.Err? {
      return f, U;
    }
    ghost var fs := Fetch(st, ti, key);
    r, U2 := Call(ctx, f.value, actuals, out, fuel, U, fs.st, ti, fs.res.value, aargs);
  }

  /** Results of evaluating an argument list agree: the same error, or agreeing lists. */
  ghost predicate ArgsRefine(U: Universe, r: Result<seq<Value>, RuntimeError>, s: Result<seq<AValue>, RuntimeError>) {
    match r
    case Ok(vs) => s.Ok? && ArgsRel(U, vs, s.value)
    case Err(e) => s == Err(e)
  }

  /** The argument loop of `functionCall`: evaluates the arguments left to right, stopping at the first error. */
  method EvalArgs(ctx: SymbolTable, callArgs: seq<Node>, out: Console, fuel: nat, ghost U: Universe, ghost st: Store, ghost ti: nat)
    returns (r: Result<seq<Value>, RuntimeError>, ghost U2: Universe)
    requires Holds(U, st, out) && ti < |U.tabs| && U.tabs[ti] == ctx
    modifies U.tabs, U.ints, U.strs, out
    ensures Grown(U, U2) && Holds(U2, S.ArgsFrom(st, ti, callArgs, 0, [], fuel).st, out)
    ensures ArgsRefine(U2, r, S.ArgsFrom(st, ti, callArgs, 0, [], fuel).res)
    decreases fuel, 3
  {
    var actuals := [];
    ghost var done: seq<AValue> := [];
    ghost var cur := st;
    U2 := U;
    var i := 0;
    while i < |callArgs|
      invariant 0 <= i <= |callArgs| && |actuals| == i
      invariant Grown(U, U2) && Holds(U2, cur, out) && ti < |U2.tabs| && U2.tabs[ti] == ctx
      invariant ArgsRel(U2, actuals, done)
      invariant S.ArgsFrom(cur, ti, callArgs, i, done, fuel) == S.ArgsFrom(st, ti, callArgs, 0, [], fuel)
    {
      var v;
      ghost var U3;
      v, U3 := Interpret(ctx, callArgs[i], out, fuel, U2, cur, ti);
      if v.Err? {
        return Err(v.error), U3;
      }
      ghost var vs := S.Eval(cur, ti, callArgs[i], fuel);
      ArgsRelGrow(U2, U3, actuals, done);
      actuals, done := actuals + [v.value], done + [vs.res.value];
      cur, U2 := vs.st, U3;
      i := i + 1;
    }
    r := Ok(actuals);
  }

  /**
   * `call`: a user function runs its body in the table `setUpSymbolTable`
   * makes, a builtin runs its native body there, and any other value
   * cannot be called.
   */
  method Call(ctx: SymbolTable, callee: Value, args: seq<Value>, out: Console, fuel: nat,
              ghost U: Universe, ghost st: Store, ghost ti: nat, ghost a: AValue, ghost aargs: seq<AValue>)
    returns (r: Result<Value, RuntimeError>, ghost U2: Universe)
    requires Holds(U, st, out) && ti < |U.tabs| && U.tabs[ti] == ctx && Rel(U, callee, a) && ArgsRel(U, args, aargs)
    modifies U.tabs, U.ints, U.strs, out
    ensures Grown(U, U2) && Holds(U2, S.CallValue(st, ti, a, aargs, fuel).st, out)
    ensures Refines(U2, r, S.CallValue(st, ti, a, aargs, fuel).res)
    decreases fuel, 3
  {
    match callee {
      case Function(id, params, todo) =>
        r, U2 := CallFunction(ctx, id, params, todo, args, out, fuel, U, st, ti, aargs);
      case Builtin(id, params, body) =>
        r, U2 := CallNative(ctx, id, params, body, args, out, U, st, ti, aargs);
      case _ =>
        r, U2 := Err(NotCallable(TypeOf(callee))), U;
    }
  }

  /**
   * `setUpSymbolTable` for a call from table `ti`: the arity and type
   * checks, then a fresh child table holding the parameters, which the
   * numbering `U1` gives the next table number.
   */
  method OpenFrame(ctx: SymbolTable, id: string, params: seq<Param>, args: seq<Value>, out: Console,
                   ghost U: Universe, ghost st: Store, ghost ti: nat, ghost aargs: seq<AValue>)
    returns (frame: Result<SymbolTable, RuntimeError>, ghost U1: Universe)
    requires Holds(U, st, out) && ti < |U.tabs| && U.tabs[ti] == ctx && ArgsRel(U, args, aargs)
    ensures SetUpCheck(id, params, ATypesOf(aargs)).Some? ==> frame == Err(SetUpCheck(id, params, ATypesOf(aargs)).value)
    ensures SetUpCheck(id, params, ATypesOf(aargs)).None? ==>
      frame.Ok? && fresh(frame.value) && |params| == |aargs| && U1 == U.(tabs := U.tabs + [frame.value]) &&
      Grown(U, U1) && Holds(U1, Open(st, ti, Bindings(params, aargs)), out)
  {
    TypesAgree(U, args, aargs);
    frame := SetUpSymbolTable(ctx, id, params, args);
    U1 := U;
    if frame.Ok? {
      BindingsAgree(U, params, args, aargs);
      HoldsOpen(U, st, out, frame.value, ti, Bindings(params, aargs));
      U1 := U.(tabs := U.tabs + [frame.value]);
    }
  }

  /** `FunctionValue.call`: the body runs in a fresh child of the caller's table. */
  method CallFunction(ctx: SymbolTable, id: string, params: seq<Param>, todo: Node, args: seq<Value>, out: Console, fuel: nat,
                      ghost U: Universe, ghost st: Store, ghost ti: nat, ghost aargs: seq<AValue>)
    returns (r: Result<Value, RuntimeError>, ghost U2: Universe)
    requires Holds(U, st, out) && ti < |U.tabs| && U.tabs[ti] == ctx && ArgsRel(U, args, aargs)
    modifies U.tabs, U.ints, U.strs, out
    ensures Grown(U, U2) && Holds(U2, S.CallUser(st, ti, id, params, todo, aargs, fuel).st, out)
    ensures Refines(U2, r, S.CallUser(st, ti, id, params, todo, aargs, fuel).res)
    decreases fuel, 2
  {
    var frame;
    ghost var U1;
    frame, U1 := OpenFrame(ctx, id, params, args, out, U, st, ti, aargs);
    if frame.Err? {
      return Err(frame.error), U;
    }
    assert S.CallUser(st, ti, id, params, todo, aargs, fuel) == S.Eval(Open(st, ti, Bindings(params, aargs)), |st.tables|, todo, fuel);
    r, U2 := Interpret(frame.value, todo, out, fuel, U1, Open(st, ti, Bindings(params, aargs)), |st.tables|);
  }

  /** `Builtin.call`: the native body reads the argument bound as `value`. */
  method CallNative(ctx: SymbolTable, id: string, params: seq<Param>, body: BuiltinBody, args: seq<Value>, out: Console,
                    ghost U: Universe, ghost st: Store, ghost ti: nat, ghost aargs: seq<AValue>)
    returns (r: Result<Value, RuntimeError>, ghost U2: Universe)
    requires Holds(U, st, out) && ti < |U.tabs| && U.tabs[ti] == ctx && ArgsRel(U, args, aargs)
    modifies U.tabs, out
    ensures Grown(U, U2) && Holds(U2, S.CallNative(st, ti, id, params, body, aargs).st, out)
    ensures Refines(U2, r, S.CallNative(st, ti, id, params, body, aargs).res)
  {
    var frame;
    ghost var U1;
    frame, U1 := OpenFrame(ctx, id, params, args, out, U, st, ti, aargs);
    if frame.Err? {
      return Err(frame.error), U;
    }
    ghost var child := Open(st, ti, Bindings(params, aargs));
    assert S.CallNative(st, ti, id, params, body, aargs) == RunBuiltin(child, |st.tables|, body);
    ChainNumbered(U1, child, |st.tables|);
    r, U2 := CallBuiltin(frame.value, body, out, U1, child, |st.tables|);
  }

  /** An agreeing value agrees under any numbering extending the one it agrees under. */
  lemma RelGrow(U: Universe, U2: Universe, v: Value, a: AValue)
    requires Rel(U, v, a) && Extends(U, U2)
    ensures Rel(U2, v, a)
  {
    match v
    case Int(_) => assert U2.ints[a.ic] == U.ints[a.ic];
    case Str(_) => assert U2.strs[a.sc] == U.strs[a.sc];
    case _ =>
  }

  /** Agreeing lists agree under any numbering extending the one they agree under. */
  lemma ArgsRelGrow(U: Universe, U2: Universe, vs: seq<Value>, avs: seq<AValue>)
    requires ArgsRel(U, vs, avs) && Extends(U, U2)
    ensures ArgsRel(U2, vs, avs)
  {
    forall j | 0 <= j < |vs|
      ensures Rel(U2, vs[j], avs[j])
    {
      RelGrow(U, U2, vs[j], avs[j]);
    }
  }

  /** Agreeing lists have the same types, so the same overload key and the same set-up check. */
  lemma TypesAgree(U: Universe, vs: seq<Value>, avs: seq<AValue>)
    requires ArgsRel(U, vs, avs)
    ensures TypesOf(vs) == ATypesOf(avs)
  {
    forall j | 0 <= j < |vs|
      ensures TypeOf(vs[j]) == ATypeOf(avs[j])
    {
      assert Rel(U, vs[j], avs[j]);
    }
  }

  /** Parameters bound to agreeing arguments give agreeing bindings. */
  lemma {:induction false} BindingsAgree(U: Universe, params: seq<Param>, vs: seq<Value>, avs: seq<AValue>)
    requires |params| == |vs| && ArgsRel(U, vs, avs)
    ensures MapRel(U, Bindings(params, vs), Bindings(params, avs))
  {
    if params != [] {
      var n := |params| - 1;
      BindingsAgree(U, params[..n], vs[..n], avs[..n]);
      MapRelBind(U, Bindings(params[..n], vs[..n]), Bindings(params[..n], avs[..n]), params[n].name, vs[n], avs[n]);
    }
  }
}
