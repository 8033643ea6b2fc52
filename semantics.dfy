/**
 * The evaluator as functions over the store: what evaluating a node in
 * table `t` with a fuel budget gives, and the store afterwards. Each
 * function follows one evaluator method of the interpreter step by step
 * (the same order of evaluation, the same errors, the same fuel
 * accounting), and each method is proved to compute it.
 */
module Semantics {
  import opened Wrappers
  import JavaLang
  import Lexer
  import opened Ast
  import opened Values
  import opened Machine
  import opened Calls

  /** A list of evaluated arguments, or the first error, and the store after them. */
  datatype Args = Args(res: Result<seq<AValue>, RuntimeError>, st: Store)

  /** A pair of evaluated operands, or the first error, and the store after them. */
  datatype Pair = Pair(res: Result<(AValue, AValue), RuntimeError>, st: Store)

  /**
   * `interpret`: no fuel is an error; otherwise the evaluator of the
   * node's kind, with one unit spent. The kinds that evaluate at most one
   * subexpression are gathered in `Simple`.
   */
  function Eval(st: Store, t: nat, node: Node, fuel: nat): Step
    decreases fuel, 0, 0
  {
    if fuel == 0 then Step(Err(OutOfFuel), st)
    else match node
      case FunctionCallNode(_, _) => CallNode(st, t, node, fuel - 1)
      case MathNode(_, _, _) => Maths(st, t, node, fuel - 1)
      case BlockNode(_) => Block(st, t, node, fuel - 1)
      case IfNode(conds, otherwise) => IfFrom(st, t, conds, otherwise, 0, fuel - 1)
      case ForNode(cond, body) => Loop(Open(st, t, map[]), |st.tables|, cond, body, fuel - 1, fuel - 1)
      case _ => Simple(st, t, node, fuel - 1)
  }

  /** Literals, names, declarations and prefix operators. */
  predicate IsSimple(node: Node) {
    node.IntegerNode? || node.StringNode? || node.VariableDeclarationNode? || node.VariableAccessNode? ||
    node.FunctionDeclarationNode? || node.NegationNode?
  }

  /** The evaluators of the simple kinds: a new cell, a lookup, a binding, or a negated literal. */
  function Simple(st: Store, t: nat, node: Node, fuel: nat): Step
    requires IsSimple(node)
    decreases fuel, 1, 0
  {
    match node
    case IntegerNode(n) => AllocInt(st, n)
    case StringNode(s) => AllocStr(st, s)
    case VariableDeclarationNode(_, _, _) => Declare(st, t, node, fuel)
    case VariableAccessNode(id) => Fetch(st, t, id)
    case FunctionDeclarationNode(_, _, _) => DeclareFunction(st, t, node)
    case NegationNode(acting, op) => Negate(st, acting, op)
  }

  /** `variableDeclaration`: the initialiser's value bound under the name in table `t`; the result is void. */
  function Declare(st: Store, t: nat, node: Node, fuel: nat): Step
    requires node.VariableDeclarationNode?
    decreases fuel, 0, 1
  {
    var init := Eval(st, t, node.init, fuel);
    if init.res.Err? then init
    else Step(Ok(AVoid), Bind(init.st, t, node.id, init.res.value))
  }

  /** `functionDeclaration`: the function bound under its overload key in table `t`. */
  function DeclareFunction(st: Store, t: nat, node: Node): Step
    requires node.FunctionDeclarationNode?
  {
    match FunctionOf(node)
    case Err(e) => Step(Err(e), st)
    case Ok(f) => Step(Ok(AVoid), Bind(st, t, f.id, AFunction(f.id, f.params, f.todo)))
  }

  /** `negation`: a new cell holding the operator applied to the literal operand. */
  function Negate(st: Store, acting: Node, op: Lexer.TokenType): Step {
    match Negation(acting, op)
    case Err(e) => Step(Err(e), st)
    case Ok(n) => AllocInt(st, n)
  }

  /** `maths`: both operands, then the operator on the payloads they hold afterwards. */
  function Maths(st: Store, t: nat, node: Node, fuel: nat): Step
    requires node.MathNode?
    decreases fuel, 2, 0
  {
    var p := Operands(st, t, node.left, node.right, fuel);
    if p.res.Err? then Step(Err(p.res.error), p.st)
    else Apply(p.st, node.operation, p.res.value.0, p.res.value.1)
  }

  /** The left operand, then the right one; the first failure stops. */
  function Operands(st: Store, t: nat, left: Node, right: Node, fuel: nat): Pair
    decreases fuel, 1, 0
  {
    var l := Eval(st, t, left, fuel);
    if l.res.Err? then Pair(Err(l.res.error), l.st)
    else
      var r := Eval(l.st, t, right, fuel);
      if r.res.Err? then Pair(Err(r.res.error), r.st)
      else Pair(Ok((l.res.value, r.res.value)), r.st)
  }

  /** An operator applied to two values: a new cell, or `<-` copying the right payload into the left cell. */
  function Apply(st: Store, op: Lexer.TokenType, l: AValue, r: AValue): Step {
    match Binary(op, Read(st, l), Read(st, r))
    case Err(e) => Step(Err(e), st)
    case Ok(NewInt(i)) => AllocInt(st, i)
    case Ok(NewStr(s)) => AllocStr(st, s)
    case Ok(Assigned) => Step(Ok(r), Assign(st, l, r))
  }

  /** The left value's cell overwritten with the right value's payload, when both are cells of the same kind. */
  function Assign(st: Store, l: AValue, r: AValue): Store {
    if l.AInt? && l.ic < |st.ints| && Read(st, r).IntP? then st.(ints := st.ints[l.ic := Read(st, r).i])
    else if l.AStr? && l.sc < |st.strs| && Read(st, r).StrP? then st.(strs := st.strs[l.sc := Read(st, r).s])
    else st
  }

  /** `block`: an empty block is an error; otherwise the expressions run in one new child table. */
  function Block(st: Store, t: nat, node: Node, fuel: nat): Step
    requires node.BlockNode?
    decreases fuel, 2, 0
  {
    if node.exprs == [] then Step(Err(EmptyBlock), st)
    else BlockFrom(Open(st, t, map[]), |st.tables|, node.exprs, 0, fuel)
  }

  /** The expressions from `i` on, in table `s`: the last one's step, or the first failure. */
  function BlockFrom(st: Store, s: nat, exprs: seq<Node>, i: nat, fuel: nat): Step
    requires i < |exprs|
    decreases fuel, 1, |exprs| - i
  {
    var v := Eval(st, s, exprs[i], fuel);
    if i == |exprs| - 1 || v.res.Err? then v
    else BlockFrom(v.st, s, exprs, i + 1, fuel)
  }

  /**
   * `ifStatement` from arm `i` on: the body of the first arm whose
   * condition is truthy, else the `else` block, else void.
   */
  function IfFrom(st: Store, t: nat, conds: seq<Branch>, otherwise: Option<Node>, i: nat, fuel: nat): Step
    requires i <= |conds|
    decreases fuel, 1, |conds| - i
  {
    if i == |conds| then
      (match otherwise
       case Some(e) => Eval(st, t, e, fuel)
       case None => Step(Ok(AVoid), st))
    else
      var c := Eval(st, t, conds[i].cond, fuel);
      if c.res.Err? then c
      else match Truthy(Read(c.st, c.res.value))
        case Err(e) => Step(Err(e), c.st)
        case Ok(b) =>
          if b then Eval(c.st, t, conds[i].body, fuel)
          else IfFrom(c.st, t, conds, otherwise, i + 1, fuel)
  }

  /**
   * `forLoop` in its table `s`, with `budget` iterations left: an error
   * when none is left, otherwise one more iteration.
   */
  function Loop(st: Store, s: nat, cond: Node, body: Node, fuel: nat, budget: nat): Step
    decreases fuel, 1, 2 * budget + 1
  {
    if budget == 0 then Step(Err(OutOfFuel), st)
    else Iteration(st, s, cond, body, fuel, budget - 1)
  }

  /**
   * One iteration, with `left` more allowed after it: the condition, then,
   * while it is truthy, the body and the rest of the loop; void when it
   * is not.
   */
  function Iteration(st: Store, s: nat, cond: Node, body: Node, fuel: nat, left: nat): Step
    decreases fuel, 1, 2 * left + 2
  {
    var c := Eval(st, s, cond, fuel);
    if c.res.Err? then c
    else match Truthy(Read(c.st, c.res.value))
      case Err(e) => Step(Err(e), c.st)
      case Ok(b) =>
        if !b then Step(Ok(AVoid), c.st)
        else
          var v := Eval(c.st, s, body, fuel);
          if v.res.Err? then v
          else Loop(v.st, s, cond, body, fuel, left)
  }

  /** The arguments from `i` on, left to right, after the values `done`; the first failure stops. */
  function ArgsFrom(st: Store, t: nat, args: seq<Node>, i: nat, done: seq<AValue>, fuel: nat): Args
    requires i <= |args|
    decreases fuel, 1, |args| - i
  {
    if i == |args| then Args(Ok(done), st)
    else
      var v := Eval(st, t, args[i], fuel);
      if v.res.Err? then Args(Err(v.res.error), v.st)
      else ArgsFrom(v.st, t, args, i + 1, done + [v.res.value], fuel)
  }

  /** `functionCall`: the arguments, then the value bound to the name followed by their type tags, called with them. */
  function CallNode(st: Store, t: nat, node: Node, fuel: nat): Step
    requires node.FunctionCallNode?
    decreases fuel, 4, 0
  {
    var a := ArgsFrom(st, t, node.callArgs, 0, [], fuel);
    if a.res.Err? then Step(Err(a.res.error), a.st)
    else CallByKey(a.st, t, node.toCall + Tags(ATypesOf(a.res.value)), a.res.value, fuel)
  }

  /** The value bound to `key`, fetched as `get` does, called with the arguments. */
  function CallByKey(st: Store, t: nat, key: string, args: seq<AValue>, fuel: nat): Step
    decreases fuel, 3, 0
  {
    var f := Fetch(st, t, key);
    if f.res.Err? then f
    else CallValue(f.st, t, f.res.value, args, fuel)
  }

  /** `call`: a user function or a builtin is called; any other value cannot be. */
  function CallValue(st: Store, t: nat, callee: AValue, args: seq<AValue>, fuel: nat): Step
    decreases fuel, 2, 0
  {
    match callee
    case AFunction(id, params, todo) => CallUser(st, t, id, params, todo, args, fuel)
    case ABuiltin(id, params, body) => CallNative(st, t, id, params, body, args)
    case _ => Step(Err(NotCallable(ATypeOf(callee))), st)
  }

  /**
   * `FunctionValue.call`: after the arity and type checks, the body runs
   * in a new child of the caller's table `t` holding the parameters.
   */
  function CallUser(st: Store, t: nat, id: string, params: seq<Param>, todo: Node, args: seq<AValue>, fuel: nat): Step
    decreases fuel, 1, 0
  {
    match SetUpCheck(id, params, ATypesOf(args))
    case Some(e) => Step(Err(e), st)
    case None => Eval(Open(st, t, Bindings(params, args)), |st.tables|, todo, fuel)
  }

  /** `Builtin.call`: after the same checks, the native body runs on a new child of `t` holding `value`. */
  function CallNative(st: Store, t: nat, id: string, params: seq<Param>, body: BuiltinBody, args: seq<AValue>): Step {
    match SetUpCheck(id, params, ATypesOf(args))
    case Some(e) => Step(Err(e), st)
    case None => RunBuiltin(Open(st, t, Bindings(params, args)), |st.tables|, body)
  }

  /** The builtin registrations as values of the store. */
  function ARegistered(bs: seq<(string, ValueType, BuiltinBody)>): map<string, AValue> {
    if bs == [] then map[]
    else
      var b := bs[|bs| - 1];
      var params := [Param("value", b.1)];
      ARegistered(bs[..|bs| - 1])[MangleFunctionSide(b.0, params) := ABuiltin(MangleFunctionSide(b.0, params), params, b.2)]
  }

  /**
   * The store a run starts from: one global table with the builtins and
   * `true` and `false` bound to integer cells 0 and 1, holding 1 and 0.
   */
  function Initial(lines: seq<string>): Store {
    Store([Table(-1, ARegistered(BUILTINS)["true" := AInt(0)]["false" := AInt(1)])], [1, 0], [], lines)
  }
}
