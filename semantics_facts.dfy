/**
 * What the evaluator promises, proved of the semantics over all inputs:
 * evaluation only ever adds tables and cells and appends printed lines; a
 * block gives its last expression's value; `if` runs the first truthy
 * arm; a declaration binds the initialiser's value; an operator acts on
 * its operands' payloads; a loop gives void; a call runs the body in a
 * new child of the caller's table, where the parameters are bound and
 * every other name resolves as it does for the caller.
 */
module SemanticsFacts {
  import opened Wrappers
  import opened Ast
  import opened Values
  import opened Machine
  import opened Calls
  import opened Semantics

  /**
   * `st2` is a later store than `st`: no table or cell is removed, the
   * tables keep their parents, and lines are only appended.
   */
  predicate Later(st: Store, st2: Store) {
    |st.tables| <= |st2.tables| && |st.ints| <= |st2.ints| && |st.strs| <= |st2.strs| &&
    st.lines <= st2.lines &&
    forall i :: 0 <= i < |st.tables| ==> st2.tables[i].parent == st.tables[i].parent
  }

  /** `get` only adds cached bindings. */
  lemma FetchLater(st: Store, t: nat, id: string)
    ensures Later(st, Fetch(st, t, id).st)
  {
  }

  /** A builtin body only adds a cell or a printed line. */
  lemma NativeLater(st: Store, f: nat, body: BuiltinBody)
    ensures Later(st, RunBuiltin(st, f, body).st)
  {
    var v := Fetch(st, f, "value");
    if v.res.Ok? {
      assert Later(v.st, NativeStep(v.st, body, v.res.value).st);
    }
  }

  /** Evaluating any node gives a later store. */
  lemma EvalLater(st: Store, t: nat, node: Node, fuel: nat)
    ensures Later(st, Eval(st, t, node, fuel).st)
    decreases fuel, 0, 0
  {
    if fuel > 0 {
      match node
      case FunctionCallNode(_, _) => CallNodeLater(st, t, node, fuel - 1);
      case MathNode(_, _, _) => MathsLater(st, t, node, fuel - 1);
      case BlockNode(_) => BlockLater(st, t, node, fuel - 1);
      case IfNode(conds, otherwise) => IfFromLater(st, t, conds, otherwise, 0, fuel - 1);
      case ForNode(cond, body) => LoopLater(Open(st, t, map[]), |st.tables|, cond, body, fuel - 1, fuel - 1);
      case _ => SimpleLater(st, t, node, fuel - 1);
    }
  }

  lemma SimpleLater(st: Store, t: nat, node: Node, fuel: nat)
    requires IsSimple(node)
    ensures Later(st, Simple(st, t, node, fuel).st)
    decreases fuel, 1, 0
  {
    match node
    case VariableDeclarationNode(_, _, _) => DeclareLater(st, t, node, fuel);
    case VariableAccessNode(id) => FetchLater(st, t, id);
    case _ =>
  }

  lemma DeclareLater(st: Store, t: nat, node: Node, fuel: nat)
    requires node.VariableDeclarationNode?
    ensures Later(st, Declare(st, t, node, fuel).st)
    decreases fuel, 0, 1
  {
    EvalLater(st, t, node.init, fuel);
  }

  lemma MathsLater(st: Store, t: nat, node: Node, fuel: nat)
    requires node.MathNode?
    ensures Later(st, Maths(st, t, node, fuel).st)
    decreases fuel, 2, 0
  {
    OperandsLater(st, t, node.left, node.right, fuel);
  }

  lemma OperandsLater(st: Store, t: nat, left: Node, right: Node, fuel: nat)
    ensures Later(st, Operands(st, t, left, right, fuel).st)
    decreases fuel, 1, 0
  {
    var l := Eval(st, t, left, fuel);
    EvalLater(st, t, left, fuel);
    if l.res.Ok? {
      EvalLater(l.st, t, right, fuel);
    }
  }

  lemma BlockLater(st: Store, t: nat, node: Node, fuel: nat)
    requires node.BlockNode?
    ensures Later(st, Block(st, t, node, fuel).st)
    decreases fuel, 2, 0
  {
    if node.exprs != [] {
      BlockFromLater(Open(st, t, map[]), |st.tables|, node.exprs, 0, fuel);
    }
  }

  lemma BlockFromLater(st: Store, s: nat, exprs: seq<Node>, i: nat, fuel: nat)
    requires i < |exprs|
    ensures Later(st, BlockFrom(st, s, exprs, i, fuel).st)
    decreases fuel, 1, |exprs| - i
  {
    var v := Eval(st, s, exprs[i], fuel);
    EvalLater(st, s, exprs[i], fuel);
    if !(i == |exprs| - 1 || v.res.Err?) {
      BlockFromLater(v.st, s, exprs, i + 1, fuel);
    }
  }

  lemma IfFromLater(st: Store, t: nat, conds: seq<Branch>, otherwise: Option<Node>, i: nat, fuel: nat)
    requires i <= |conds|
    ensures Later(st, IfFrom(st, t, conds, otherwise, i, fuel).st)
    decreases fuel, 1, |conds| - i
  {
    if i == |conds| {
      if otherwise.Some? {
        EvalLater(st, t, otherwise.value, fuel);
      }
    } else {
      var c := Eval(st, t, conds[i].cond, fuel);
      EvalLater(st, t, conds[i].cond, fuel);
      if c.res.Ok? && Truthy(Read(c.st, c.res.value)).Ok? {
        if Truthy(Read(c.st, c.res.value)).value {
          EvalLater(c.st, t, conds[i].body, fuel);
        } else {
          IfFromLater(c.st, t, conds, otherwise, i + 1, fuel);
        }
      }
    }
  }

  lemma LoopLater(st: Store, s: nat, cond: Node, body: Node, fuel: nat, budget: nat)
    ensures Later(st, Loop(st, s, cond, body, fuel, budget).st)
    decreases fuel, 1, 2 * budget + 1
  {
    if budget > 0 {
      IterationLater(st, s, cond, body, fuel, budget - 1);
    }
  }

  lemma IterationLater(st: Store, s: nat, cond: Node, body: Node, fuel: nat, left: nat)
    ensures Later(st, Iteration(st, s, cond, body, fuel, left).st)
    decreases fuel, 1, 2 * left + 2
  {
    var c := Eval(st, s, cond, fuel);
    EvalLater(st, s, cond, fuel);
    if c.res.Ok? && Truthy(Read(c.st, c.res.value)) == Ok(true) {
      var v := Eval(c.st, s, body, fuel);
      EvalLater(c.st, s, body, fuel);
      if v.res.Ok? {
        LoopLater(v.st, s, cond, body, fuel, left);
      }
    }
  }

  lemma ArgsFromLater(st: Store, t: nat, args: seq<Node>, i: nat, done: seq<AValue>, fuel: nat)
    requires i <= |args|
    ensures Later(st, ArgsFrom(st, t, args, i, done, fuel).st)
    decreases fuel, 1, |args| - i
  {
    if i < |args| {
      var v := Eval(st, t, args[i], fuel);
      EvalLater(st, t, args[i], fuel);
      if v.res.Ok? {
        ArgsFromLater(v.st, t, args, i + 1, done + [v.res.value], fuel);
      }
    }
  }

  lemma CallNodeLater(st: Store, t: nat, node: Node, fuel: nat)
    requires node.FunctionCallNode?
    ensures Later(st, CallNode(st, t, node, fuel).st)
    decreases fuel, 4, 0
  {
    var a := ArgsFrom(st, t, node.callArgs, 0, [], fuel);
    ArgsFromLater(st, t, node.callArgs, 0, [], fuel);
    if a.res.Ok? {
      CallByKeyLater(a.st, t, node.toCall + Tags(ATypesOf(a.res.value)), a.res.value, fuel);
    }
  }

  lemma CallByKeyLater(st: Store, t: nat, key: string, args: seq<AValue>, fuel: nat)
    ensures Later(st, CallByKey(st, t, key, args, fuel).st)
    decreases fuel, 3, 0
  {
    var f := Fetch(st, t, key);
    if f.res.Ok? {
      CallValueLater(f.st, t, f.res.value, args, fuel);
    }
  }

  lemma CallValueLater(st: Store, t: nat, callee: AValue, args: seq<AValue>, fuel: nat)
    ensures Later(st, CallValue(st, t, callee, args, fuel).st)
    decreases fuel, 2, 0
  {
    match callee
    case AFunction(id, params, todo) => CallUserLater(st, t, id, params, todo, args, fuel);
    case ABuiltin(id, params, body) =>
      if SetUpCheck(id, params, ATypesOf(args)).None? {
        NativeLater(Open(st, t, Bindings(params, args)), |st.tables|, body);
      }
    case _ =>
  }

  lemma CallUserLater(st: Store, t: nat, id: string, params: seq<Param>, todo: Node, args: seq<AValue>, fuel: nat)
    ensures Later(st, CallUser(st, t, id, params, todo, args, fuel).st)
    decreases fuel, 1, 0
  {
    if SetUpCheck(id, params, ATypesOf(args)).None? {
      EvalLater(Open(st, t, Bindings(params, args)), |st.tables|, todo, fuel);
    }
  }

  /** Binding `id` in table `t` makes it resolve there to the new value. */
  lemma ResolveBound(st: Store, t: nat, id: string, v: AValue)
    requires t < |st.tables|
    ensures Resolve(Bind(st, t, id, v), t, id) == Some(v)
  {
  }

  /** Binding `id` changes what no other name resolves to, from any table. */
  lemma {:induction false} ResolveBindOther(st: Store, t: nat, id: string, v: AValue, i: nat, other: string)
    requires other != id
    ensures Resolve(Bind(st, t, id, v), i, other) == Resolve(st, i, other)
    decreases i
  {
    var st2 := Bind(st, t, id, v);
    if i < |st.tables| && other !in st.tables[i].vals && 0 <= st.tables[i].parent < i {
      ResolveBindOther(st, t, id, v, st.tables[i].parent, other);
    }
  }

  /** A new table changes nothing that is resolved from the tables that were there. */
  lemma {:induction false} ResolveOpenOld(st: Store, t: nat, vals: map<string, AValue>, i: nat, id: string)
    requires i < |st.tables|
    ensures Resolve(Open(st, t, vals), i, id) == Resolve(st, i, id)
    decreases i
  {
    if id !in st.tables[i].vals && 0 <= st.tables[i].parent < i {
      ResolveOpenOld(st, t, vals, st.tables[i].parent, id);
    }
  }

  /**
   * From a new child of table `t`: its own bindings first, and every other
   * name as it resolves from `t`.
   */
  lemma ResolveOpenNew(st: Store, t: nat, vals: map<string, AValue>, id: string)
    requires t < |st.tables|
    ensures Resolve(Open(st, t, vals), |st.tables|, id) == if id in vals then Some(vals[id]) else Resolve(st, t, id)
  {
    if id !in vals {
      ResolveOpenOld(st, t, vals, t, id);
    }
  }

  /**
   * `variableDeclaration`: a failing initialiser is the declaration's
   * failure; otherwise the result is void, the name resolves from the
   * declaring table to the initialiser's value, and every other name
   * resolves as it did after the initialiser.
   */
  lemma DeclarationBinds(st: Store, t: nat, node: Node, fuel: nat)
    requires node.VariableDeclarationNode? && t < |st.tables| && fuel > 0
    ensures var init := Eval(st, t, node.init, fuel - 1);
      init.res.Err? ==> Eval(st, t, node, fuel) == init
    ensures var init := Eval(st, t, node.init, fuel - 1);
      init.res.Ok? ==>
        var d := Eval(st, t, node, fuel);
        d.res == Ok(AVoid) && Resolve(d.st, t, node.id) == Some(init.res.value) &&
        forall other :: other != node.id ==> Resolve(d.st, t, other) == Resolve(init.st, t, other)
  {
    var init := Eval(st, t, node.init, fuel - 1);
    assert Eval(st, t, node, fuel) == Declare(st, t, node, fuel - 1);
    EvalLater(st, t, node.init, fuel - 1);
    if init.res.Ok? {
      ResolveBound(init.st, t, node.id, init.res.value);
      forall other | other != node.id
        ensures Resolve(Bind(init.st, t, node.id, init.res.value), t, other) == Resolve(init.st, t, other)
      {
        ResolveBindOther(init.st, t, node.id, init.res.value, t, other);
      }
    }
  }

  /**
   * The expressions from `i` on, with one more appended: the rest's first
   * failure, or else the appended expression's step in the store the
   * rest left.
   */
  lemma {:induction false} BlockFromAppend(st: Store, s: nat, pre: seq<Node>, e: Node, i: nat, fuel: nat)
    requires i < |pre|
    ensures var p := BlockFrom(st, s, pre, i, fuel);
      BlockFrom(st, s, pre + [e], i, fuel) == if p.res.Err? then p else Eval(p.st, s, e, fuel)
    decreases |pre| - i
  {
    var v := Eval(st, s, pre[i], fuel);
    assert (pre + [e])[i] == pre[i];
    if i < |pre| - 1 && v.res.Ok? {
      BlockFromAppend(v.st, s, pre, e, i + 1, fuel);
    } else if v.res.Ok? {
      assert (pre + [e])[i + 1] == e;
    }
  }

  /**
   * `block`: the value of its last expression, evaluated in the block's
   * new table (numbered `|st.tables|`, a child of `t`) after the others,
   * unless one of those fails first.
   */
  lemma BlockGivesLast(st: Store, t: nat, pre: seq<Node>, e: Node, fuel: nat)
    ensures pre == [] ==> Block(st, t, BlockNode(pre + [e]), fuel) == Eval(Open(st, t, map[]), |st.tables|, e, fuel)
    ensures pre != [] ==>
      var p := Block(st, t, BlockNode(pre), fuel);
      Block(st, t, BlockNode(pre + [e]), fuel) == if p.res.Err? then p else Eval(p.st, |st.tables|, e, fuel)
  {
    if pre == [] {
      assert pre + [e] == [e];
    } else {
      BlockFromAppend(Open(st, t, map[]), |st.tables|, pre, e, 0, fuel);
    }
  }

  /**
   * The store after the conditions of arms `i` to `k` (excluded) are
   * evaluated in turn and each is falsy; none if one fails or is truthy.
   */
  function Skipped(st: Store, t: nat, conds: seq<Branch>, i: nat, k: nat, fuel: nat): Option<Store>
    requires i <= k <= |conds|
    decreases k - i
  {
    if i == k then Some(st)
    else
      var c := Eval(st, t, conds[i].cond, fuel);
      if c.res.Ok? && Truthy(Read(c.st, c.res.value)) == Ok(false) then Skipped(c.st, t, conds, i + 1, k, fuel)
      else None
  }

  /** Arms whose conditions are falsy are passed over, in order. */
  lemma {:induction false} IfSkips(st: Store, t: nat, conds: seq<Branch>, otherwise: Option<Node>, i: nat, k: nat, fuel: nat)
    requires i <= k <= |conds| && Skipped(st, t, conds, i, k, fuel).Some?
    ensures IfFrom(st, t, conds, otherwise, i, fuel) == IfFrom(Skipped(st, t, conds, i, k, fuel).value, t, conds, otherwise, k, fuel)
    decreases k - i
  {
    if i < k {
      var c := Eval(st, t, conds[i].cond, fuel);
      IfSkips(c.st, t, conds, otherwise, i + 1, k, fuel);
    }
  }

  /**
   * `ifStatement` runs the body of the first arm whose condition is
   * truthy, in the store its condition left, after every earlier
   * condition was evaluated and found falsy.
   */
  lemma IfRunsFirstTruthy(st: Store, t: nat, conds: seq<Branch>, otherwise: Option<Node>, k: nat, fuel: nat)
    requires k < |conds| && Skipped(st, t, conds, 0, k, fuel).Some?
    requires var c := Eval(Skipped(st, t, conds, 0, k, fuel).value, t, conds[k].cond, fuel);
      c.res.Ok? && Truthy(Read(c.st, c.res.value)) == Ok(true)
    ensures var c := Eval(Skipped(st, t, conds, 0, k, fuel).value, t, conds[k].cond, fuel);
      IfFrom(st, t, conds, otherwise, 0, fuel) == Eval(c.st, t, conds[k].body, fuel)
  {
    IfSkips(st, t, conds, otherwise, 0, k, fuel);
  }

  /** With every condition falsy, `ifStatement` runs the `else` block, or gives void without one. */
  lemma IfFallsThrough(st: Store, t: nat, conds: seq<Branch>, otherwise: Option<Node>, fuel: nat)
    requires Skipped(st, t, conds, 0, |conds|, fuel).Some?
    ensures var m := Skipped(st, t, conds, 0, |conds|, fuel).value;
      IfFrom(st, t, conds, otherwise, 0, fuel) == if otherwise.Some? then Eval(m, t, otherwise.value, fuel) else Step(Ok(AVoid), m)
  {
    IfSkips(st, t, conds, otherwise, 0, |conds|, fuel);
  }

  /**
   * `maths`: once both operands are evaluated, the operator acts on the
   * payloads they hold: a new cell with the operator's integer or string,
   * its error, or for `<-` the right value, whose payload the left cell
   * now holds.
   */
  lemma MathsApplies(st: Store, t: nat, node: Node, fuel: nat)
    requires node.MathNode?
    ensures var p := Operands(st, t, node.left, node.right, fuel);
      p.res.Ok? ==>
        var l, r := p.res.value.0, p.res.value.1;
        var m := Maths(st, t, node, fuel);
        match Binary(node.operation, Read(p.st, l), Read(p.st, r))
        case Err(e) => m.res == Err(e)
        case Ok(NewInt(i)) => m.res.Ok? && Read(m.st, m.res.value) == IntP(i)
        case Ok(NewStr(s)) => m.res.Ok? && Read(m.st, m.res.value) == StrP(s)
        case Ok(Assigned) =>
          m.res == Ok(r) &&
          ((l.AInt? && l.ic < |p.st.ints|) || (l.AStr? && l.sc < |p.st.strs|) ==> Read(m.st, l) == Read(p.st, r))
    ensures var p := Operands(st, t, node.left, node.right, fuel);
      p.res.Err? ==> Maths(st, t, node, fuel) == Step(Err(p.res.error), p.st)
  {
    var p := Operands(st, t, node.left, node.right, fuel);
    if p.res.Ok? {
      var l, r := p.res.value.0, p.res.value.1;
      if Binary(node.operation, Read(p.st, l), Read(p.st, r)) == Ok(Assigned) {
        AssignedSameType(node.operation, Read(p.st, l), Read(p.st, r));
      }
    }
  }

  /** `forLoop` gives void whenever it does not fail. */
  lemma LoopGivesVoid(st: Store, s: nat, cond: Node, body: Node, fuel: nat, budget: nat)
    ensures Loop(st, s, cond, body, fuel, budget).res.Ok? ==> Loop(st, s, cond, body, fuel, budget).res == Ok(AVoid)
    decreases budget, 1
  {
    if budget > 0 {
      IterationGivesVoid(st, s, cond, body, fuel, budget - 1);
    }
  }

  lemma IterationGivesVoid(st: Store, s: nat, cond: Node, body: Node, fuel: nat, left: nat)
    ensures Iteration(st, s, cond, body, fuel, left).res.Ok? ==> Iteration(st, s, cond, body, fuel, left).res == Ok(AVoid)
    decreases left, 2
  {
    var c := Eval(st, s, cond, fuel);
    if c.res.Ok? && Truthy(Read(c.st, c.res.value)) == Ok(true) {
      var v := Eval(c.st, s, body, fuel);
      if v.res.Ok? {
        LoopGivesVoid(v.st, s, cond, body, fuel, left);
      }
    }
  }

  /**
   * `FunctionValue.call` once the checks pass: the body runs in a new
   * table, numbered `|st.tables|`, whose parent is the CALLER's table `t`
   * (the scope is dynamic). There a parameter resolves to its argument,
   * the last one when a name repeats, and any other name resolves as it
   * does in the caller's table.
   */
  lemma CallRunsInCallersChild(st: Store, t: nat, id: string, params: seq<Param>, todo: Node, args: seq<AValue>, fuel: nat)
    requires SetUpCheck(id, params, ATypesOf(args)).None? && t < |st.tables|
    ensures |params| == |args|
    ensures var frame := Open(st, t, Bindings(params, args));
      CallUser(st, t, id, params, todo, args, fuel) == Eval(frame, |st.tables|, todo, fuel) &&
      frame.tables[|st.tables|].parent == t &&
      (forall k :: 0 <= k < |params| && (forall j :: k < j < |params| ==> params[j].name != params[k].name) ==>
         Resolve(frame, |st.tables|, params[k].name) == Some(args[k])) &&
      (forall name :: name !in Bindings(params, args) ==> Resolve(frame, |st.tables|, name) == Resolve(st, t, name))
  {
    var vals := Bindings(params, args);
    forall k | 0 <= k < |params| && (forall j :: k < j < |params| ==> params[j].name != params[k].name)
      ensures Resolve(Open(st, t, vals), |st.tables|, params[k].name) == Some(args[k])
    {
      BindingsValues(params, args, k);
      ResolveOpenNew(st, t, vals, params[k].name);
    }
    forall name | name !in vals
      ensures Resolve(Open(st, t, vals), |st.tables|, name) == Resolve(st, t, name)
    {
      ResolveOpenNew(st, t, vals, name);
    }
  }

  /**
   * `Builtin.call` on one argument of the declared type: the native body
   * runs on that argument, read from a new child of the caller's table
   * holding it as `value`.
   */
  lemma BuiltinGetsArgument(st: Store, t: nat, id: string, typ: ValueType, body: BuiltinBody, a: AValue)
    requires ATypeOf(a) == typ
    ensures CallNative(st, t, id, [Param("value", typ)], body, [a]) == NativeStep(Open(st, t, map["value" := a]), body, a)
  {
    assert ATypesOf([a]) == [typ];
    assert Bindings([Param("value", typ)], [a]) == map["value" := a];
  }

  /** `print(x)` gives void and writes one line, the text of `x`; nothing else changes but the new table. */
  lemma PrintWritesText(st: Store, t: nat, id: string, typ: ValueType, a: AValue)
    requires ATypeOf(a) == typ
    ensures var r := CallNative(st, t, id, [Param("value", typ)], Print, [a]);
      r.res == Ok(AVoid) && r.st.lines == st.lines + [AText(st, a)] && r.st.ints == st.ints && r.st.strs == st.strs
  {
    BuiltinGetsArgument(st, t, id, typ, Print, a);
  }

  /** A builtin called with an argument of another type is refused before its body runs. */
  lemma BuiltinRefusesMistyped(st: Store, t: nat, id: string, typ: ValueType, body: BuiltinBody, a: AValue)
    requires ATypeOf(a) != typ
    ensures CallNative(st, t, id, [Param("value", typ)], body, [a]) == Step(Err(ArgumentTypeMismatch(id, 0, typ, ATypeOf(a))), st)
  {
    assert ATypesOf([a]) == [ATypeOf(a)];
  }
}
