/**
 * Calling a function value: checking the arguments against the declared
 * parameters and binding them in a fresh child of the caller's table, and
 * the bodies of the builtins the entry point registers (`int`, `string`,
 * `print`, `length`) with the table that registers them.
 */
module Calls {
  import opened Wrappers
  import JavaLang
  import opened Values
  import opened Scope
  import opened Machine
  import ValueFacts

  /** What `print` has written, one line per call. */
  class Console {
    var lines: seq<string>

    constructor ()
      ensures lines == []
    {
      lines := [];
    }
  }

  /**
   * The first argument type, from `i` on, that is not its parameter's
   * declared type: every type before it matches.
   */
  function TypeCheckFrom(id: string, params: seq<Param>, ts: seq<ValueType>, i: nat): (e: Option<RuntimeError>)
    requires |params| == |ts| && i <= |params|
    ensures e.Some? ==> e.value.ArgumentTypeMismatch? && i <= e.value.index < |params|
    ensures e.Some? ==> e.value == ArgumentTypeMismatch(id, e.value.index, params[e.value.index].typ, ts[e.value.index])
    ensures e.Some? ==> ts[e.value.index] != params[e.value.index].typ
    ensures e.Some? ==> forall k :: i <= k < e.value.index ==> ts[k] == params[k].typ
    decreases |params| - i
  {
    if i == |params| then None
    else if ts[i] != params[i].typ then Some(ArgumentTypeMismatch(id, i, params[i].typ, ts[i]))
    else TypeCheckFrom(id, params, ts, i + 1)
  }

  /** Why `setUpSymbolTable` refuses a call with these argument types, if it does: the arity first, then the first mistyped argument. */
  function SetUpCheck(id: string, params: seq<Param>, ts: seq<ValueType>): (e: Option<RuntimeError>)
    ensures e.None? ==> |params| == |ts|
  {
    if |params| != |ts| then Some(ArityMismatch(id, |params|, |ts|))
    else TypeCheckFrom(id, params, ts, 0)
  }

  /** The parameter bindings, made left to right, so a repeated name holds its last argument. */
  function Bindings<V>(params: seq<Param>, args: seq<V>): map<string, V>
    requires |params| == |args|
  {
    if params == [] then map[]
    else Bindings(params[..|params| - 1], args[..|args| - 1])[params[|params| - 1].name := args[|args| - 1]]
  }

  /** The type check from `i` passes exactly when every type from `i` on is its parameter's type. */
  lemma {:induction false} TypeCheckFromNone(id: string, params: seq<Param>, ts: seq<ValueType>, i: nat)
    requires |params| == |ts| && i <= |params|
    ensures TypeCheckFrom(id, params, ts, i).None? <==> forall j :: i <= j < |params| ==> ts[j] == params[j].typ
    decreases |params| - i
  {
    if i < |params| {
      TypeCheckFromNone(id, params, ts, i + 1);
    }
  }

  /** A call is set up exactly when the argument types are the parameter types, position by position. */
  lemma SetUpSucceedsIffTypesMatch(id: string, params: seq<Param>, ts: seq<ValueType>)
    ensures SetUpCheck(id, params, ts).None? <==> ts == ParamTypes(params)
  {
    if |params| == |ts| {
      TypeCheckFromNone(id, params, ts, 0);
    }
  }

  /**
   * A call whose overload key is the declaration's key always passes the
   * checks of `setUpSymbolTable`: resolution by key already matched the
   * types.
   */
  lemma ResolvedCallsSetUp(name: string, params: seq<Param>, args: seq<Value>)
    requires MangleCallerSide(name, args) == MangleFunctionSide(name, params)
    ensures SetUpCheck(MangleFunctionSide(name, params), params, TypesOf(args)).None?
  {
    ValueFacts.KeysMatchExactly(name, args, params);
    SetUpSucceedsIffTypesMatch(MangleFunctionSide(name, params), params, TypesOf(args));
  }

  /** Exactly the parameter names are bound. */
  lemma {:induction false} BindingsKeys<V>(params: seq<Param>, args: seq<V>)
    requires |params| == |args|
    ensures Bindings(params, args).Keys == set i | 0 <= i < |params| :: params[i].name
  {
    if params != [] {
      var n := |params| - 1;
      BindingsKeys(params[..n], args[..n]);
      assert (set i | 0 <= i < |params| :: params[i].name) == (set i | 0 <= i < n :: params[..n][i].name) + {params[n].name};
    }
  }

  /** A parameter whose name is not repeated later holds its own argument. */
  lemma {:induction false} BindingsValues<V>(params: seq<Param>, args: seq<V>, i: nat)
    requires |params| == |args| && i < |params|
    requires forall j :: i < j < |params| ==> params[j].name != params[i].name
    ensures params[i].name in Bindings(params, args) && Bindings(params, args)[params[i].name] == args[i]
  {
    var n := |params| - 1;
    if i < n {
      assert params[..n][i] == params[i];
      BindingsValues(params[..n], args[..n], i);
    }
  }

  /**
   * `setUpSymbolTable`: refuses a call with the wrong number of arguments
   * or a mistyped one, and otherwise binds every parameter name to its
   * argument in a fresh child of the caller's table.
   */
  method SetUpSymbolTable(context: SymbolTable, id: string, params: seq<Param>, args: seq<Value>)
    returns (r: Result<SymbolTable, RuntimeError>)
    requires context.Linked()
    ensures SetUpCheck(id, params, TypesOf(args)).Some? ==> r == Err(SetUpCheck(id, params, TypesOf(args)).value)
    ensures SetUpCheck(id, params, TypesOf(args)).None? ==>
      r.Ok? && fresh(r.value) && r.value.parent == context && r.value.Linked() &&
      |params| == |args| && r.value.values == Bindings(params, args)
  {
    if |params| != |args| {
      return Err(ArityMismatch(id, |params|, |args|));
    }
    ghost var ts := TypesOf(args);
    var symb := new SymbolTable(context);
    var i := 0;
    while i < |params|
      invariant 0 <= i <= |params|
      invariant TypeCheckFrom(id, params, ts, 0) == TypeCheckFrom(id, params, ts, i)
      invariant fresh(symb) && symb.parent == context && symb.Linked()
      invariant symb.values == Bindings(params[..i], args[..i])
    {
      if TypeOf(args[i]) != params[i].typ {
        return Err(ArgumentTypeMismatch(id, i, params[i].typ, TypeOf(args[i])));
      }
      assert params[..i + 1][..i] == params[..i] && args[..i + 1][..i] == args[..i];
      symb.Add(params[i].name, args[i]);
      i := i + 1;
    }
    assert params[..i] == params && args[..i] == args;
    return Ok(symb);
  }

  /** The payload-level result of a builtin body, given the value bound to `value`: a new cell, the value itself, or a printed line. */
  datatype Outcome = MakeInt(n: JavaLang.int32) | MakeStr(s: string) | Same | Printed(line: string)

  /**
   * What a builtin body does with its argument's payload and text: `int`
   * gives an integer back and parses a string, `string` gives a string
   * back and writes out an integer, `print` prints any value, and `length`
   * counts a string's characters; other argument types are refused.
   */
  function OutcomeOf(body: BuiltinBody, p: Payload, text: string): (o: Result<Outcome, RuntimeError>)
    ensures o.Ok? && o.value.Printed? <==> body == Print
    ensures o.Ok? && o.value.Printed? ==> o.value.line == text
    ensures o.Ok? && o.value.Same? ==> (body == ToInt && p.IntP?) || (body == ToStr && p.StrP?)
  {
    match body
    case ToInt =>
      (match p
       case IntP(_) => Ok(Same)
       case StrP(s) => (match JavaLang.ParseInt(s)
                        case Some(n) => Ok(MakeInt(n))
                        case None => Err(NumberFormat(s)))
       case _ => Err(NotConvertible(PayloadType(p))))
    case ToStr =>
      (match p
       case IntP(i) => Ok(MakeStr(JavaLang.DecimalText(i)))
       case StrP(_) => Ok(Same)
       case _ => Err(NotConvertible(PayloadType(p))))
    case Print => Ok(Printed(text))
    case Length =>
      (match p
       case StrP(s) => Ok(MakeInt(JavaLang.Wrap(|s|)))
       case _ => Err(ClassCast(StringType, PayloadType(p))))
  }

  /** What a builtin body does with the value `v` as it is now. */
  function BuiltinOutcome(body: BuiltinBody, v: Value): Result<Outcome, RuntimeError>
    reads Cells(v)
  {
    OutcomeOf(body, Snap(v), Text(v))
  }

  /**
   * What running a builtin body on `v` did, by the outcome `BuiltinOutcome`
   * names: the result, any new cell, and the one line `print` writes.
   */
  twostate predicate Applied(body: BuiltinBody, new v: Value, new r: Result<Value, RuntimeError>, out: Console)
    reads out, Cells(v), if r.Ok? then Cells(r.value) else {}
  {
    match BuiltinOutcome(body, v)
    case Err(e) => r == Err(e) && out.lines == old(out.lines)
    case Ok(Same) => r == Ok(v) && out.lines == old(out.lines)
    case Ok(MakeInt(n)) => r.Ok? && r.value.Int? && fresh(r.value.icell) && r.value.icell.value == n && out.lines == old(out.lines)
    case Ok(MakeStr(s)) => r.Ok? && r.value.Str? && fresh(r.value.scell) && r.value.scell.value == s && out.lines == old(out.lines)
    case Ok(Printed(line)) => r == Ok(Void) && out.lines == old(out.lines) + [line]
  }

  /** The heap is the store `st` under the numbering `U`, and the console holds the store's lines. */
  ghost predicate Holds(U: Universe, st: Store, out: Console)
    reads out, U.tabs, U.ints, U.strs
  {
    Models(U, st) && out.lines == st.lines
  }

  /**
   * A builtin body run on the value `a` in the store: only `print`
   * writes, exactly one line, the value's text, and gives void; the
   * tables are untouched.
   */
  function NativeStep(st: Store, body: BuiltinBody, a: AValue): (r: Step)
    ensures r.st.tables == st.tables
    ensures r.st.lines == if body == Print then st.lines + [AText(st, a)] else st.lines
    ensures body == Print ==> r.res == Ok(AVoid)
  {
    match OutcomeOf(body, Read(st, a), AText(st, a))
    case Err(e) => Step(Err(e), st)
    case Ok(Same) => Step(Ok(a), st)
    case Ok(MakeInt(n)) => AllocInt(st, n)
    case Ok(MakeStr(s)) => AllocStr(st, s)
    case Ok(Printed(line)) => Step(Ok(AVoid), st.(lines := st.lines + [line]))
  }

  /** A builtin's body run on table `f`: the argument is what `value` resolves to there, fetched as `get` does. */
  function RunBuiltin(st: Store, f: nat, body: BuiltinBody): (r: Step)
    ensures Resolve(st, f, "value").None? ==> r == Step(Err(Unresolved("value")), st)
    ensures Resolve(st, f, "value").Some? ==> r == NativeStep(Fetch(st, f, "value").st, body, Resolve(st, f, "value").value)
  {
    var v := Fetch(st, f, "value");
    if v.res.Err? then v else NativeStep(v.st, body, v.res.value)
  }

  /** An agreeing value has, in the heap, the payload and text it has in the store. */
  lemma SnapRead(U: Universe, st: Store, v: Value, a: AValue)
    requires CellsModel(U, st) && Rel(U, v, a)
    ensures Snap(v) == Read(st, a) && Text(v) == AText(st, a)
  {
  }

  /** Values that agree under a numbering agree under any numbering extending it. */
  lemma MapRelGrow(U: Universe, U2: Universe, m: map<string, Value>, am: map<string, AValue>)
    requires MapRel(U, m, am) && Extends(U, U2)
    ensures MapRel(U2, m, am)
  {
    forall k | k in m
      ensures Rel(U2, m[k], am[k])
    {
      match m[k]
      case Int(c) => assert U2.ints[am[k].ic] == U.ints[am[k].ic];
      case Str(c) => assert U2.strs[am[k].sc] == U.strs[am[k].sc];
      case _ =>
    }
  }

  /** A new integer cell, numbered next, keeps the heap the store's. */
  lemma HoldsNewInt(U: Universe, st: Store, out: Console, c: IntegerValue, n: JavaLang.int32)
    requires Holds(U, st, out) && c !in U.ints && c.value == n
    ensures Holds(U.(ints := U.ints + [c]), AllocInt(st, n).st, out)
    ensures Extends(U, U.(ints := U.ints + [c]))
  {
    var U2 := U.(ints := U.ints + [c]);
    DistinctAppend(U.ints, c);
    forall i | 0 <= i < |U.tabs|
      ensures MapRel(U2, U2.tabs[i].values, st.tables[i].vals)
    {
      MapRelGrow(U, U2, U.tabs[i].values, st.tables[i].vals);
    }
  }

  /** A new string cell, numbered next, keeps the heap the store's. */
  lemma HoldsNewStr(U: Universe, st: Store, out: Console, c: StringValue, s: string)
    requires Holds(U, st, out) && c !in U.strs && c.value == s
    ensures Holds(U.(strs := U.strs + [c]), AllocStr(st, s).st, out)
    ensures Extends(U, U.(strs := U.strs + [c]))
  {
    var U2 := U.(strs := U.strs + [c]);
    DistinctAppend(U.strs, c);
    forall i | 0 <= i < |U.tabs|
      ensures MapRel(U2, U2.tabs[i].values, st.tables[i].vals)
    {
      MapRelGrow(U, U2, U.tabs[i].values, st.tables[i].vals);
    }
  }

  /** A new child of table `t`, numbered next and holding agreeing bindings, keeps the heap the store's. */
  lemma HoldsOpen(U: Universe, st: Store, out: Console, s: SymbolTable, t: nat, vals: map<string, AValue>)
    requires Holds(U, st, out) && s !in U.tabs && t < |U.tabs| && s.Linked() && s.parent == U.tabs[t]
    requires MapRel(U, s.values, vals)
    ensures Holds(U.(tabs := U.tabs + [s]), Open(st, t, vals), out)
    ensures Extends(U, U.(tabs := U.tabs + [s]))
  {
    var U2 := U.(tabs := U.tabs + [s]);
    var st2 := Open(st, t, vals);
    DistinctAppend(U.tabs, s);
    forall i | 0 <= i < |U2.tabs|
      ensures MapRel(U2, U2.tabs[i].values, st2.tables[i].vals)
    {
      if i < |U.tabs| {
        MapRelGrow(U, U2, U.tabs[i].values, st.tables[i].vals);
      } else {
        MapRelGrow(U, U2, s.values, vals);
      }
    }
  }

  /** A builtin's body, run on the table its call set up; the argument is whatever `value` resolves to there. */
  method CallBuiltin(symb: SymbolTable, body: BuiltinBody, out: Console, ghost U: Universe, ghost st: Store, ghost fi: nat)
    returns (r: Result<Value, RuntimeError>, ghost U2: Universe)
    requires symb.Linked() && Holds(U, st, out) && fi < |U.tabs| && U.tabs[fi] == symb
    modifies symb.Chain(), out
    ensures Holds(U2, RunBuiltin(st, fi, body).st, out) && Grown(U, U2) && Refines(U2, r, RunBuiltin(st, fi, body).res)
  {
    var v := Argument(symb, U, st, fi);
    if v.Err? {
      return v, U;
    }
    ghost var fetched := Fetch(st, fi, "value");
    r, U2 := ApplyBuiltin(body, v.value, out, U, fetched.st, fetched.res.value);
  }

  /** `context.get("value")`: the argument a builtin body reads, the tables only gaining bindings. */
  method Argument(symb: SymbolTable, ghost U: Universe, ghost st: Store, ghost fi: nat) returns (r: Result<Value, RuntimeError>)
    requires symb.Linked() && Models(U, st) && fi < |U.tabs| && U.tabs[fi] == symb
    modifies symb.Chain()
    ensures r == if old(symb.Lookup("value")).Some? then Ok(old(symb.Lookup("value")).value) else Err(Unresolved("value"))
    ensures Models(U, Fetch(st, fi, "value").st) && Refines(U, r, Fetch(st, fi, "value").res)
  {
    r := symb.TrackedGet("value", U, st, fi);
    ShapeKept(U, st, Fetch(st, fi, "value").st);
  }

  /** The native body applied to the argument: the outcome `BuiltinOutcome` names, carried out. */
  method ApplyBuiltin(body: BuiltinBody, v: Value, out: Console, ghost U: Universe, ghost st: Store, ghost a: AValue)
    returns (r: Result<Value, RuntimeError>, ghost U2: Universe)
    requires Holds(U, st, out) && Rel(U, v, a)
    modifies out
    ensures Applied(body, v, r, out)
    ensures Holds(U2, NativeStep(st, body, a).st, out) && Grown(U, U2) && Refines(U2, r, NativeStep(st, body, a).res)
  {
    SnapRead(U, st, v, a);
    U2 := U;
    match BuiltinOutcome(body, v)
    case Err(e) =>
      return Err(e), U2;
    case Ok(Same) =>
      return Ok(v), U2;
    case Ok(MakeInt(n)) =>
      var c := new IntegerValue(n);
      HoldsNewInt(U, st, out, c, n);
      return Ok(Int(c)), U.(ints := U.ints + [c]);
    case Ok(MakeStr(s)) =>
      var c := new StringValue(s);
      HoldsNewStr(U, st, out, c, s);
      return Ok(Str(c)), U.(strs := U.strs + [c]);
    case Ok(Printed(line)) =>
      out.lines := out.lines + [line];
      return Ok(Void), U2;
  }

  /** `int` and `string` undo each other: an integer written out and parsed back is the same integer. */
  lemma IntStringRoundTrip(c: IntegerValue, d: StringValue)
    requires d.value == JavaLang.DecimalText(c.value)
    ensures BuiltinOutcome(ToStr, Int(c)) == Ok(MakeStr(d.value))
    ensures BuiltinOutcome(ToInt, Str(d)) == Ok(MakeInt(c.value))
  {
    JavaLang.ParseIntOfDecimalText(c.value);
  }

  /** The builtins the entry point registers, each with its one parameter `value` and its type. */
  const BUILTINS: seq<(string, ValueType, BuiltinBody)> := [
    ("int", StringType, ToInt), ("int", IntegerType, ToInt),
    ("string", StringType, ToStr), ("string", IntegerType, ToStr),
    ("print", IntegerType, Print), ("print", StringType, Print),
    ("print", FunctionType, Print), ("print", VoidType, Print),
    ("length", StringType, Length)]

  /** The binding a builtin registration makes. */
  function BuiltinEntry(b: (string, ValueType, BuiltinBody)): (string, Value) {
    var params := [Param("value", b.1)];
    (MangleFunctionSide(b.0, params), Builtin(MangleFunctionSide(b.0, params), params, b.2))
  }

  /** The bindings a sequence of builtin registrations makes, in order. */
  function Registered(bs: seq<(string, ValueType, BuiltinBody)>): map<string, Value> {
    if bs == [] then map[]
    else Registered(bs[..|bs| - 1])[BuiltinEntry(bs[|bs| - 1]).0 := BuiltinEntry(bs[|bs| - 1]).1]
  }

  /** Registrations bind nothing but builtins. */
  lemma {:induction false} RegisteredBuiltins(bs: seq<(string, ValueType, BuiltinBody)>)
    ensures forall k :: k in Registered(bs) ==> Registered(bs)[k].Builtin?
    ensures CellsOf(Registered(bs)) == {}
  {
    if bs != [] {
      RegisteredBuiltins(bs[..|bs| - 1]);
    }
  }

  /**
   * The global table the entry point builds: the builtins under their
   * overload keys, and `true` and `false` bound to the integers 1 and 0.
   */
  method Prelude() returns (global: SymbolTable, ghost yes: IntegerValue, ghost no: IntegerValue)
    ensures fresh(global) && global.parent == null && global.Linked()
    ensures fresh(yes) && fresh(no) && yes.value == 1 && no.value == 0
    ensures global.values == Registered(BUILTINS)["true" := Int(yes)]["false" := Int(no)]
    ensures global.Reach() <= {yes, no}
  {
    global := new SymbolTable(null);
    RegisterBuiltins(global);
    RegisteredBuiltins(BUILTINS);
    assert global.Reach() == {};
    var one := new IntegerValue(1);
    var zero := new IntegerValue(0);
    global.Add("true", Int(one));
    global.Add("false", Int(zero));
    yes, no := one, zero;
  }

  /** The nine registrations of `Main.main`, in its order, into an empty table. */
  method RegisterBuiltins(global: SymbolTable)
    requires global.values == map[]
    modifies global
    ensures global.values == Registered(BUILTINS)
  {
    assert BUILTINS[..0] == [];
    global.AddBuiltinFunc("int", [Param("value", StringType)], ToInt);
    RegisteredStep(BUILTINS, 0, ("int", StringType, ToInt), global.values);
    global.AddBuiltinFunc("int", [Param("value", IntegerType)], ToInt);
    RegisteredStep(BUILTINS, 1, ("int", IntegerType, ToInt), global.values);
    global.AddBuiltinFunc("string", [Param("value", StringType)], ToStr);
    RegisteredStep(BUILTINS, 2, ("string", StringType, ToStr), global.values);
    global.AddBuiltinFunc("string", [Param("value", IntegerType)], ToStr);
    RegisteredStep(BUILTINS, 3, ("string", IntegerType, ToStr), global.values);
    global.AddBuiltinFunc("print", [Param("value", IntegerType)], Print);
    RegisteredStep(BUILTINS, 4, ("print", IntegerType, Print), global.values);
    global.AddBuiltinFunc("print", [Param("value", StringType)], Print);
    RegisteredStep(BUILTINS, 5, ("print", StringType, Print), global.values);
    global.AddBuiltinFunc("print", [Param("value", FunctionType)], Print);
    RegisteredStep(BUILTINS, 6, ("print", FunctionType, Print), global.values);
    global.AddBuiltinFunc("print", [Param("value", VoidType)], Print);
    RegisteredStep(BUILTINS, 7, ("print", VoidType, Print), global.values);
    global.AddBuiltinFunc("length", [Param("value", StringType)], Length);
    RegisteredStep(BUILTINS, 8, ("length", StringType, Length), global.values);
    assert BUILTINS[..9] == BUILTINS;
  }

  /** One more registration extends the bindings of the ones before it. */
  lemma RegisteredStep(bs: seq<(string, ValueType, BuiltinBody)>, k: int, b: (string, ValueType, BuiltinBody), m: map<string, Value>)
    requires 0 <= k < |bs| && bs[k] == b
    requires m == Registered(bs[..k])[MangleFunctionSide(b.0, [Param("value", b.1)]) :=
      Builtin(MangleFunctionSide(b.0, [Param("value", b.1)]), [Param("value", b.1)], b.2)]
    ensures m == Registered(bs[..k + 1])
  {
    assert bs[..k + 1][..k] == bs[..k];
  }
}
