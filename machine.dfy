/**
 * The interpreter's state as a value, for the big-step semantics: the
 * symbol tables, numbered in the order they were made, each with the
 * number of its parent; the `int` and `string` cells, numbered likewise;
 * and the lines printed so far. A value names a cell by its number, so
 * two bindings that share a cell hold the same number.
 */
module Machine {
  import opened Wrappers
  import JavaLang
  import Ast
  import opened Values

  /** A value of the semantics: a cell number, or a value without a cell. */
  datatype AValue =
    | AInt(ic: nat)
    | AStr(sc: nat)
    | AVoid
    | AFunction(id: string, params: seq<Param>, todo: Ast.Node)
    | ABuiltin(bid: string, bparams: seq<Param>, body: BuiltinBody)

  /** A symbol table: the number of its parent (negative for the global table) and its bindings. */
  datatype Table = Table(parent: int, vals: map<string, AValue>)

  datatype Store = Store(tables: seq<Table>, ints: seq<JavaLang.int32>, strs: seq<string>, lines: seq<string>)

  /** What a step of the semantics gives: a value or an error, and the store after it. */
  datatype Step = Step(res: Result<AValue, RuntimeError>, st: Store)

  function ATypeOf(a: AValue): ValueType {
    match a
    case AInt(_) => IntegerType
    case AStr(_) => StringType
    case AVoid => VoidType
    case AFunction(_, _, _) => FunctionType
    case ABuiltin(_, _, _) => FunctionType
  }

  function ATypesOf(args: seq<AValue>): (ts: seq<ValueType>)
    ensures |ts| == |args| && forall i :: 0 <= i < |args| ==> ts[i] == ATypeOf(args[i])
  {
    if args == [] then [] else [ATypeOf(args[0])] + ATypesOf(args[1..])
  }

  /** The payload a value holds in `st`; a cell number the store lacks reads as zero or empty. */
  function Read(st: Store, a: AValue): (p: Payload)
    ensures PayloadType(p) == ATypeOf(a)
  {
    match a
    case AInt(k) => IntP(if k < |st.ints| then st.ints[k] else 0)
    case AStr(k) => StrP(if k < |st.strs| then st.strs[k] else "")
    case _ => Opaque(ATypeOf(a))
  }

  /** A value's text in `st`, as `print` shows it. */
  function AText(st: Store, a: AValue): string {
    match a
    case AInt(_) => JavaLang.DecimalText(Read(st, a).i)
    case AStr(_) => Read(st, a).s
    case AVoid => "<void>"
    case AFunction(id, _, _) => "fun " + id
    case ABuiltin(id, _, _) => "[builtin] fun " + id
  }

  /** `st2` has the tables and cells of `st`, and the same parent links. */
  predicate SameShape(st: Store, st2: Store) {
    |st2.tables| == |st.tables| && |st2.ints| == |st.ints| && |st2.strs| == |st.strs| &&
    forall i :: 0 <= i < |st.tables| ==> st2.tables[i].parent == st.tables[i].parent
  }

  /** Every table's parent is an earlier table, or none. */
  predicate WellFormed(st: Store) {
    forall i :: 0 <= i < |st.tables| ==> -1 <= st.tables[i].parent < i
  }

  /** What `id` resolves to from table `t`: the nearest binding on its chain of parents. */
  function Resolve(st: Store, t: nat, id: string): Option<AValue>
    decreases t
  {
    if t >= |st.tables| then None
    else if id in st.tables[t].vals then Some(st.tables[t].vals[id])
    else if st.tables[t].parent < 0 || st.tables[t].parent >= t then None
    else Resolve(st, st.tables[t].parent, id)
  }

  /** `st` with `id` bound to `v` in table `t`. */
  function Bind(st: Store, t: nat, id: string, v: AValue): (r: Store)
    ensures SameShape(st, r) && r.ints == st.ints && r.strs == st.strs && r.lines == st.lines
    ensures t < |st.tables| ==> r.tables[t].vals == st.tables[t].vals[id := v]
    ensures forall i :: 0 <= i < |st.tables| && i != t ==> r.tables[i] == st.tables[i]
  {
    if t < |st.tables| then st.(tables := st.tables[t := Table(st.tables[t].parent, st.tables[t].vals[id := v])])
    else st
  }

  /**
   * `get` from table `t`: the nearest binding, which is then also bound
   * in every table on the way down from the one that holds it.
   */
  function Fetch(st: Store, t: nat, id: string): (r: Step)
    ensures r.res == if Resolve(st, t, id).Some? then Ok(Resolve(st, t, id).value) else Err(Unresolved(id))
    ensures SameShape(st, r.st) && r.st.ints == st.ints && r.st.strs == st.strs && r.st.lines == st.lines
    ensures forall i :: 0 <= i < |st.tables| ==>
      r.st.tables[i] == if Caches(st, t, id, i) then Table(st.tables[i].parent, st.tables[i].vals[id := r.res.value]) else st.tables[i]
    decreases t
  {
    if t >= |st.tables| then Step(Err(Unresolved(id)), st)
    else if id in st.tables[t].vals then Step(Ok(st.tables[t].vals[id]), st)
    else if st.tables[t].parent < 0 || st.tables[t].parent >= t then Step(Err(Unresolved(id)), st)
    else
      var above := Fetch(st, st.tables[t].parent, id);
      if above.res.Ok? then Step(above.res, Bind(above.st, t, id, above.res.value)) else above
  }

  /**
   * Table `i` is one that `get` from table `t` stores its answer in: it
   * lies on the chain from `t` up to, and not including, the table that
   * holds `id`, and some table does hold it.
   */
  predicate Caches(st: Store, t: nat, id: string, i: nat)
    decreases t
  {
    t < |st.tables| && id !in st.tables[t].vals && 0 <= st.tables[t].parent < t &&
    Resolve(st, st.tables[t].parent, id).Some? && (i == t || Caches(st, st.tables[t].parent, id, i))
  }

  /** `st` with a new table, child of `t`, holding `vals`; it is numbered `|st.tables|`. */
  function Open(st: Store, t: nat, vals: map<string, AValue>): (r: Store)
    ensures r.tables == st.tables + [Table(t, vals)] && r.ints == st.ints && r.strs == st.strs && r.lines == st.lines
  {
    st.(tables := st.tables + [Table(t, vals)])
  }

  /** A new `int` cell holding `n`. */
  function AllocInt(st: Store, n: JavaLang.int32): (r: Step)
    ensures r.res == Ok(AInt(|st.ints|)) && r.st.ints == st.ints + [n] && Read(r.st, r.res.value) == IntP(n)
    ensures r.st.tables == st.tables && r.st.strs == st.strs && r.st.lines == st.lines
  {
    Step(Ok(AInt(|st.ints|)), st.(ints := st.ints + [n]))
  }

  /** A new `string` cell holding `s`. */
  function AllocStr(st: Store, s: string): (r: Step)
    ensures r.res == Ok(AStr(|st.strs|)) && r.st.strs == st.strs + [s] && Read(r.st, r.res.value) == StrP(s)
    ensures r.st.tables == st.tables && r.st.ints == st.ints && r.st.lines == st.lines
  {
    Step(Ok(AStr(|st.strs|)), st.(strs := st.strs + [s]))
  }
}
