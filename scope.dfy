/**
 * The symbol table: a map from names to values with a link to the
 * enclosing table. A name found in an ancestor is cached in every table
 * on the way down, and the cache holds the very same value (so the same
 * cells).
 */
module Scope {
  import opened Wrappers
  import opened Values
  import opened Machine

  class SymbolTable {
    var values: map<string, Value>
    const parent: SymbolTable?
    /** The number of ancestors; it makes the parent chain well-founded. */
    ghost const depth: nat

    /** A table with no bindings, global when `parent` is null. */
    constructor (parent: SymbolTable?)
      requires parent != null ==> parent.Linked()
      ensures this.parent == parent && values == map[] && Linked()
    {
      this.parent := parent;
      depth := if parent == null then 0 else parent.depth + 1;
      values := map[];
    }

    /** Every ancestor is deeper up: the chain of parents ends. */
    ghost predicate Linked()
      decreases depth
    {
      parent != null ==> parent.depth < depth && parent.Linked()
    }

    /** This table and all its ancestors. */
    ghost function Chain(): (c: set<SymbolTable>)
      requires Linked()
      ensures this in c && forall t :: t in c ==> t.depth <= depth && t.Linked()
      decreases depth
    {
      {this} + (if parent == null then {} else parent.Chain())
    }

    /** What `get` finds for `id`: the nearest binding on the chain. */
    ghost function Lookup(id: string): Option<Value>
      requires Linked()
      reads Chain()
      decreases depth
    {
      if id in values then Some(values[id])
      else if parent == null then None
      else parent.Lookup(id)
    }

    /** The depth of the table that holds the nearest binding of `id`, or -1. */
    ghost function HolderDepth(id: string): (h: int)
      requires Linked()
      reads Chain()
      ensures -1 <= h <= depth
      ensures h == -1 <==> Lookup(id).None?
      decreases depth
    {
      if id in values then depth
      else if parent == null then -1
      else parent.HolderDepth(id)
    }

    /** The cells the values bound on the chain refer to. */
    ghost function Reach(): set<object>
      requires Linked()
      reads Chain()
      decreases depth
    {
      Local() + (if parent == null then {} else parent.Reach())
    }

    /** The cells the values bound in this table refer to. */
    ghost function Local(): set<object>
      reads this
    {
      CellsOf(values)
    }

    /**
     * `get`: the local binding if there is one; otherwise the parent's
     * answer, which is then stored here too. Every table between this one
     * and the holder ends up with a binding of `id` to the same value,
     * and no other binding changes.
     */
    method Get(id: string) returns (r: Result<Value, RuntimeError>)
      requires Linked()
      modifies Chain()
      ensures forall t :: t in Chain() ==> old(allocated(t))
      ensures old(Lookup(id)).None? ==> r == Err(Unresolved(id))
      ensures old(Lookup(id)).Some? ==> r == Ok(old(Lookup(id)).value)
      ensures forall t :: t in Chain() ==>
        t.values == if r.Ok? && t.depth > old(HolderDepth(id)) then old(t.values)[id := r.value] else old(t.values)
      ensures forall t :: t in Chain() && t.depth > old(HolderDepth(id)) ==>
        id !in old(t.values) && old(t.Lookup(id)) == old(Lookup(id))
      ensures Reach() == old(Reach())
      decreases depth, 1
    {
      ChainAllocated();
      AboveHolder(id);
      if id in values {
        return Ok(values[id]);
      }
      if parent == null {
        return Err(Unresolved(id));
      }
      r := Inherit(id);
    }

    /** `get` for a name not bound here: ask the parent, and keep its answer here too. */
    method Inherit(id: string) returns (r: Result<Value, RuntimeError>)
      requires id !in values && parent != null
      requires Linked()
      modifies Chain()
      ensures forall t :: t in Chain() ==> old(allocated(t))
      ensures old(Lookup(id)).None? ==> r == Err(Unresolved(id))
      ensures old(Lookup(id)).Some? ==> r == Ok(old(Lookup(id)).value)
      ensures forall t :: t in Chain() ==>
        t.values == if r.Ok? && t.depth > old(HolderDepth(id)) then old(t.values)[id := r.value] else old(t.values)
      ensures forall t :: t in Chain() && t.depth > old(HolderDepth(id)) ==>
        id !in old(t.values) && old(t.Lookup(id)) == old(Lookup(id))
      ensures Reach() == old(Reach())
      decreases depth, 0
    {
      ChainAllocated();
      assert this !in parent.Chain();
      assert HolderDepth(id) == parent.HolderDepth(id) && Lookup(id) == parent.Lookup(id);
      parent.LookupInReach(id);
      ghost var local := Local();
      r := parent.Get(id);
      ghost var above := parent.Reach();
      if r.Ok? {
        CellsOfUpdate(values, id, r.value);
        values := values[id := r.value];
        assert Local() == local + Cells(r.value);
      }
      assert parent.Reach() == above;
      assert Reach() == Local() + above;
    }

    /**
     * `get`, followed in the store: the answer and the tables afterwards
     * are those `Fetch` gives from this table's number.
     */
    method TrackedGet(id: string, ghost U: Universe, ghost st: Store, ghost ti: nat) returns (r: Result<Value, RuntimeError>)
      requires Linked() && Shape(U, st) && TablesModel(U, st) && ti < |U.tabs| && U.tabs[ti] == this
      modifies Chain()
      ensures r == if old(Lookup(id)).Some? then Ok(old(Lookup(id)).value) else Err(Unresolved(id))
      ensures TablesModel(U, Fetch(st, ti, id).st) && Refines(U, r, Fetch(st, ti, id).res)
    {
      CachedTables(U, st, ti, id);
      r := Get(id);
      forall i | 0 <= i < |U.tabs|
        ensures MapRel(U, U.tabs[i].values, Fetch(st, ti, id).st.tables[i].vals)
      {
        assert old(MapRel(U, U.tabs[i].values, st.tables[i].vals));
        if Caches(st, ti, id, i) {
          MapRelBind(U, old(U.tabs[i].values), st.tables[i].vals, id, r.value, Fetch(st, ti, id).res.value);
        }
      }
    }

    /** Every table above the holder of `id` lacks it and looks it up on the holder. */
    lemma {:induction false} AboveHolder(id: string)
      requires Linked()
      ensures forall t :: t in Chain() && t.depth > HolderDepth(id) ==> id !in t.values && t.Lookup(id) == Lookup(id)
      decreases depth
    {
      if id !in values && parent != null {
        parent.AboveHolder(id);
      }
    }

    /** The tables on the chain exist. */
    lemma {:induction false} ChainAllocated()
      requires Linked()
      ensures forall t :: t in Chain() ==> allocated(t)
      decreases depth
    {
      if parent != null {
        parent.ChainAllocated();
      }
    }

    /** A value found on the chain refers only to cells the chain reaches. */
    lemma {:induction false} LookupInReach(id: string)
      requires Linked()
      ensures Lookup(id).Some? ==> Cells(Lookup(id).value) <= Reach()
      decreases depth
    {
      if id !in values && parent != null {
        parent.LookupInReach(id);
      }
    }

    /** `add`: binds `id` here, replacing a binding of `id` in this table only. */
    method Add(id: string, val: Value)
      modifies this
      ensures values == old(values)[id := val]
      ensures Local() <= old(Local()) + Cells(val)
      ensures Linked() ==> Reach() <= old(Reach()) + Cells(val)
    {
      CellsOfUpdate(values, id, val);
      values := values[id := val];
      assert Linked() && parent != null ==> this !in parent.Chain();
    }

    /** `addBuiltinFunc`: binds a builtin under its overload key. */
    method AddBuiltinFunc(id: string, params: seq<Param>, body: BuiltinBody)
      modifies this
      ensures values == old(values)[MangleFunctionSide(id, params) := Builtin(MangleFunctionSide(id, params), params, body)]
    {
      var f := Builtin(MangleFunctionSide(id, params), params, body);
      Add(f.bid, f);
    }
  }

  /** The cells the values of a map refer to. */
  ghost function CellsOf(m: map<string, Value>): set<object> {
    set k, o | k in m && o in Cells(m[k]) :: o
  }

  /** Binding a name adds at most the new value's cells, and exactly those when the name was unbound. */
  lemma CellsOfUpdate(m: map<string, Value>, id: string, v: Value)
    ensures CellsOf(m[id := v]) <= CellsOf(m) + Cells(v)
    ensures id !in m ==> CellsOf(m[id := v]) == CellsOf(m) + Cells(v)
  {
    var m' := m[id := v];
    forall o | id !in m && o in CellsOf(m) + Cells(v)
      ensures o in CellsOf(m')
    {
      if o in Cells(v) {
        assert o in Cells(m'[id]);
      } else {
        var k :| k in m && o in Cells(m[k]);
        assert o in Cells(m'[k]);
      }
    }
  }

  /** The chain of a table on a chain lies inside it. */
  lemma {:induction false} ChainClosed(t: SymbolTable)
    requires t.Linked()
    ensures forall u :: u in t.Chain() ==> u.Chain() <= t.Chain()
    decreases t.depth
  {
    if t.parent != null {
      ChainClosed(t.parent);
    }
  }

  /** A snapshot of the bindings of some tables. */
  type Snapshot = map<SymbolTable, map<string, Value>>

  /** `Lookup` read off a snapshot instead of the heap. */
  ghost function Find(t: SymbolTable, m: Snapshot, id: string): Option<Value>
    requires t.Linked() && t.Chain() <= m.Keys
    decreases t.depth
  {
    if id in m[t] then Some(m[t][id])
    else if t.parent == null then None
    else Find(t.parent, m, id)
  }

  /** A snapshot that holds the tables' current bindings resolves like the heap does. */
  lemma {:induction false} LookupIsFind(t: SymbolTable, m: Snapshot, id: string)
    requires t.Linked() && t.Chain() <= m.Keys
    requires forall u :: u in t.Chain() ==> m[u] == u.values
    ensures t.Lookup(id) == Find(t, m, id)
    decreases t.depth
  {
    if id !in t.values && t.parent != null {
      assert t.Chain() == {t} + t.parent.Chain();
      LookupIsFind(t.parent, m, id);
    }
  }

  /**
   * `m1` differs from `m0` only by cache entries: every binding of `m0` is
   * kept, and every new one holds what `m0` resolved that name to there.
   */
  ghost predicate CachedFrom(t: SymbolTable, m0: Snapshot, m1: Snapshot)
    requires t.Linked() && t.Chain() <= m0.Keys && t.Chain() <= m1.Keys
  {
    ChainClosed(t);
    forall u :: u in t.Chain() ==>
      (forall k :: k in m0[u] ==> k in m1[u] && m1[u][k] == m0[u][k]) &&
      (forall k :: k in m1[u] && k !in m0[u] ==> Find(u, m0, k) == Some(m1[u][k]))
  }

  /** `get`'s cache is invisible: after cache entries are added, every name resolves as before. */
  lemma {:induction false} CachingIsInvisible(t: SymbolTable, m0: Snapshot, m1: Snapshot, id: string)
    requires t.Linked() && t.Chain() <= m0.Keys && t.Chain() <= m1.Keys
    requires CachedFrom(t, m0, m1)
    ensures Find(t, m1, id) == Find(t, m0, id)
    decreases t.depth
  {
    if id !in m1[t] && t.parent != null {
      assert t.Chain() == {t} + t.parent.Chain();
      CachingIsInvisible(t.parent, m0, m1, id);
    }
  }

  /**
   * The objects the semantics' numbers stand for: `tabs[i]` is table `i`,
   * `ints[k]` and `strs[k]` are cell `k` of each kind.
   */
  datatype Universe = Universe(tabs: seq<SymbolTable>, ints: seq<IntegerValue>, strs: seq<StringValue>)

  /** No object stands for two numbers. */
  ghost predicate Distinct<T>(s: seq<T>) {
    forall i, j :: 0 <= i < j < |s| ==> Apart(s, i, j)
  }

  /** Entries `i` and `j` of `s` differ. */
  ghost predicate Apart<T>(s: seq<T>, i: nat, j: nat)
    requires i < |s| && j < |s|
  {
    s[i] != s[j]
  }

  /** Two different numbers stand for different objects. */
  lemma DistinctAt<T>(s: seq<T>, i: nat, j: nat)
    requires Distinct(s) && i < |s| && j < |s| && i != j
    ensures s[i] != s[j]
  {
    if i < j {
      assert Apart(s, i, j);
    } else {
      assert Apart(s, j, i);
    }
  }

  /** A new object numbered next keeps the numbering one-to-one. */
  lemma DistinctAppend<T>(s: seq<T>, x: T)
    requires Distinct(s) && x !in s
    ensures Distinct(s + [x])
  {
    forall i, j | 0 <= i < j < |s| + 1
      ensures Apart(s + [x], i, j)
    {
      if j < |s| {
        assert Apart(s, i, j);
      }
    }
  }

  /** A value and a value of the semantics agree: the same cell, or the same cell-free value. */
  ghost predicate Rel(U: Universe, v: Value, a: AValue) {
    match v
    case Int(c) => a.AInt? && a.ic < |U.ints| && U.ints[a.ic] == c
    case Str(c) => a.AStr? && a.sc < |U.strs| && U.strs[a.sc] == c
    case Void => a == AVoid
    case Function(id, ps, b) => a == AFunction(id, ps, b)
    case Builtin(id, ps, b) => a == ABuiltin(id, ps, b)
  }

  /** Two binding maps agree: the same names, bound to agreeing values. */
  ghost predicate MapRel(U: Universe, m: map<string, Value>, am: map<string, AValue>) {
    m.Keys == am.Keys && forall k :: k in m ==> Rel(U, m[k], am[k])
  }

  /** A result and a result of the semantics agree: the same error, or agreeing values. */
  ghost predicate Refines(U: Universe, r: Result<Value, RuntimeError>, s: Result<AValue, RuntimeError>) {
    match r
    case Ok(v) => s.Ok? && Rel(U, v, s.value)
    case Err(e) => s == Err(e)
  }

  /** The numbering fits the store and the tables' parent links are the store's. */
  ghost predicate Shape(U: Universe, st: Store) {
    |U.tabs| == |st.tables| && |U.ints| == |st.ints| && |U.strs| == |st.strs| && WellFormed(st) &&
    (forall i :: 0 <= i < |U.tabs| ==>
       U.tabs[i].Linked() && U.tabs[i].parent == (if st.tables[i].parent < 0 then null else U.tabs[st.tables[i].parent])) &&
    Distinct(U.tabs) && Distinct(U.ints) && Distinct(U.strs)
  }

  /** Every table's bindings agree with the store's. */
  ghost predicate TablesModel(U: Universe, st: Store)
    reads U.tabs
  {
    |U.tabs| == |st.tables| && forall i :: 0 <= i < |U.tabs| ==> MapRel(U, U.tabs[i].values, st.tables[i].vals)
  }

  /** Every cell holds the store's payload. */
  ghost predicate CellsModel(U: Universe, st: Store)
    reads U.ints, U.strs
  {
    |U.ints| == |st.ints| && |U.strs| == |st.strs| &&
    (forall k :: 0 <= k < |U.ints| ==> U.ints[k].value == st.ints[k]) &&
    (forall k :: 0 <= k < |U.strs| ==> U.strs[k].value == st.strs[k])
  }

  /** The heap is the store `st` under the numbering `U`. */
  ghost predicate Models(U: Universe, st: Store)
    reads U.tabs, U.ints, U.strs
  {
    Shape(U, st) && TablesModel(U, st) && CellsModel(U, st)
  }

  /** `U2` numbers every object `U1` does, the same way. */
  ghost predicate Extends(U1: Universe, U2: Universe) {
    U1.tabs <= U2.tabs && U1.ints <= U2.ints && U1.strs <= U2.strs
  }

  /** `U2` extends `U`, and every object it adds did not exist in the earlier state. */
  twostate predicate Grown(U: Universe, new U2: Universe) {
    Extends(U, U2) &&
    (forall i :: 0 <= i < |U2.tabs| ==> i < |U.tabs| || var o := U2.tabs[i]; !old(allocated(o))) &&
    (forall i :: 0 <= i < |U2.ints| ==> i < |U.ints| || var o := U2.ints[i]; !old(allocated(o))) &&
    (forall i :: 0 <= i < |U2.strs| ==> i < |U.strs| || var o := U2.strs[i]; !old(allocated(o)))
  }

  /** Every table on the chain of a numbered table is numbered. */
  lemma {:induction false} ChainNumbered(U: Universe, st: Store, i: nat)
    requires Shape(U, st) && i < |U.tabs|
    ensures forall t :: t in U.tabs[i].Chain() ==> t in U.tabs
    decreases i
  {
    var p := st.tables[i].parent;
    if p >= 0 {
      ChainNumbered(U, st, p);
      assert U.tabs[i].Chain() == {U.tabs[i]} + U.tabs[p].Chain();
    }
  }

  /** A store with the same shape fits the same numbering. */
  lemma ShapeKept(U: Universe, st: Store, st2: Store)
    requires Shape(U, st) && SameShape(st, st2)
    ensures Shape(U, st2)
  {
  }

  /** Binding a name to agreeing values keeps two maps in agreement. */
  lemma MapRelBind(U: Universe, m: map<string, Value>, am: map<string, AValue>, id: string, v: Value, a: AValue)
    requires MapRel(U, m, am) && Rel(U, v, a)
    ensures MapRel(U, m[id := v], am[id := a])
  {
  }

  /**
   * Resolving a name in a table agrees with resolving it in the store, and
   * the tables `get` caches in are, in the store, the ones `Fetch` does.
   */
  lemma {:induction false} CachedTables(U: Universe, st: Store, ti: nat, id: string)
    requires Shape(U, st) && TablesModel(U, st) && ti < |U.tabs|
    ensures U.tabs[ti].Lookup(id).Some? <==> Resolve(st, ti, id).Some?
    ensures U.tabs[ti].Lookup(id).Some? ==> Rel(U, U.tabs[ti].Lookup(id).value, Resolve(st, ti, id).value)
    ensures forall i :: 0 <= i < |U.tabs| ==>
      (Caches(st, ti, id, i) <==>
       U.tabs[i] in U.tabs[ti].Chain() && U.tabs[i].depth > U.tabs[ti].HolderDepth(id) && U.tabs[ti].Lookup(id).Some?)
    decreases ti
  {
    var t := U.tabs[ti];
    assert MapRel(U, t.values, st.tables[ti].vals);
    forall i | 0 <= i < |U.tabs| && i != ti
      ensures U.tabs[i] != t
    {
      DistinctAt(U.tabs, i, ti);
    }
    if id !in t.values && t.parent != null {
      var pi := st.tables[ti].parent;
      CachedTables(U, st, pi, id);
      assert t.Chain() == {t} + U.tabs[pi].Chain();
    }
  }
}
