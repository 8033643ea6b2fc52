/**
 * The runtime values: `int` and `string` cells whose payload `assign`
 * overwrites in place, the void value, user functions and builtin
 * functions; each kind's operator table (a pure function of the operands'
 * payloads); and the overload keys that make function names unique per
 * parameter-type list.
 */
module Values {
  import opened Wrappers
  import JavaLang
  import opened Lexer
  import Ast

  /** The runtime type of a value, with the tag used in overload keys. */
  datatype ValueType = IntegerType | StringType | FunctionType | VoidType

  /** A type's tag: `<int>`, `<string>`, `<fun>` or `<void>`. */
  function Tag(t: ValueType): (s: string)
    ensures |s| >= 5 && s[0] == '<' && s[|s| - 1] == '>'
    ensures forall i :: 0 <= i < |s| - 1 ==> s[i] != '>'
  {
    match t
    case IntegerType => "<int>"
    case StringType => "<string>"
    case FunctionType => "<fun>"
    case VoidType => "<void>"
  }

  /** The type a declared type name denotes; any other name is an error. */
  function TypeFromName(s: string): (r: Result<ValueType, RuntimeError>)
    ensures r.Ok? <==> s in {"int", "void", "string", "fun"}
    ensures r.Ok? ==> Tag(r.value) == "<" + s + ">"
    ensures r.Err? ==> r.error == BadTypeName(s)
  {
    if s == "int" then Ok(IntegerType)
    else if s == "void" then Ok(VoidType)
    else if s == "string" then Ok(StringType)
    else if s == "fun" then Ok(FunctionType)
    else Err(BadTypeName(s))
  }

  /** A declared parameter: its name and its type. */
  datatype Param = Param(name: string, typ: ValueType)

  /** The native bodies the program's entry point registers as builtins. */
  datatype BuiltinBody = ToInt | ToStr | Print | Length

  /** An `int` cell. */
  class IntegerValue {
    var value: JavaLang.int32

    constructor (value: JavaLang.int32)
      ensures this.value == value
    {
      this.value := value;
    }
  }

  /** A `string` cell. */
  class StringValue {
    var value: string

    constructor (value: string)
      ensures this.value == value
    {
      this.value := value;
    }
  }

  /**
   * A value. Integers and strings are references to cells, so two bindings
   * can share one cell; a user function keeps its overload key, its
   * parameters and its body node.
   */
  datatype Value =
    | Int(icell: IntegerValue)
    | Str(scell: StringValue)
    | Void
    | Function(id: string, params: seq<Param>, todo: Ast.Node)
    | Builtin(bid: string, bparams: seq<Param>, body: BuiltinBody)

  function TypeOf(v: Value): ValueType {
    match v
    case Int(_) => IntegerType
    case Str(_) => StringType
    case Void => VoidType
    case Function(_, _, _) => FunctionType
    case Builtin(_, _, _) => FunctionType
  }

  /** The cells a value refers to. */
  function Cells(v: Value): set<object> {
    match v
    case Int(c) => {c}
    case Str(c) => {c}
    case _ => {}
  }

  /** What an operator sees of a value: its payload, or only its type. */
  datatype Payload = IntP(i: JavaLang.int32) | StrP(s: string) | Opaque(t: ValueType)

  function PayloadType(p: Payload): ValueType {
    match p
    case IntP(_) => IntegerType
    case StrP(_) => StringType
    case Opaque(t) => t
  }

  /** The payload a value holds now. */
  function Snap(v: Value): (p: Payload)
    reads Cells(v)
    ensures PayloadType(p) == TypeOf(v)
  {
    match v
    case Int(c) => IntP(c.value)
    case Str(c) => StrP(c.value)
    case _ => Opaque(TypeOf(v))
  }

  datatype RuntimeError =
    | TypeMismatch(op: TokenType, left: ValueType, right: ValueType)
    | ClassCast(expected: ValueType, got: ValueType)
    | NodeCast
    | ArithmeticFault
    | NotTruthy(t: ValueType)
    | NotCallable(t: ValueType)
    | NotConvertible(t: ValueType)
    | Unresolved(id: string)
    | ArityMismatch(fn: string, arity: nat, given: nat)
    | ArgumentTypeMismatch(callee: string, index: nat, declared: ValueType, actual: ValueType)
    | EmptyBlock
    | BadTypeName(name: string)
    | InvalidOperation(op: TokenType)
    | NumberFormat(text: string)
    | OutOfFuel

  /** What an operator does: make a new cell with a payload, or overwrite its left operand's cell with its right one's payload. */
  datatype Effect = NewInt(i: JavaLang.int32) | NewStr(s: string) | Assigned

  function Bool(b: bool): Effect {
    NewInt(if b then 1 else 0)
  }

  /** `truthy`: a non-zero integer or a non-empty string; any other value has no truth value. */
  function Truthy(p: Payload): Result<bool, RuntimeError> {
    match p
    case IntP(i) => Ok(i != 0)
    case StrP(s) => Ok(|s| != 0)
    case Opaque(t) => Err(NotTruthy(t))
  }

  /** The shared arithmetic and comparisons of two integers; `op` is one of the ten integer operators. */
  function IntegerOp(op: TokenType, a: JavaLang.int32, b: JavaLang.int32): Result<Effect, RuntimeError> {
    match op
    case Add => Ok(NewInt(JavaLang.Wrap(a + b)))
    case Sub => Ok(NewInt(JavaLang.Wrap(a - b)))
    case Mul => Ok(NewInt(JavaLang.Wrap(a * b)))
    case Div => if b == 0 then Err(ArithmeticFault) else Ok(NewInt(JavaLang.Wrap(JavaLang.Quot(a, b))))
    case Mod => if b == 0 then Err(ArithmeticFault) else Ok(NewInt(JavaLang.Rem(a, b)))
    case Pow => Ok(NewInt(JavaLang.JavaPow(a, b)))
    case EqualsEquals => Ok(Bool(a == b))
    case LessThan => Ok(Bool(a < b))
    case LessThanEquals => Ok(Bool(a <= b))
    case GreaterThan => Ok(Bool(a > b))
    case GreaterThanEquals => Ok(Bool(a >= b))
    case _ => Err(InvalidOperation(op))
  }

  /** The ordering comparisons of two strings, by `compareTo`. */
  function StringCompare(op: TokenType, a: string, b: string): Result<Effect, RuntimeError> {
    var c := JavaLang.CompareTo(a, b);
    match op
    case EqualsEquals => Ok(Bool(a == b))
    case LessThan => Ok(Bool(c < 0))
    case LessThanEquals => Ok(Bool(c <= 0))
    case GreaterThan => Ok(Bool(c > 0))
    case GreaterThanEquals => Ok(Bool(c >= 0))
    case _ => Err(InvalidOperation(op))
  }

  const INTEGER_OPS: set<TokenType> := {Add, Sub, Mul, Div, Mod, Pow, EqualsEquals, LessThan, LessThanEquals, GreaterThan, GreaterThanEquals}
  const STRING_COMPARISONS: set<TokenType> := {EqualsEquals, LessThan, LessThanEquals, GreaterThan, GreaterThanEquals}

  /**
   * One binary operator method of the left operand, given both payloads:
   * the integer overrides, the string overrides, and otherwise the default
   * that refuses the operand types. `op` is one of the twelve operators
   * with a method of their own (not `!=`, `||`, `&&`).
   */
  function Method(op: TokenType, l: Payload, r: Payload): Result<Effect, RuntimeError> {
    var mismatch := Err(TypeMismatch(op, PayloadType(l), PayloadType(r)));
    match l
    case IntP(a) =>
      if op == Assign then (if r.IntP? then Ok(Assigned) else mismatch)
      else if op in INTEGER_OPS then (if r.IntP? then IntegerOp(op, a, r.i) else mismatch)
      else Err(InvalidOperation(op))
    case StrP(a) =>
      if op == Add then
        (match r
         case StrP(b) => Ok(NewStr(a + b))
         case IntP(b) => Ok(NewStr(a + JavaLang.DecimalText(b)))
         case Opaque(t) => Err(ClassCast(IntegerType, t)))
      else if op == Mul then
        (if r.IntP? then Ok(NewStr(JavaLang.Repeat(a, if r.i < 0 then 0 else r.i))) else mismatch)
      else if op == Assign then (if r.StrP? then Ok(Assigned) else mismatch)
      else if op in STRING_COMPARISONS then (if r.StrP? then StringCompare(op, a, r.s) else mismatch)
      else if op in INTEGER_OPS then mismatch
      else Err(InvalidOperation(op))
    case Opaque(_) =>
      if op in INTEGER_OPS || op == Assign then mismatch else Err(InvalidOperation(op))
  }

  /** `not`: 0 for a truthy operand, 1 for a falsy one. */
  function LogicalNot(p: Payload): Result<Effect, RuntimeError> {
    var b :- Truthy(p);
    Ok(Bool(!b))
  }

  /** `orOr`: the left operand's truth first; the right one's is asked only when the left is falsy. */
  function LogicalOr(l: Payload, r: Payload): Result<Effect, RuntimeError> {
    var a :- Truthy(l);
    if a then Ok(Bool(true))
    else
      var b :- Truthy(r);
      Ok(Bool(b))
  }

  /** `andAnd`: the left operand's truth first; the right one's is asked only when the left is truthy. */
  function LogicalAnd(l: Payload, r: Payload): Result<Effect, RuntimeError> {
    var a :- Truthy(l);
    if !a then Ok(Bool(false))
    else
      var b :- Truthy(r);
      Ok(Bool(b))
  }

  /** What `maths` does with an operator and the two evaluated operands. */
  function Binary(op: TokenType, l: Payload, r: Payload): Result<Effect, RuntimeError> {
    if op == NotEquals then
      var e :- Method(EqualsEquals, l, r);
      LogicalNot(IntP(e.i))
    else if op == OrOr then LogicalOr(l, r)
    else if op == AndAnd then LogicalAnd(l, r)
    else if op in INTEGER_OPS || op == Assign then Method(op, l, r)
    else Err(InvalidOperation(op))
  }

  /**
   * A prefix operator: its operand must be an integer literal, which is
   * cast to one without being evaluated. `!` gives 1 for 0 and 0 otherwise,
   * `-` negates with wrap-around, and `+` gives the literal back.
   */
  function Negation(acting: Ast.Node, op: TokenType): Result<JavaLang.int32, RuntimeError> {
    if !acting.IntegerNode? then Err(NodeCast)
    else
      var n := acting.value;
      if op == Not then Ok(if n != 0 then 0 else 1)
      else if op == Sub then Ok(JavaLang.Wrap(-(n as int)))
      else if op == Add then Ok(n)
      else Err(InvalidOperation(op))
  }

  /** A value's text, as `print` shows it. */
  function Text(v: Value): string
    reads Cells(v)
  {
    match v
    case Int(c) => JavaLang.DecimalText(c.value)
    case Str(c) => c.value
    case Void => "<void>"
    case Function(id, _, _) => "fun " + id
    case Builtin(id, _, _) => "[builtin] fun " + id
  }

  /** The tags of a list of types, back to back. */
  function Tags(ts: seq<ValueType>): string {
    if ts == [] then "" else Tag(ts[0]) + Tags(ts[1..])
  }

  function ParamTypes(params: seq<Param>): (ts: seq<ValueType>)
    ensures |ts| == |params| && forall i :: 0 <= i < |params| ==> ts[i] == params[i].typ
  {
    if params == [] then [] else [params[0].typ] + ParamTypes(params[1..])
  }

  function TypesOf(args: seq<Value>): (ts: seq<ValueType>)
    ensures |ts| == |args| && forall i :: 0 <= i < |args| ==> ts[i] == TypeOf(args[i])
  {
    if args == [] then [] else [TypeOf(args[0])] + TypesOf(args[1..])
  }

  /** The overload key of a declaration: its name and its parameters' type tags. */
  function MangleFunctionSide(id: string, params: seq<Param>): string {
    id + Tags(ParamTypes(params))
  }

  /** The overload key of a call: the name and its evaluated arguments' type tags. */
  function MangleCallerSide(id: string, args: seq<Value>): string {
    id + Tags(TypesOf(args))
  }

  /** The parameters of a declaration, each type name resolved; the first unknown type name is an error. */
  function ParamsOf(args: seq<Ast.Argument>): (r: Result<seq<Param>, RuntimeError>)
    ensures r.Ok? ==> |r.value| == |args|
    ensures r.Ok? ==> forall i :: 0 <= i < |args| ==>
      r.value[i].name == args[i].name && TypeFromName(args[i].typeName) == Ok(r.value[i].typ)
    ensures r.Err? ==> exists i :: 0 <= i < |args| && TypeFromName(args[i].typeName) == Err(r.error)
  {
    if args == [] then Ok([])
    else
      var t :- TypeFromName(args[0].typeName);
      var rest :- ParamsOf(args[1..]);
      Ok([Param(args[0].name, t)] + rest)
  }

  /** A user function value made from its declaration: its parameters and its overload key. */
  function FunctionOf(decl: Ast.Node): (r: Result<Value, RuntimeError>)
    requires decl.FunctionDeclarationNode?
    ensures r.Ok? ==> r.value.Function? && r.value.todo == decl.body
    ensures r.Ok? ==> r.value.id == MangleFunctionSide(decl.id, r.value.params)
  {
    var params :- ParamsOf(decl.args);
    Ok(Function(MangleFunctionSide(decl.id, params), params, decl.body))
  }

  /**
   * Applies an operator to two evaluated operands: a new cell for an
   * arithmetic or comparison result, or, for `<-`, the left operand's cell
   * overwritten with the right one's payload and the right operand itself
   * as the result.
   */
  method ApplyBinary(op: TokenType, left: Value, right: Value) returns (r: Result<Value, RuntimeError>)
    modifies Cells(left)
    ensures var e := Binary(op, old(Snap(left)), old(Snap(right)));
      match e
      case Err(err) => r == Err(err) && unchanged(Cells(left))
      case Ok(NewInt(i)) => r.Ok? && r.value.Int? && fresh(r.value.icell) && r.value.icell.value == i && unchanged(Cells(left))
      case Ok(NewStr(s)) => r.Ok? && r.value.Str? && fresh(r.value.scell) && r.value.scell.value == s && unchanged(Cells(left))
      case Ok(Assigned) => r == Ok(right) && Snap(left) == old(Snap(right))
  {
    var e := Binary(op, Snap(left), Snap(right));
    match e
    case Err(err) =>
      return Err(err);
    case Ok(NewInt(i)) =>
      var c := new IntegerValue(i);
      return Ok(Int(c));
    case Ok(NewStr(s)) =>
      var c := new StringValue(s);
      return Ok(Str(c));
    case Ok(Assigned) =>
      AssignedSameType(op, Snap(left), Snap(right));
      if left.Int? {
        left.icell.value := right.icell.value;
      } else {
        left.scell.value := right.scell.value;
      }
      return Ok(right);
  }

  /** Only `<-` between two integers or two strings overwrites. */
  lemma AssignedSameType(op: TokenType, l: Payload, r: Payload)
    requires Binary(op, l, r) == Ok(Assigned)
    ensures op == Assign && ((l.IntP? && r.IntP?) || (l.StrP? && r.StrP?))
  {
  }
}
