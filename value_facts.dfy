/**
 * Properties of the operator tables and the overload keys: Java's 32-bit
 * arithmetic, the one-sided `+` between strings and integers, repetition,
 * the string ordering, the truth tables of `!`, `||` and `&&`, which
 * operand types `<-` accepts, and the fact that a call's key matches a
 * declaration's key exactly when the argument types are the declared ones.
 */
module ValueFacts {
  import opened Wrappers
  import opened JavaLang
  import opened Lexer
  import opened Values

  /** Every integer operator needs an integer on its right; anything else is refused with both types named. */
  lemma IntegerNeedsIntegerRight(op: TokenType, a: int32, p: Payload)
    requires op in INTEGER_OPS && !p.IntP?
    ensures Binary(op, IntP(a), p) == Err(TypeMismatch(op, IntegerType, PayloadType(p)))
  {
  }

  /** Two integers go to the integer overrides. */
  lemma IntegerOperands(op: TokenType, a: int32, b: int32)
    requires op in INTEGER_OPS
    ensures Binary(op, IntP(a), IntP(b)) == IntegerOp(op, a, b)
  {
  }

  /** Two strings compared go to the string overrides, which order by `compareTo`. */
  lemma StringOperands(op: TokenType, a: string, b: string)
    requires op in STRING_COMPARISONS
    ensures Binary(op, StrP(a), StrP(b)) == StringCompare(op, a, b)
  {
  }

  /** `+`, `-` and `*` on integers are the exact results wrapped to 32 bits. */
  lemma IntegerArithmeticWraps(a: int32, b: int32)
    ensures Binary(Add, IntP(a), IntP(b)) == Ok(NewInt(Wrap(a + b)))
    ensures Binary(Sub, IntP(a), IntP(b)) == Ok(NewInt(Wrap(a - b)))
    ensures Binary(Mul, IntP(a), IntP(b)) == Ok(NewInt(Wrap(a * b)))
    ensures MIN_INT <= a + b <= MAX_INT ==> Binary(Add, IntP(a), IntP(b)) == Ok(NewInt(a + b))
  {
    IntegerOperands(Add, a, b);
    IntegerOperands(Sub, a, b);
    IntegerOperands(Mul, a, b);
  }

  /** `MAX_VALUE + 1` wraps to `MIN_VALUE`. */
  lemma IntegerOverflow()
    ensures Binary(Add, IntP(MAX_INT), IntP(1)) == Ok(NewInt(MIN_INT))
  {
    WrapUnique(MAX_INT + 1, MIN_INT);
  }

  /** A zero divisor makes `/` and `%` fail. */
  lemma DivisionByZero(a: int32)
    ensures Binary(Div, IntP(a), IntP(0)) == Err(ArithmeticFault)
    ensures Binary(Mod, IntP(a), IntP(0)) == Err(ArithmeticFault)
  {
  }

  /**
   * For a non-zero divisor `/` gives Java's quotient, rounded toward zero
   * and wrapped, and `%` the remainder that goes with it; together they
   * obey Java's identity `(a / b) * b + a % b == a` in 32-bit arithmetic,
   * and the remainder is smaller than the divisor and takes the dividend's
   * sign.
   */
  lemma DivisionIdentity(a: int32, b: int32)
    requires b != 0
    ensures Binary(Div, IntP(a), IntP(b)) == Ok(NewInt(Wrap(Quot(a, b))))
    ensures Binary(Mod, IntP(a), IntP(b)) == Ok(NewInt(Rem(a, b)))
    ensures Wrap(Wrap(Quot(a, b)) * b + Rem(a, b)) == a
    ensures Abs(Rem(a, b)) < Abs(b) && (Rem(a, b) == 0 || ((Rem(a, b) < 0) <==> (a < 0)))
  {
    QuotRemIdentity(a, b);
    IntegerOperands(Div, a, b);
    IntegerOperands(Mod, a, b);
  }

  /** Java's identity `(a / b) * b + a % b == a` holds in 32-bit arithmetic, the quotient wrapped. */
  lemma QuotRemIdentity(a: int32, b: int32)
    requires b != 0
    ensures var q := Wrap(Quot(a, b)); var m := Rem(a, b);
      Wrap(q * b + m) == a && Abs(m) < Abs(b) && (m == 0 || ((m < 0) <==> (a < 0)))
  {
    var exact := Quot(a, b);
    var m := Rem(a, b);
    var q := Wrap(exact);
    assert (q - exact) % TWO_32 == 0;
    assert exact * b + m == a;
    WrapCongruent(q, exact, b, m, a);
  }

  /** Replacing a factor by one congruent to it modulo 2^32 does not change the wrapped result. */
  lemma WrapCongruent(q: int, e: int, b: int, m: int, a: int32)
    requires (q - e) % TWO_32 == 0 && e * b + m == a
    ensures Wrap(q * b + m) == a
  {
    var k := (q - e) / TWO_32;
    assert q - e == TWO_32 * k;
    calc {
      q * b + m - a;
      q * b - e * b;
      (q - e) * b;
      (TWO_32 * k) * b;
      TWO_32 * (k * b);
    }
    MultipleOfTwo32(k * b);
    WrapUnique(q * b + m, a);
  }

  /** The one quotient that overflows: `MIN_VALUE / -1` is `MIN_VALUE` again. */
  lemma DivisionOverflow()
    ensures Binary(Div, IntP(MIN_INT), IntP(-1)) == Ok(NewInt(MIN_INT))
  {
    var q := Quot(MIN_INT, -1);
    assert Abs(q) * 1 <= Abs(MIN_INT) < Abs(q) * 1 + 1;
    assert q == -MIN_INT;
    WrapUnique(q, MIN_INT);
  }

  /** `^` is the exact power whenever that fits in an `int`, and saturates above it. */
  lemma PowerFits(a: int32, b: int32)
    requires b >= 0
    ensures MIN_INT <= Power(a, b) <= MAX_INT ==> Binary(Pow, IntP(a), IntP(b)) == Ok(NewInt(Power(a, b)))
    ensures Power(a, b) > MAX_INT ==> Binary(Pow, IntP(a), IntP(b)) == Ok(NewInt(MAX_INT))
  {
  }

  /** A comparison or a logical operator that succeeds yields the integer 1 or 0. */
  lemma ComparisonsYieldZeroOrOne(op: TokenType, l: Payload, r: Payload)
    requires op in {EqualsEquals, NotEquals, LessThan, LessThanEquals, GreaterThan, GreaterThanEquals, OrOr, AndAnd}
    requires Binary(op, l, r).Ok?
    ensures Binary(op, l, r).value == NewInt(0) || Binary(op, l, r).value == NewInt(1)
  {
  }

  /** `!=` is the negation of `==`, and fails exactly when `==` fails. */
  lemma NotEqualsNegatesEquals(l: Payload, r: Payload)
    ensures Binary(NotEquals, l, r).Err? <==> Binary(EqualsEquals, l, r).Err?
    ensures Binary(EqualsEquals, l, r).Err? ==> Binary(NotEquals, l, r) == Binary(EqualsEquals, l, r)
    ensures Binary(EqualsEquals, l, r) == Ok(NewInt(1)) <==> Binary(NotEquals, l, r) == Ok(NewInt(0))
    ensures Binary(EqualsEquals, l, r) == Ok(NewInt(0)) <==> Binary(NotEquals, l, r) == Ok(NewInt(1))
  {
    if Binary(EqualsEquals, l, r).Ok? {
      ComparisonsYieldZeroOrOne(EqualsEquals, l, r);
    }
  }

  /** `+` is one-sided: an integer refuses a string, while a string appends an integer's decimal text, which reads back as that integer. */
  lemma MixedAddition(a: int32, s: string)
    ensures Binary(Add, IntP(a), StrP(s)) == Err(TypeMismatch(Add, IntegerType, StringType))
    ensures Binary(Add, StrP(s), IntP(a)) == Ok(NewStr(s + DecimalText(a)))
    ensures var t := Binary(Add, StrP(s), IntP(a)).value.s;
      t[..|s|] == s && ParseInt(t[|s|..]) == Some(a)
  {
    var t := s + DecimalText(a);
    assert t[|s|..] == DecimalText(a);
    ParseIntOfDecimalText(a);
  }

  /** A string plus a void or function value fails on the cast of the right operand to an integer. */
  lemma StringPlusOther(s: string, t: ValueType)
    ensures Binary(Add, StrP(s), Opaque(t)) == Err(ClassCast(IntegerType, t))
  {
  }

  /** `s * n` is `max(0, n)` copies of `s`; `s * t` for a string `t` is refused. */
  lemma StringRepetition(s: string, n: int32, t: string)
    ensures Binary(Mul, StrP(s), IntP(n)).Ok? && Binary(Mul, StrP(s), IntP(n)).value.NewStr?
    ensures var r := Binary(Mul, StrP(s), IntP(n)).value.s;
      |r| == |s| * (if n < 0 then 0 else n) && forall i :: 0 <= i < |r| ==> r[i] == s[i % |s|]
    ensures Binary(Mul, StrP(s), StrP(t)) == Err(TypeMismatch(Mul, StringType, StringType))
  {
    RepeatContents(s, if n < 0 then 0 else n);
  }

  /**
   * The string comparisons are one consistent order: `a < b` is `b > a`,
   * `a <= b` is `a < b` or equal, `a >= b` is `b <= a`, and `==` is
   * equality of contents.
   */
  lemma StringOrder(a: string, b: string)
    ensures Binary(EqualsEquals, StrP(a), StrP(b)) == Ok(Bool(a == b))
    ensures Binary(LessThan, StrP(a), StrP(b)) == Binary(GreaterThan, StrP(b), StrP(a))
    ensures Binary(GreaterThanEquals, StrP(a), StrP(b)) == Binary(LessThanEquals, StrP(b), StrP(a))
    ensures Binary(LessThanEquals, StrP(a), StrP(b)) == Ok(Bool(Binary(LessThan, StrP(a), StrP(b)) == Ok(Bool(true)) || a == b))
  {
    StringOperands(EqualsEquals, a, b);
    StringOperands(LessThan, a, b);
    StringOperands(LessThan, b, a);
    StringOperands(GreaterThan, b, a);
    StringOperands(LessThanEquals, a, b);
    StringOperands(LessThanEquals, b, a);
    StringOperands(GreaterThanEquals, a, b);
    CompareToAntisymmetric(a, b);
    CompareToZero(a, b);
  }

  /** Strings and integers never compare with each other. */
  lemma MixedComparison(op: TokenType, a: int32, s: string)
    requires op in STRING_COMPARISONS
    ensures Binary(op, IntP(a), StrP(s)) == Err(TypeMismatch(op, IntegerType, StringType))
    ensures Binary(op, StrP(s), IntP(a)) == Err(TypeMismatch(op, StringType, IntegerType))
  {
  }

  /** Only integers and strings have a truth value: a non-zero integer or a non-empty string. */
  lemma TruthValues(p: Payload)
    ensures Truthy(p).Ok? <==> !p.Opaque?
    ensures p.IntP? ==> Truthy(p) == Ok(p.i != 0)
    ensures p.StrP? ==> Truthy(p) == Ok(p.s != "")
    ensures p.Opaque? ==> Truthy(p) == Err(NotTruthy(p.t))
  {
  }

  /**
   * `||` and `&&` on two operands with truth values are the boolean
   * operators as 1 or 0; the right operand's truth is not asked when the
   * left one decides (`1 || void` is 1, `0 && void` is 0), but a left
   * operand without one fails.
   */
  lemma LogicalTables(l: Payload, r: Payload)
    ensures Truthy(l).Ok? && Truthy(r).Ok? ==>
      Binary(OrOr, l, r) == Ok(Bool(Truthy(l).value || Truthy(r).value)) &&
      Binary(AndAnd, l, r) == Ok(Bool(Truthy(l).value && Truthy(r).value))
    ensures Truthy(l) == Ok(true) ==> Binary(OrOr, l, r) == Ok(Bool(true))
    ensures Truthy(l) == Ok(false) ==> Binary(AndAnd, l, r) == Ok(Bool(false))
    ensures Truthy(l).Err? ==> Binary(OrOr, l, r) == Err(Truthy(l).error) && Binary(AndAnd, l, r) == Err(Truthy(l).error)
  {
  }

  /** A 1/0 result reads back as the truth it encodes, so `!` twice gives a canonical truth value. */
  lemma BoolIsTruthful(b: bool, p: Payload)
    ensures Truthy(IntP(Bool(b).i)) == Ok(b)
    ensures Truthy(p).Ok? ==> LogicalNot(p) == Ok(Bool(!Truthy(p).value))
    ensures Truthy(p).Ok? ==> LogicalNot(IntP(LogicalNot(p).value.i)) == Ok(Bool(Truthy(p).value))
  {
  }

  /** `<-` succeeds exactly between two integers or two strings; otherwise it names both types. */
  lemma AssignAcceptsSameKind(l: Payload, r: Payload)
    ensures Binary(Assign, l, r) == Ok(Assigned) <==> (l.IntP? && r.IntP?) || (l.StrP? && r.StrP?)
    ensures Binary(Assign, l, r) != Ok(Assigned) ==>
      Binary(Assign, l, r) == Err(TypeMismatch(Assign, PayloadType(l), PayloadType(r)))
  {
  }

  /** Only `<-` overwrites; every other operator leaves its operands alone. */
  lemma OnlyAssignmentAssigns(op: TokenType, l: Payload, r: Payload)
    requires op != Assign
    ensures Binary(op, l, r) != Ok(Assigned)
  {
    if Binary(op, l, r) == Ok(Assigned) {
      AssignedSameType(op, l, r);
    }
  }

  /** Void and function values have no operators: every binary operator with one on the left fails. */
  lemma OpaqueOperandsFail(op: TokenType, t: ValueType, r: Payload)
    ensures Binary(op, Opaque(t), r).Err?
  {
  }

  /** A prefix operator applies only to an integer literal, never to an evaluated expression. */
  lemma NegationNeedsLiteral(acting: Ast.Node, op: TokenType)
    requires !acting.IntegerNode?
    ensures Negation(acting, op) == Err(NodeCast)
  {
  }

  /** `-` on `MIN_VALUE` wraps back to `MIN_VALUE`; elsewhere it is exact, and applying it twice restores the literal. */
  lemma NegationWraps(n: int32)
    ensures Negation(Ast.IntegerNode(MIN_INT), Sub) == Ok(MIN_INT)
    ensures n != MIN_INT ==> Negation(Ast.IntegerNode(n), Sub) == Ok(-n)
    ensures Negation(Ast.IntegerNode(Negation(Ast.IntegerNode(n), Sub).value), Sub) == Ok(n)
  {
    WrapUnique(-MIN_INT, MIN_INT);
  }

  /** Prefix `!` is `not` on the literal, and prefix `+` gives the literal back. */
  lemma PrefixNotAndPlus(n: int32)
    ensures Negation(Ast.IntegerNode(n), Not) == Ok(LogicalNot(IntP(n)).value.i)
    ensures Negation(Ast.IntegerNode(n), Add) == Ok(n)
  {
  }

  /** Different types have different tags. */
  lemma TagInjective(t: ValueType, u: ValueType)
    requires Tag(t) == Tag(u)
    ensures t == u
  {
  }

  /** Tags are empty only for no types. */
  lemma TagsEmpty(ts: seq<ValueType>)
    ensures Tags(ts) == [] <==> ts == []
  {
    if ts != [] {
      assert |Tags(ts)| >= |Tag(ts[0])|;
    }
  }

  /** The first `>` of a non-empty string of tags closes the first tag. */
  lemma FirstClose(ts: seq<ValueType>)
    requires ts != []
    ensures var n := |Tag(ts[0])|;
      n <= |Tags(ts)| && Tags(ts)[n - 1] == '>' && forall j :: 0 <= j < n - 1 ==> Tags(ts)[j] != '>'
  {
    var a := Tag(ts[0]);
    assert Tags(ts) == a + Tags(ts[1..]);
    assert forall j :: 0 <= j < |a| ==> Tags(ts)[j] == a[j];
  }

  /**
   * A string of tags splits back into its types: the first `>` ends the
   * first tag, since no tag has `>` inside it.
   */
  lemma {:induction false} TagsInjective(ts: seq<ValueType>, us: seq<ValueType>)
    requires Tags(ts) == Tags(us)
    ensures ts == us
    decreases |ts|
  {
    TagsEmpty(ts);
    TagsEmpty(us);
    if ts != [] && us != [] {
      var a, b := Tag(ts[0]), Tag(us[0]);
      var s := Tags(ts);
      FirstClose(ts);
      FirstClose(us);
      assert |a| == |b|;
      assert s == a + Tags(ts[1..]) == b + Tags(us[1..]);
      assert a == s[..|a|] == b;
      TagInjective(ts[0], us[0]);
      assert Tags(ts[1..]) == s[|a|..] == Tags(us[1..]);
      TagsInjective(ts[1..], us[1..]);
    }
  }

  /**
   * A call finds a declaration under the same name exactly when its
   * arguments' runtime types are the declared parameter types, position by
   * position.
   */
  lemma KeysMatchExactly(id: string, args: seq<Value>, params: seq<Param>)
    ensures MangleCallerSide(id, args) == MangleFunctionSide(id, params) <==> TypesOf(args) == ParamTypes(params)
  {
    if MangleCallerSide(id, args) == MangleFunctionSide(id, params) {
      var k := MangleCallerSide(id, args);
      assert Tags(TypesOf(args)) == k[|id|..] == Tags(ParamTypes(params));
      TagsInjective(TypesOf(args), ParamTypes(params));
    }
  }

  /** A function's key after its declaration's types are resolved: one tag per parameter, in order. */
  lemma DeclarationKey(decl: Ast.Node)
    requires decl.FunctionDeclarationNode? && FunctionOf(decl).Ok?
    ensures var f := FunctionOf(decl).value;
      |f.params| == |decl.args| &&
      (forall i :: 0 <= i < |decl.args| ==>
        f.params[i].name == decl.args[i].name && Tag(f.params[i].typ) == "<" + decl.args[i].typeName + ">") &&
      f.id == decl.id + Tags(ParamTypes(f.params))
  {
    var f := FunctionOf(decl).value;
    var ps := ParamsOf(decl.args).value;
    assert f.params == ps;
    forall i | 0 <= i < |decl.args|
      ensures Tag(f.params[i].typ) == "<" + decl.args[i].typeName + ">"
    {
      assert TypeFromName(decl.args[i].typeName) == Ok(ps[i].typ);
    }
  }
}
