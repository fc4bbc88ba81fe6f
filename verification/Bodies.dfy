/**
  The JSON values of response bodies as Python reads and compares them. A float is finite, one of the two
  infinities, or not a number; negative zero is a float of its own. An integer is never a float.
 */
module Bodies {
  datatype Float = Finite(r: real) | NegativeZero | Infinity(positive: bool) | NotANumber

  datatype Value =
    | Null
    | Bool(b: bool)
    | Int(n: int)
    | Real(f: Float)
    | Str(s: string)
    | List(items: seq<Value>)
    | Dict(fields: map<string, Value>)

  /** `==` on floats. The two zeros are equal, and what is not a number equals nothing. */
  predicate SameFloat(a: Float, b: Float) { !a.NotANumber? && !b.NotANumber? && PositiveZero(a) == PositiveZero(b) }

  function PositiveZero(f: Float): Float { if f.NegativeZero? then Finite(0.0) else f }

  /** `strict_equal`: same type, and the same all the way down. */
  predicate StrictEqual(a: Value, b: Value) {
    match (a, b)
    case (Dict(f), Dict(g)) => f.Keys == g.Keys && forall k | k in f.Keys && k in g.Keys :: StrictEqual(f[k], g[k])
    case (List(xs), List(ys)) => |xs| == |ys| && forall i | 0 <= i < |xs| && i < |ys| :: StrictEqual(xs[i], ys[i])
    case (Null, Null) => true
    case (Bool(p), Bool(q)) => p == q
    case (Int(m), Int(n)) => m == n
    case (Real(x), Real(y)) => SameFloat(x, y)
    case (Str(s), Str(t)) => s == t
    case _ => false
  }

  /** No part of the value is not a number. */
  predicate NumbersOnly(v: Value) {
    match v
    case Real(f) => !f.NotANumber?
    case List(items) => forall i | 0 <= i < |items| :: NumbersOnly(items[i])
    case Dict(fields) => forall k | k in fields.Keys :: NumbersOnly(fields[k])
    case _ => true
  }

  /** No part of the value is a float that is zero. */
  predicate ZeroFree(v: Value) {
    match v
    case Real(f) => PositiveZero(f) != Finite(0.0)
    case List(items) => forall i | 0 <= i < |items| :: ZeroFree(items[i])
    case Dict(fields) => forall k | k in fields.Keys :: ZeroFree(fields[k])
    case _ => true
  }

  /** The value without the signs of its zeros. */
  function Unsigned(v: Value): Value {
    match v
    case Real(f) => Real(PositiveZero(f))
    case List(items) => List(seq(|items|, i requires 0 <= i < |items| => Unsigned(items[i])))
    case Dict(fields) => Dict(map k | k in fields.Keys :: Unsigned(fields[k]))
    case _ => v
  }

  /** Two values are strictly equal exactly if they are numbers throughout and differ at most in signs of zeros. */
  lemma {:induction false} StrictEqualMeans(a: Value, b: Value)
    ensures StrictEqual(a, b) <==> NumbersOnly(a) && NumbersOnly(b) && Unsigned(a) == Unsigned(b)
    decreases a, 1
  {
    match (a, b)
    case (Dict(f), Dict(g)) => DictsMean(f, g);
    case (List(xs), List(ys)) => ListsMean(xs, ys);
    case _ =>
  }

  lemma {:induction false} ListsMean(xs: seq<Value>, ys: seq<Value>)
    ensures StrictEqual(List(xs), List(ys)) <==>
              NumbersOnly(List(xs)) && NumbersOnly(List(ys)) && Unsigned(List(xs)) == Unsigned(List(ys))
    decreases List(xs), 0
  {
    forall i | 0 <= i < |xs| && i < |ys|
      ensures StrictEqual(xs[i], ys[i]) <==>
                NumbersOnly(xs[i]) && NumbersOnly(ys[i]) && Unsigned(xs[i]) == Unsigned(ys[i])
    {
      StrictEqualMeans(xs[i], ys[i]);
    }
    var us, vs := Unsigned(List(xs)).items, Unsigned(List(ys)).items;
    if us == vs {
      forall i | 0 <= i < |xs| ensures Unsigned(xs[i]) == Unsigned(ys[i]) { assert us[i] == vs[i]; }
    }
  }

  lemma {:induction false} DictsMean(f: map<string, Value>, g: map<string, Value>)
    ensures StrictEqual(Dict(f), Dict(g)) <==>
              NumbersOnly(Dict(f)) && NumbersOnly(Dict(g)) && Unsigned(Dict(f)) == Unsigned(Dict(g))
    decreases Dict(f), 0
  {
    forall k | k in f.Keys && k in g.Keys
      ensures StrictEqual(f[k], g[k]) <==>
                NumbersOnly(f[k]) && NumbersOnly(g[k]) && Unsigned(f[k]) == Unsigned(g[k])
    {
      StrictEqualMeans(f[k], g[k]);
    }
    var u, v := Unsigned(Dict(f)).fields, Unsigned(Dict(g)).fields;
    assert u.Keys == f.Keys && v.Keys == g.Keys;
    if u == v {
      forall k | k in f.Keys ensures k in g.Keys && Unsigned(f[k]) == Unsigned(g[k]) {
        assert k in u.Keys;
        assert u[k] == v[k];
      }
    }
  }

  /** Without zeros, only equal values look alike without signs. */
  lemma {:induction false} ZeroFreeIsExact(a: Value, b: Value)
    requires ZeroFree(a) && Unsigned(a) == Unsigned(b)
    ensures a == b
  {
    match (a, b)
    case (List(xs), List(ys)) =>
      var us, vs := Unsigned(a).items, Unsigned(b).items;
      forall i | 0 <= i < |xs| ensures xs[i] == ys[i] {
        assert us[i] == vs[i];
        ZeroFreeIsExact(xs[i], ys[i]);
      }
    case (Dict(f), Dict(g)) =>
      var u, v := Unsigned(a).fields, Unsigned(b).fields;
      assert u.Keys == f.Keys && v.Keys == g.Keys;
      forall k | k in f.Keys ensures k in g.Keys && f[k] == g[k] {
        assert u[k] == v[k];
        ZeroFreeIsExact(f[k], g[k]);
      }
      assert f == g;
    case _ =>
  }
}
