/**
 * The JavaScript values the resource controller handles: primitives, arrays,
 * plain objects whose properties keep their insertion order, and opaque host
 * objects (a model handle, an ORM document). Property access, assignment and
 * `_.omit` are given the meaning JavaScript and underscore give them.
 */
module JsValues {

  datatype Value =
    | Undefined
    | Null
    | Bool(b: bool)
    | Num(n: real)          // a finite number; -0 and 0 are the same value here
    | NaN
    | Str(s: string)
    | Arr(elems: seq<Value>)
    | Obj(props: seq<Prop>)
    | Host(handle: nat)     // an object the host environment supplies

  datatype Prop = Prop(key: string, val: Value)

  /** A plain object: its own enumerable properties, in key order. */
  type Object = seq<Prop>

  /**
   * JavaScript truthiness, `!!v`: every value is truthy except the six
   * falsy ones.
   */
  function Truthy(v: Value): (b: bool)
    ensures b <==> v !in {Undefined, Null, Bool(false), Num(0.0), NaN, Str("")}
  {
    match v
    case Undefined => false
    case Null => false
    case Bool(b) => b
    case Num(n) => n != 0.0
    case NaN => false
    case Str(s) => s != ""
    case _ => true
  }

  /** `Object.keys(o)`. */
  function Keys(o: Object): (ks: seq<string>)
    ensures |ks| == |o|
    ensures forall i :: 0 <= i < |o| ==> ks[i] == o[i].key
  {
    if o == [] then [] else [o[0].key] + Keys(o[1..])
  }

  /** No key occurs twice, as in every JavaScript object. */
  ghost predicate WellFormed(o: Object) {
    forall i, j :: 0 <= i < j < |o| ==> o[i].key != o[j].key
  }

  /** `o[k]`: the value of the property named `k`, `undefined` when there is none. */
  function Get(o: Object, k: string): (v: Value)
    ensures k !in Keys(o) ==> v == Undefined
  {
    if o == [] then Undefined
    else if o[0].key == k then o[0].val
    else Get(o[1..], k)
  }

  /**
   * `o[k] = v`: an existing property keeps its place and takes the new value,
   * a new property is appended after all the others.
   */
  function Set(o: Object, k: string, v: Value): (r: Object)
    ensures Get(r, k) == v
    ensures forall j :: j != k ==> Get(r, j) == Get(o, j)
    ensures Keys(r) == if k in Keys(o) then Keys(o) else Keys(o) + [k]
  {
    if o == [] then [Prop(k, v)]
    else if o[0].key == k then
      var r := [Prop(k, v)] + o[1..];
      assert r[1..] == o[1..];
      r
    else
      var r := [o[0]] + Set(o[1..], k, v);
      assert r[1..] == Set(o[1..], k, v);
      r
  }

  /** `_.omit(o, ks)`: `o` without the properties named in `ks`, order kept. */
  function Omit(o: Object, ks: set<string>): (r: Object)
    ensures forall j :: Get(r, j) == if j in ks then Undefined else Get(o, j)
    ensures forall j :: j in Keys(r) <==> j in Keys(o) && j !in ks
  {
    if o == [] then []
    else if o[0].key in ks then Omit(o[1..], ks)
    else [o[0]] + Omit(o[1..], ks)
  }

  /** `v[k]` on any value; of the values modelled, only plain objects have such properties. */
  function Member(v: Value, k: string): (r: Value)
    ensures v.Obj? ==> r == Get(v.props, k)
    ensures Truthy(r) ==> v.Obj? && k in Keys(v.props)
  {
    if v.Obj? then Get(v.props, k) else Undefined
  }

  /**
   * The own enumerable properties `_.omit` copies out of a value: those of a
   * plain object, the indices of an array, none for a primitive.
   */
  function Enumerable(v: Value): (r: Object)
    ensures v.Obj? ==> r == v.props
    ensures v.Arr? ==> |r| == |v.elems| && forall i :: 0 <= i < |r| ==> r[i] == Prop(Decimal(i), v.elems[i])
    ensures !v.Obj? && !v.Arr? ==> r == []
  {
    match v
    case Obj(props) => props
    case Arr(elems) => Indexed(elems, 0)
    case _ => []
  }

  /** The properties `"from"`, `"from+1"`, ... of an array's elements. */
  function Indexed(elems: seq<Value>, from: nat): (r: Object)
    ensures |r| == |elems|
    ensures forall i :: 0 <= i < |r| ==> r[i] == Prop(Decimal(from + i), elems[i])
    decreases |elems|
  {
    if elems == [] then [] else [Prop(Decimal(from), elems[0])] + Indexed(elems[1..], from + 1)
  }

  /** The decimal digits of `n`, as a property key. */
  function Decimal(n: nat): string {
    if n < 10 then [Digit(n)] else Decimal(n / 10) + [Digit(n % 10)]
  }

  function Digit(d: nat): char
    requires d < 10
  {
    "0123456789"[d]
  }

  lemma {:induction false} KeyOfTruthy(o: Object, k: string)
    requires Truthy(Get(o, k))
    ensures k in Keys(o)
  {
  }

  /** Writing a key keeps the keys distinct. */
  lemma {:induction false} SetWellFormed(o: Object, k: string, v: Value)
    requires WellFormed(o)
    ensures WellFormed(Set(o, k, v))
  {
    if o != [] {
      assert o == [o[0]] + o[1..];
      WellFormedCons(o[0], o[1..]);
      if o[0].key == k {
        WellFormedCons(Prop(k, v), o[1..]);
      } else {
        SetWellFormed(o[1..], k, v);
        WellFormedCons(o[0], Set(o[1..], k, v));
      }
    }
  }

  /** Omitting keys keeps the keys distinct. */
  lemma {:induction false} OmitWellFormed(o: Object, ks: set<string>)
    requires WellFormed(o)
    ensures WellFormed(Omit(o, ks))
  {
    if o != [] {
      assert o == [o[0]] + o[1..];
      WellFormedCons(o[0], o[1..]);
      OmitWellFormed(o[1..], ks);
      if o[0].key !in ks {
        WellFormedCons(o[0], Omit(o[1..], ks));
      }
    }
  }

  /** A property in front of an object keeps the keys distinct iff its key is new. */
  lemma {:induction false} WellFormedCons(p: Prop, rest: Object)
    ensures WellFormed([p] + rest) <==> WellFormed(rest) && p.key !in Keys(rest)
  {
    var o := [p] + rest;
    if WellFormed(rest) && p.key !in Keys(rest) {
      forall i, j | 0 <= i < j < |o|
        ensures o[i].key != o[j].key
      {
        assert o[j] == rest[j - 1];
        if i == 0 {
          assert o[j].key == Keys(rest)[j - 1];
        } else {
          assert o[i] == rest[i - 1];
        }
      }
    }
    if WellFormed(o) {
      forall i, j | 0 <= i < j < |rest|
        ensures rest[i].key != rest[j].key
      {
        assert rest[i] == o[i + 1] && rest[j] == o[j + 1];
      }
      forall j | 0 <= j < |rest|
        ensures Keys(rest)[j] != p.key
      {
        assert o[0] == p && o[j + 1] == rest[j];
      }
    }
  }

  /** A second write to the same key replaces the first. */
  lemma {:induction false} SetTwice(o: Object, k: string, v: Value, w: Value)
    ensures Set(Set(o, k, v), k, w) == Set(o, k, w)
  {
    if o != [] && o[0].key != k {
      SetTwice(o[1..], k, v, w);
    }
  }

  /** Overwriting an omitted key before omitting it makes no difference. */
  lemma {:induction false} OmitSet(o: Object, k: string, v: Value, ks: set<string>)
    requires k in ks
    ensures Omit(Set(o, k, v), ks) == Omit(o, ks)
  {
    if o != [] && o[0].key != k {
      OmitSet(o[1..], k, v, ks);
    }
  }
}
