/**
 * JavaScript values and plain objects as the launcher sees them.
 *
 * An option bag or an environment map is a heap object whose own
 * properties are updated in place; its for-in order is the order in
 * which keys were first inserted.  `Dict` is the abstract value of such
 * an object and the pure functions on it specify the object's methods.
 */
module JsValues {

  /** The values an option or an environment entry can hold. */
  datatype Value =
    | Undefined
    | Null
    | Bool(b: bool)
    | Num(n: int)
    | Str(s: string)
    | Bytes(data: seq<bv8>)     // a Buffer
    | Arr(items: seq<string>)   // an array of strings
    | Obj(o: JsObject)          // a plain object, by reference
    | Func(id: nat)             // a caller-supplied function

  /** JavaScript truthiness. Every object, array, Buffer and function is truthy. */
  predicate Truthy(v: Value) {
    match v
    case Undefined => false
    case Null => false
    case Bool(b) => b
    case Num(n) => n != 0
    case Str(s) => s != ""
    case _ => true
  }

  /** `a || b` */
  function Or(a: Value, b: Value): (r: Value)
    ensures Truthy(a) ==> r == a
    ensures !Truthy(a) ==> r == b
  {
    if Truthy(a) then a else b
  }

  predicate NoDuplicates<T(==)>(s: seq<T>) {
    forall i, j :: 0 <= i < j < |s| ==> s[i] != s[j]
  }

  /** Own properties in for-in order. */
  datatype Dict = Dict(keys: seq<string>, props: map<string, Value>)

  const Empty := Dict([], map[])

  /** The key order lists each own property exactly once. */
  predicate WellFormed(d: Dict) {
    && NoDuplicates(d.keys)
    && (forall k :: k in d.keys ==> k in d.props)
    && (forall k :: k in d.props ==> k in d.keys)
  }

  /** `m[k]`, `undefined` when absent. */
  function LookupIn(m: map<string, Value>, k: string): Value {
    if k in m then m[k] else Undefined
  }

  function Lookup(d: Dict, k: string): Value {
    LookupIn(d.props, k)
  }

  /** `d[k] = v`: an existing key keeps its place, a new one goes last. */
  function Put(d: Dict, k: string, v: Value): (r: Dict)
    ensures WellFormed(d) ==> WellFormed(r)
    ensures r.props == d.props[k := v]
    ensures k in d.props ==> r.keys == d.keys
  {
    if k in d.props then Dict(d.keys, d.props[k := v])
    else Dict(d.keys + [k], d.props[k := v])
  }

  /** The sequence without any occurrence of `k`. */
  function Without(s: seq<string>, k: string): (r: seq<string>)
    ensures forall x :: x in r <==> x in s && x != k
    ensures NoDuplicates(s) ==> NoDuplicates(r)
  {
    if s == [] then []
    else if s[|s| - 1] == k then Without(s[..|s| - 1], k)
    else
      var front := Without(s[..|s| - 1], k);
      assert NoDuplicates(s) ==> s[|s| - 1] !in s[..|s| - 1];
      front + [s[|s| - 1]]
  }

  /** `delete d[k]` */
  function Remove(d: Dict, k: string): (r: Dict)
    ensures WellFormed(d) ==> WellFormed(r)
    ensures r.props == d.props - {k}
  {
    Dict(Without(d.keys, k), d.props - {k})
  }

  /** `a` and `b` hold the same value under every key outside `ex`. */
  ghost predicate AgreeOutside(a: Dict, b: Dict, ex: set<string>) {
    forall k :: k !in ex ==> Lookup(a, k) == Lookup(b, k)
  }

  lemma AgreeTrans(a: Dict, b: Dict, c: Dict, ex1: set<string>, ex2: set<string>, ex: set<string>)
    requires AgreeOutside(a, b, ex1) && AgreeOutside(b, c, ex2) && ex1 <= ex && ex2 <= ex
    ensures AgreeOutside(a, c, ex)
  {
  }

  lemma AgreeWider(a: Dict, b: Dict, ex1: set<string>, ex2: set<string>)
    requires AgreeOutside(a, b, ex1) && ex1 <= ex2
    ensures AgreeOutside(a, b, ex2)
  {
  }

  /** Writing a key of `ex` keeps the agreement outside `ex`. */
  lemma PutAgrees(a: Dict, b: Dict, ex: set<string>, k: string, v: Value)
    requires AgreeOutside(a, b, ex) && k in ex
    ensures AgreeOutside(Put(a, k, v), b, ex)
  {
  }

  /** A plain JavaScript object. */
  class JsObject {
    var keys: seq<string>
    var props: map<string, Value>

    function Snapshot(): Dict
      reads this
    {
      Dict(keys, props)
    }

    ghost predicate Valid()
      reads this
    {
      WellFormed(Snapshot())
    }

    /** `{}` */
    constructor ()
      ensures Valid() && Snapshot() == Empty
    {
      keys := [];
      props := map[];
    }

    /** An object literal `{k1: v1, ...}`, its keys in the order written. */
    constructor Literal(d: Dict)
      requires WellFormed(d)
      ensures Valid() && Snapshot() == d
    {
      keys := d.keys;
      props := d.props;
    }

    /** `o[k]` */
    function Get(k: string): Value
      reads this
    {
      LookupIn(props, k)
    }

    /** `o[k] = v` */
    method Set(k: string, v: Value)
      requires Valid()
      modifies this
      ensures Valid() && Snapshot() == Put(old(Snapshot()), k, v)
    {
      if k !in props {
        keys := keys + [k];
      }
      props := props[k := v];
    }

    /** `delete o[k]` */
    method Delete(k: string)
      requires Valid()
      modifies this
      ensures Valid() && Snapshot() == Remove(old(Snapshot()), k)
    {
      keys := Without(keys, k);
      props := props - {k};
    }
  }
}
