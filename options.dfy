/**
 * Option layering: `_assign`, `_optionAssigner` and `_merge`.
 *
 * Layers are copied left to right, key by key, into a destination
 * object.  The key `env` is special: when the destination already holds
 * a truthy `env`, the incoming `env` object is copied INTO that existing
 * object, which may be shared with an earlier layer.  The abstract state
 * of a merge is therefore the destination plus the contents of every
 * object an `env` key can point to (`MergeState`).
 */
module Options {
  import opened JsValues
  import opened Wrappers

  /** `_assign(null, d, src)` restricted to the keys `ks` of a source whose properties are `ps`. */
  function AssignFrom(d: Dict, ks: seq<string>, ps: map<string, Value>): (r: Dict)
    ensures WellFormed(d) ==> WellFormed(r)
    decreases |ks|
  {
    if ks == [] then d
    else
      var k := ks[|ks| - 1];
      Put(AssignFrom(d, ks[..|ks| - 1], ps), k, LookupIn(ps, k))
  }

  /** `_assign(null, d, src)`: every own key of `src`, in for-in order. */
  function Assigned(d: Dict, src: Dict): Dict {
    AssignFrom(d, src.keys, src.props)
  }

  /** The properties of `ps` that the keys `ks` select. */
  function Restricted(ks: seq<string>, ps: map<string, Value>): map<string, Value> {
    map k | k in ks :: LookupIn(ps, k)
  }

  lemma {:induction false} AssignFromProps(d: Dict, ks: seq<string>, ps: map<string, Value>)
    ensures AssignFrom(d, ks, ps).props == d.props + Restricted(ks, ps)
    decreases |ks|
  {
    if ks != [] {
      var front, k := ks[..|ks| - 1], ks[|ks| - 1];
      assert ks == front + [k];
      AssignFromProps(d, front, ps);
      AssignFromSnoc(d, front, k, ps);
      RestrictedSnoc(front, k, ps);
      UpdateUnion(d.props, Restricted(front, ps), k, LookupIn(ps, k));
    }
  }

  lemma AssignFromSnoc(d: Dict, ks: seq<string>, k: string, ps: map<string, Value>)
    ensures AssignFrom(d, ks + [k], ps) == Put(AssignFrom(d, ks, ps), k, LookupIn(ps, k))
  {
    assert (ks + [k])[..|ks|] == ks;
  }

  lemma UpdateUnion(a: map<string, Value>, b: map<string, Value>, k: string, v: Value)
    ensures (a + b)[k := v] == a + b[k := v]
  {
  }

  /** Assigning a source into a destination is a map union in which the source wins. */
  lemma AssignedIsUnion(d: Dict, src: Dict)
    requires WellFormed(src)
    ensures Assigned(d, src).props == d.props + src.props
  {
    AssignFromProps(d, src.keys, src.props);
    assert Restricted(src.keys, src.props) == src.props;
  }

  lemma {:induction false} AssignFromOwn(d: Dict, ks: seq<string>)
    requires forall k :: k in ks ==> k in d.props
    ensures AssignFrom(d, ks, d.props) == d
    decreases |ks|
  {
    if ks != [] {
      AssignFromOwn(d, ks[..|ks| - 1]);
      var k := ks[|ks| - 1];
      assert d.props[k := d.props[k]] == d.props;
    }
  }

  /** Copying an object into itself (`_assign(null, e, e)`) changes nothing. */
  lemma AssignedSelf(d: Dict)
    requires WellFormed(d)
    ensures Assigned(d, d) == d
  {
    AssignFromOwn(d, d.keys);
  }

  lemma {:induction false} AssignFromEmpty(ks: seq<string>, ps: map<string, Value>)
    requires NoDuplicates(ks)
    ensures AssignFrom(Empty, ks, ps) == Dict(ks, Restricted(ks, ps))
    decreases |ks|
  {
    if ks != [] {
      var front, k := ks[..|ks| - 1], ks[|ks| - 1];
      assert ks == front + [k];
      NoDuplicatesSnoc(front, k);
      AssignFromEmpty(front, ps);
      AssignFromSnoc(Empty, front, k, ps);
      RestrictedSnoc(front, k, ps);
    }
  }

  lemma NoDuplicatesSnoc(front: seq<string>, k: string)
    requires NoDuplicates(front + [k])
    ensures NoDuplicates(front) && k !in front
  {
    var ks := front + [k];
    forall i, j | 0 <= i < j < |front| ensures front[i] != front[j] {
      assert front[i] == ks[i] && front[j] == ks[j];
    }
    forall i | 0 <= i < |front| ensures front[i] != k {
      assert front[i] == ks[i] && k == ks[|front|];
    }
  }

  lemma RestrictedSnoc(front: seq<string>, k: string, ps: map<string, Value>)
    ensures Restricted(front + [k], ps) == Restricted(front, ps)[k := LookupIn(ps, k)]
  {
    var a, b := Restricted(front + [k], ps), Restricted(front, ps)[k := LookupIn(ps, k)];
    forall x ensures x in a <==> x in b {
      assert x in front + [k] <==> x in front || x == k;
    }
  }

  /** Copying an object into `{}` reproduces it, key order included. */
  lemma AssignedIntoEmpty(d: Dict)
    requires WellFormed(d)
    ensures Assigned(Empty, d) == d
  {
    AssignFromEmpty(d.keys, d.props);
    assert Restricted(d.keys, d.props) == d.props;
  }

  /** `_assign(null, des, src)`, as `_optionAssigner` uses it on an `env` object. */
  method Assign(des: JsObject, src: JsObject)
    requires des.Valid() && src.Valid()
    modifies des
    ensures des.Valid()
    ensures des.Snapshot() == Assigned(old(des.Snapshot()), old(src.Snapshot()))
  {
    // The keys and values are those of `src` when the loop starts; when
    // `des` is `src` itself every write stores the value already there.
    var ks, ps := src.keys, src.props;
    ghost var d0 := des.Snapshot();
    var j := 0;
    while j < |ks|
      invariant 0 <= j <= |ks|
      invariant des.Valid()
      invariant des.Snapshot() == AssignFrom(d0, ks[..j], ps)
    {
      var key := ks[j];
      assert ks[..j + 1] == ks[..j] + [key];
      AssignFromSnoc(d0, ks[..j], key, ps);
      des.Set(key, LookupIn(ps, key));
      j := j + 1;
    }
    assert ks[..|ks|] == ks;
  }

  /** The destination and the contents of the objects `env` keys may point to. */
  datatype MergeState = MergeState(des: Dict, envs: map<JsObject, Dict>)

  /** `_optionAssigner(des, key, val)` */
  function OptionAssignF(st: MergeState, key: string, val: Value): MergeState {
    var cur := Lookup(st.des, "env");
    if key == "env" && Truthy(cur) then
      if cur.Obj? && val.Obj? && cur.o in st.envs && val.o in st.envs then
        MergeState(st.des, st.envs[cur.o := Assigned(st.envs[cur.o], st.envs[val.o])])
      else
        st
    else
      MergeState(Put(st.des, key, val), st.envs)
  }

  /**
   * `for (key in val)` visits at least one own property: an object's
   * keys (`contents` is that object's), or the indices of a non-empty
   * string, array or Buffer.
   */
  predicate HasOwnKeys(val: Value, contents: Option<Dict>) {
    match val
    case Obj(_) => contents.Some? && contents.value.keys != []
    case Str(s) => s != []
    case Arr(items) => items != []
    case Bytes(data) => data != []
    case _ => false
  }

  /**
   * `_optionAssigner(des, "env", val)` over a truthy string, number or
   * boolean `des.env`: `_assign` writes a property of a primitive, a
   * TypeError under "use strict".  `OptionAssignF` describes only the
   * merges that do not throw.
   */
  predicate EnvWriteThrows(cur: Value, val: Value, contents: Option<Dict>) {
    Truthy(cur) && (cur.Bool? || cur.Num? || cur.Str?) && HasOwnKeys(val, contents)
  }

  /** One layer: `_optionAssigner` for each key of `ks`, in order. */
  function LayerF(st: MergeState, ks: seq<string>, ps: map<string, Value>): MergeState
    decreases |ks|
  {
    if ks == [] then st
    else
      var k := ks[|ks| - 1];
      OptionAssignF(LayerF(st, ks[..|ks| - 1], ps), k, LookupIn(ps, k))
  }

  lemma LayerSnoc(st: MergeState, ks: seq<string>, k: string, ps: map<string, Value>)
    ensures LayerF(st, ks + [k], ps) == OptionAssignF(LayerF(st, ks, ps), k, LookupIn(ps, k))
  {
    assert (ks + [k])[..|ks|] == ks;
  }

  /** `_merge(des, l1, ..., ln)` */
  function MergeF(st: MergeState, layers: seq<Dict>): MergeState
    decreases |layers|
  {
    if layers == [] then st
    else
      var l := layers[|layers| - 1];
      LayerF(MergeF(st, layers[..|layers| - 1]), l.keys, l.props)
  }

  lemma MergeSnoc(st: MergeState, layers: seq<Dict>, l: Dict)
    ensures MergeF(st, layers + [l]) == LayerF(MergeF(st, layers), l.keys, l.props)
  {
    assert (layers + [l])[..|layers|] == layers;
  }

  function ObjectsOf(v: Value): set<JsObject> {
    if v.Obj? then {v.o} else {}
  }

  /** The objects the `env` keys of the destination and of the layers point to. */
  function EnvObjects(des: JsObject, layers: seq<JsObject>): set<JsObject>
    reads des, layers
  {
    ObjectsOf(des.Get("env"))
      + set i | 0 <= i < |layers| && layers[i].Get("env").Obj? :: layers[i].Get("env").o
  }

  lemma EnvObjectsWithin(des: JsObject, layers: seq<JsObject>, E: set<JsObject>)
    requires ObjectsOf(des.Get("env")) <= E
    requires forall i :: 0 <= i < |layers| ==> ObjectsOf(layers[i].Get("env")) <= E
    ensures EnvObjects(des, layers) <= E
  {
    forall x | x in EnvObjects(des, layers) ensures x in E {
      if x !in ObjectsOf(des.Get("env")) {
        var i :| 0 <= i < |layers| && layers[i].Get("env").Obj? && x == layers[i].Get("env").o;
        assert x in ObjectsOf(layers[i].Get("env"));
      }
    }
  }

  function Contents(objs: set<JsObject>): map<JsObject, Dict>
    reads objs
  {
    map o | o in objs :: o.Snapshot()
  }

  function Snapshots(layers: seq<JsObject>): (r: seq<Dict>)
    reads layers
    ensures |r| == |layers|
    ensures forall i :: 0 <= i < |layers| ==> r[i] == layers[i].Snapshot()
  {
    if layers == [] then []
    else Snapshots(layers[..|layers| - 1]) + [layers[|layers| - 1].Snapshot()]
  }

  ghost predicate AllValid(objs: set<JsObject>)
    reads objs
  {
    forall o :: o in objs ==> o.Valid()
  }

  /** `_optionAssigner(des, key, val)`; `E` holds every object an `env` key may point to. */
  method OptionAssign(des: JsObject, key: string, val: Value, ghost E: set<JsObject>)
    requires des.Valid() && AllValid(E) && des !in E
    requires ObjectsOf(des.Get("env")) <= E
    requires key == "env" ==> ObjectsOf(val) <= E
    modifies des, E
    ensures des.Valid() && AllValid(E)
    ensures ObjectsOf(des.Get("env")) <= E
    ensures MergeState(des.Snapshot(), Contents(E))
         == OptionAssignF(old(MergeState(des.Snapshot(), Contents(E))), key, val)
  {
    var cur := des.Get("env");
    if key == "env" && Truthy(cur) {
      if cur.Obj? && val.Obj? {
        AssignWithin(cur.o, val.o, E);
      }
    } else {
      des.Set(key, val);
      assert Contents(E) == old(Contents(E));
    }
  }

  /** `_assign(null, des, src)` between two of the objects in `E`. */
  method AssignWithin(des: JsObject, src: JsObject, ghost E: set<JsObject>)
    requires des in E && src in E && AllValid(E)
    modifies des
    ensures AllValid(E)
    ensures Contents(E) == old(Contents(E))[des := Assigned(old(des.Snapshot()), old(src.Snapshot()))]
  {
    Assign(des, src);
    assert Contents(E) == old(Contents(E))[des := des.Snapshot()];
  }

  /** The inner loop of `_assign(_optionAssigner, des, ...)` for one layer `src`. */
  method AssignLayer(des: JsObject, src: JsObject, ghost E: set<JsObject>)
    requires des.Valid() && src.Valid() && AllValid(E)
    requires des !in E && src != des && src !in E
    requires ObjectsOf(des.Get("env")) <= E && ObjectsOf(src.Get("env")) <= E
    modifies des, E
    ensures des.Valid() && AllValid(E)
    ensures ObjectsOf(des.Get("env")) <= E
    ensures MergeState(des.Snapshot(), Contents(E))
         == LayerF(old(MergeState(des.Snapshot(), Contents(E))), old(src.keys), old(src.props))
  {
    var ks, ps := src.keys, src.props;
    ghost var st0 := MergeState(des.Snapshot(), Contents(E));
    var j := 0;
    while j < |ks|
      invariant 0 <= j <= |ks|
      invariant des.Valid() && AllValid(E)
      invariant ObjectsOf(des.Get("env")) <= E
      invariant src.keys == ks && src.props == ps
      invariant MergeState(des.Snapshot(), Contents(E)) == LayerF(st0, ks[..j], ps)
    {
      var key := ks[j];
      assert ks[..j + 1] == ks[..j] + [key];
      LayerSnoc(st0, ks[..j], key, ps);
      OptionAssign(des, key, LookupIn(ps, key), E);
      j := j + 1;
    }
    assert ks[..|ks|] == ks;
  }

  /**
   * `_merge(des, layers...)`.  The destination is not one of the layers
   * and no `env` key points at the destination or at a layer.
   */
  method Merge(des: JsObject, layers: seq<JsObject>, ghost E: set<JsObject>) returns (r: JsObject)
    requires des.Valid() && forall i :: 0 <= i < |layers| ==> layers[i].Valid()
    requires EnvObjects(des, layers) <= E && AllValid(E)
    requires des !in E && forall i :: 0 <= i < |layers| ==> layers[i] != des && layers[i] !in E
    modifies des, E
    ensures r == des && des.Valid() && AllValid(E)
    ensures MergeState(des.Snapshot(), Contents(E))
         == MergeF(old(MergeState(des.Snapshot(), Contents(E))), old(Snapshots(layers)))
  {
    ghost var st0 := MergeState(des.Snapshot(), Contents(E));
    ghost var snaps := Snapshots(layers);
    ghost var sources := set n | 0 <= n < |layers| :: layers[n];
    assert forall n :: 0 <= n < |layers| ==> ObjectsOf(layers[n].Get("env")) <= E;
    var i := 0;
    while i < |layers|
      invariant 0 <= i <= |layers|
      invariant des.Valid() && AllValid(E)
      invariant ObjectsOf(des.Get("env")) <= E
      invariant unchanged(sources)
      invariant MergeState(des.Snapshot(), Contents(E)) == MergeF(st0, snaps[..i])
    {
      assert layers[i] in sources;
      MergeStep(des, layers[i], E, st0, snaps, i);
      i := i + 1;
    }
    PrefixAll(snaps);
    r := des;
  }

  lemma PrefixAll<T>(s: seq<T>)
    ensures s[..|s|] == s
  {
  }

  /** One pass of the outer loop of `_assign(_optionAssigner, des, ...)`. */
  method MergeStep(des: JsObject, src: JsObject, ghost E: set<JsObject>, ghost st0: MergeState,
                   ghost snaps: seq<Dict>, ghost i: nat)
    requires i < |snaps| && snaps[i] == src.Snapshot()
    requires des.Valid() && src.Valid() && AllValid(E)
    requires des !in E && src != des && src !in E
    requires ObjectsOf(des.Get("env")) <= E && ObjectsOf(src.Get("env")) <= E
    requires MergeState(des.Snapshot(), Contents(E)) == MergeF(st0, snaps[..i])
    modifies des, E
    ensures des.Valid() && AllValid(E)
    ensures ObjectsOf(des.Get("env")) <= E
    ensures MergeState(des.Snapshot(), Contents(E)) == MergeF(st0, snaps[..i + 1])
  {
    assert snaps[..i + 1] == snaps[..i] + [snaps[i]];
    MergeSnoc(st0, snaps[..i], snaps[i]);
    AssignLayer(des, src, E);
  }

  /** `Object.assign`-style union of the layers' properties, later layers winning. */
  function UnionAll(m: map<string, Value>, layers: seq<Dict>): map<string, Value>
    decreases |layers|
  {
    if layers == [] then m
    else UnionAll(m, layers[..|layers| - 1]) + layers[|layers| - 1].props
  }

  /** Outside `env`, a layer's keys overwrite the destination's. */
  lemma {:induction false} LayerOutsideEnv(st: MergeState, ks: seq<string>, ps: map<string, Value>)
    ensures LayerF(st, ks, ps).des.props - {"env"} == (st.des.props + Restricted(ks, ps)) - {"env"}
    decreases |ks|
  {
    if ks != [] {
      var front, k := ks[..|ks| - 1], ks[|ks| - 1];
      assert ks == front + [k];
      LayerOutsideEnv(st, front, ps);
      LayerSnoc(st, front, k, ps);
      RestrictedSnoc(front, k, ps);
      var prev := LayerF(st, front, ps).des.props;
      var v := LookupIn(ps, k);
      UpdateUnion(st.des.props, Restricted(front, ps), k, v);
      UpdateOutside(prev, k, v, "env");
      UpdateOutside(st.des.props + Restricted(front, ps), k, v, "env");
      assert k != "env" ==> OptionAssignF(LayerF(st, front, ps), k, v).des.props == prev[k := v];
    }
  }

  lemma UpdateOutside(m: map<string, Value>, k: string, v: Value, e: string)
    ensures k == e ==> m[k := v] - {e} == m - {e}
    ensures k != e ==> m[k := v] - {e} == (m - {e})[k := v]
  {
  }

  lemma UnionOutside(a: map<string, Value>, b: map<string, Value>, c: map<string, Value>, e: string)
    requires a - {e} == b - {e}
    ensures (a + c) - {e} == (b + c) - {e}
  {
    forall k | k != e ensures k in (a + c) <==> k in (b + c) {
      assert k in a <==> k in a - {e};
      assert k in b <==> k in b - {e};
    }
    forall k | k != e && k in a + c ensures (a + c)[k] == (b + c)[k] {
      if k !in c {
        assert (a - {e})[k] == a[k] && (b - {e})[k] == b[k];
      }
    }
  }

  /** Outside `env`, merging is the union of all layers in order. */
  lemma {:induction false} MergeOutsideEnv(st: MergeState, layers: seq<Dict>)
    requires forall i :: 0 <= i < |layers| ==> WellFormed(layers[i])
    ensures MergeF(st, layers).des.props - {"env"} == UnionAll(st.des.props, layers) - {"env"}
    decreases |layers|
  {
    if layers != [] {
      var front, l := layers[..|layers| - 1], layers[|layers| - 1];
      MergeOutsideEnv(st, front);
      var prev := MergeF(st, front);
      LayerOutsideEnv(prev, l.keys, l.props);
      assert Restricted(l.keys, l.props) == l.props;
      UnionOutside(prev.des.props, UnionAll(st.des.props, front), l.props, "env");
    }
  }

  lemma {:induction false} UnionAllLast(m: map<string, Value>, layers: seq<Dict>, k: string, i: int)
    requires 0 <= i < |layers| && k in layers[i].props
    requires forall j :: i < j < |layers| ==> k !in layers[j].props
    ensures k in UnionAll(m, layers) && UnionAll(m, layers)[k] == layers[i].props[k]
    decreases |layers|
  {
    if i < |layers| - 1 {
      UnionAllLast(m, layers[..|layers| - 1], k, i);
    }
  }

  lemma {:induction false} UnionAllAbsent(m: map<string, Value>, layers: seq<Dict>, k: string)
    requires forall j :: 0 <= j < |layers| ==> k !in layers[j].props
    ensures LookupIn(UnionAll(m, layers), k) == LookupIn(m, k)
    decreases |layers|
  {
    if layers != [] {
      UnionAllAbsent(m, layers[..|layers| - 1], k);
    }
  }

  /**
   * Last writer wins: every key other than `env` holds the value of the
   * last layer that has it, and a key no layer has keeps the destination's.
   */
  lemma MergeLastWriterWins(st: MergeState, layers: seq<Dict>, k: string)
    requires k != "env"
    requires forall i :: 0 <= i < |layers| ==> WellFormed(layers[i])
    ensures forall i :: 0 <= i < |layers| && k in layers[i].props
                        && (forall j :: i < j < |layers| ==> k !in layers[j].props)
                        ==> Lookup(MergeF(st, layers).des, k) == layers[i].props[k]
    ensures (forall i :: 0 <= i < |layers| ==> k !in layers[i].props)
            ==> Lookup(MergeF(st, layers).des, k) == Lookup(st.des, k)
  {
    MergeOutsideEnv(st, layers);
    var r := MergeF(st, layers).des.props;
    var u := UnionAll(st.des.props, layers);
    assert LookupIn(r, k) == LookupIn(u, k) by {
      assert k in r <==> k in r - {"env"};
      assert k in u <==> k in u - {"env"};
    }
    forall i | 0 <= i < |layers| && k in layers[i].props
               && (forall j :: i < j < |layers| ==> k !in layers[j].props)
      ensures Lookup(MergeF(st, layers).des, k) == layers[i].props[k]
    {
      UnionAllLast(st.des.props, layers, k, i);
    }
    if forall i :: 0 <= i < |layers| ==> k !in layers[i].props {
      UnionAllAbsent(st.des.props, layers, k);
    }
  }

  /** What a merge step can change about `env`: the destination's `env` value and the env objects. */
  function EnvPart(st: MergeState): (Value, map<JsObject, Dict>) {
    (Lookup(st.des, "env"), st.envs)
  }

  lemma OptionAssignEnvCongruent(s1: MergeState, s2: MergeState, key: string, v: Value)
    requires EnvPart(s1) == EnvPart(s2)
    ensures EnvPart(OptionAssignF(s1, key, v)) == EnvPart(OptionAssignF(s2, key, v))
  {
  }

  /** Within one layer only its `env` key, if any, touches the `env` part. */
  lemma {:induction false} LayerEnvPart(st: MergeState, ks: seq<string>, ps: map<string, Value>)
    requires NoDuplicates(ks)
    ensures "env" !in ks ==> EnvPart(LayerF(st, ks, ps)) == EnvPart(st)
    ensures "env" in ks ==> EnvPart(LayerF(st, ks, ps)) == EnvPart(OptionAssignF(st, "env", LookupIn(ps, "env")))
    decreases |ks|
  {
    if ks != [] {
      var front, k := ks[..|ks| - 1], ks[|ks| - 1];
      assert ks == front + [k];
      LayerEnvPart(st, front, ps);
      var prev := LayerF(st, front, ps);
      if k == "env" {
        assert "env" !in front;
        OptionAssignEnvCongruent(prev, st, "env", LookupIn(ps, "env"));
      }
    }
  }

  /**
   * `env` special case: when the destination already holds an `env`
   * object and the layer brings an `env` object, the destination keeps
   * the SAME object, and that object receives the union of both key sets
   * with the incoming values winning.
   */
  lemma MergeEnvIntoExisting(st: MergeState, l: Dict)
    requires WellFormed(l)
    requires Lookup(st.des, "env").Obj? && Lookup(st.des, "env").o in st.envs
    requires Lookup(l, "env").Obj? && Lookup(l, "env").o in st.envs
    requires WellFormed(st.envs[Lookup(l, "env").o])
    ensures var e, o, r := Lookup(st.des, "env").o, Lookup(l, "env").o, MergeF(st, [l]);
            && Lookup(r.des, "env") == Obj(e)
            && r.envs == st.envs[e := Assigned(st.envs[e], st.envs[o])]
            && r.envs[e].props == st.envs[e].props + st.envs[o].props
  {
    var e, o := Lookup(st.des, "env").o, Lookup(l, "env").o;
    MergeOne(st, l);
    assert "env" in l.keys;
    LayerEnvPart(st, l.keys, l.props);
    assert OptionAssignF(st, "env", Obj(o)).envs == st.envs[e := Assigned(st.envs[e], st.envs[o])];
    AssignedIsUnion(st.envs[e], st.envs[o]);
  }

  /**
   * Over a truthy destination `env` a layer's `env` never replaces it:
   * the destination keeps its value, and an incoming `env` that is not an
   * object leaves every env object as it was.
   */
  lemma MergeEnvKept(st: MergeState, l: Dict)
    requires WellFormed(l) && "env" in l.props && Truthy(Lookup(st.des, "env"))
    ensures Lookup(MergeF(st, [l]).des, "env") == Lookup(st.des, "env")
    ensures !Lookup(l, "env").Obj? ==> MergeF(st, [l]).envs == st.envs
  {
    MergeOne(st, l);
    LayerEnvPart(st, l.keys, l.props);
  }

  lemma MergeOne(st: MergeState, l: Dict)
    ensures MergeF(st, [l]) == LayerF(st, l.keys, l.props)
  {
    assert [l][..0] == [];
  }

  /** Otherwise a layer's `env` replaces the destination's by reference. */
  lemma MergeEnvReplaced(st: MergeState, l: Dict)
    requires WellFormed(l) && "env" in l.props && !Truthy(Lookup(st.des, "env"))
    ensures Lookup(MergeF(st, [l]).des, "env") == l.props["env"]
    ensures MergeF(st, [l]).envs == st.envs
  {
    MergeOne(st, l);
    LayerEnvPart(st, l.keys, l.props);
  }

  /** A layer without `env` changes neither the destination's `env` nor any env object. */
  lemma MergeEnvUntouched(st: MergeState, l: Dict)
    requires WellFormed(l) && "env" !in l.props
    ensures Lookup(MergeF(st, [l]).des, "env") == Lookup(st.des, "env")
    ensures MergeF(st, [l]).envs == st.envs
  {
    MergeOne(st, l);
    LayerEnvPart(st, l.keys, l.props);
  }
}
