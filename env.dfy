/**
 * Environment composition: `_envAssigner`, its `_clean` and `_env`.
 *
 * `_env(env)` starts from `{}`, copies the ambient environment and then
 * the overrides through `_envAssigner`, which joins array values with the
 * platform's path delimiter and, on win32, first deletes every key equal
 * to the new one ignoring case.  The platform, the delimiter and the
 * ambient environment are parameters.
 */
module Env {
  import opened JsValues

  /** `process.platform === "win32"` decides every branch; all other platforms behave alike. */
  datatype Platform = Win32 | Posix

  /** `toLowerCase` on one character, restricted to ASCII letters. */
  function LowerChar(c: char): char {
    if 'A' <= c <= 'Z' then (c as int + 32) as char else c
  }

  function Lower(s: string): string {
    seq(|s|, i requires 0 <= i < |s| => LowerChar(s[i]))
  }

  predicate SameIgnoringCase(a: string, b: string) {
    Lower(a) == Lower(b)
  }

  /** No two keys are equal ignoring case. */
  ghost predicate CaseUnique(m: map<string, Value>) {
    forall a, b :: a in m && b in m && SameIgnoringCase(a, b) ==> a == b
  }

  /** `items.join(delim)` */
  function Join(items: seq<string>, delim: string): string
    decreases |items|
  {
    if |items| == 0 then ""
    else if |items| == 1 then items[0]
    else Join(items[..|items| - 1], delim) + delim + items[|items| - 1]
  }

  /** The value `_envAssigner` stores: arrays are joined with the delimiter. */
  function Stored(v: Value, delim: string): Value {
    if v.Arr? then Str(Join(v.items, delim)) else v
  }

  /** `_clean(key)` after visiting the names `ks`. */
  function CleanFrom(d: Dict, ks: seq<string>, key: string): (r: Dict)
    ensures WellFormed(d) ==> WellFormed(r)
    decreases |ks|
  {
    if ks == [] then d
    else
      var prev := CleanFrom(d, ks[..|ks| - 1], key);
      if SameIgnoringCase(ks[|ks| - 1], key) then Remove(prev, ks[|ks| - 1]) else prev
  }

  /** `_clean(key)`: one pass over the object's own names. */
  function CleanF(d: Dict, key: string): Dict {
    CleanFrom(d, d.keys, key)
  }

  lemma {:induction false} CleanFromProps(d: Dict, ks: seq<string>, key: string)
    ensures CleanFrom(d, ks, key).props
         == map k | k in d.props && !(k in ks && SameIgnoringCase(k, key)) :: d.props[k]
    decreases |ks|
  {
    if ks != [] {
      var front := ks[..|ks| - 1];
      CleanFromProps(d, front, key);
      assert ks == front + [ks[|ks| - 1]];
    }
  }

  /** `_clean(key)` deletes exactly the keys equal to `key` ignoring case. */
  lemma CleanProps(d: Dict, key: string)
    requires WellFormed(d)
    ensures CleanF(d, key).props == map k | k in d.props && !SameIgnoringCase(k, key) :: d.props[k]
  {
    CleanFromProps(d, d.keys, key);
  }

  /** `_envAssigner(d, key, val)` */
  function EnvPutF(d: Dict, key: string, val: Value, platform: Platform, delim: string): Dict {
    Put(if platform == Win32 then CleanF(d, key) else d, key, Stored(val, delim))
  }

  /** `_envAssigner` for each key of `ks`, in order. */
  function EnvAssignFrom(d: Dict, ks: seq<string>, ps: map<string, Value>, platform: Platform, delim: string): (r: Dict)
    ensures WellFormed(d) ==> WellFormed(r)
    decreases |ks|
  {
    if ks == [] then d
    else
      var k := ks[|ks| - 1];
      EnvPutF(EnvAssignFrom(d, ks[..|ks| - 1], ps, platform, delim), k, LookupIn(ps, k), platform, delim)
  }

  lemma EnvAssignFromSnoc(d: Dict, ks: seq<string>, k: string, ps: map<string, Value>, platform: Platform, delim: string)
    ensures EnvAssignFrom(d, ks + [k], ps, platform, delim)
         == EnvPutF(EnvAssignFrom(d, ks, ps, platform, delim), k, LookupIn(ps, k), platform, delim)
  {
    assert (ks + [k])[..|ks|] == ks;
  }

  function EnvAssigned(d: Dict, src: Dict, platform: Platform, delim: string): Dict {
    EnvAssignFrom(d, src.keys, src.props, platform, delim)
  }

  /** `_env(env)`: `{}`, then the ambient environment, then the overrides. */
  function ComposeF(ambient: Dict, env: Dict, platform: Platform, delim: string): Dict {
    EnvAssigned(EnvAssigned(Empty, ambient, platform, delim), env, platform, delim)
  }

  /** Every value of `m` as `_envAssigner` stores it. */
  function StoredAll(m: map<string, Value>, delim: string): map<string, Value> {
    map k | k in m :: Stored(m[k], delim)
  }

  /** Off win32 no key is ever removed: the overrides are a map union. */
  lemma {:induction false} EnvAssignPosix(d: Dict, ks: seq<string>, ps: map<string, Value>, delim: string)
    ensures EnvAssignFrom(d, ks, ps, Posix, delim).props
         == d.props + map k | k in ks :: Stored(LookupIn(ps, k), delim)
    decreases |ks|
  {
    if ks != [] {
      var front, k := ks[..|ks| - 1], ks[|ks| - 1];
      assert ks == front + [k];
      EnvAssignPosix(d, front, ps, delim);
      EnvAssignFromSnoc(d, front, k, ps, Posix, delim);
      StoredUnionSnoc(d.props, front, k, ps, delim);
    }
  }

  lemma StoredUnionSnoc(m: map<string, Value>, front: seq<string>, k: string, ps: map<string, Value>, delim: string)
    ensures (m + map k' | k' in front :: Stored(LookupIn(ps, k'), delim))[k := Stored(LookupIn(ps, k), delim)]
         == m + map k' | k' in front + [k] :: Stored(LookupIn(ps, k'), delim)
  {
    var v := Stored(LookupIn(ps, k), delim);
    var before := map k' | k' in front :: Stored(LookupIn(ps, k'), delim);
    var after := map k' | k' in front + [k] :: Stored(LookupIn(ps, k'), delim);
    assert after == before[k := v] by {
      forall x ensures x in after <==> x in before[k := v] {
        assert x in front + [k] <==> x in front || x == k;
      }
    }
  }

  /** On win32 one `_envAssigner` call keeps "no two keys equal ignoring case". */
  lemma EnvPutKeepsCaseUnique(d: Dict, key: string, val: Value, delim: string)
    requires WellFormed(d) && CaseUnique(d.props)
    ensures CaseUnique(EnvPutF(d, key, val, Win32, delim).props)
  {
    CleanProps(d, key);
  }

  lemma {:induction false} EnvAssignKeepsCaseUnique(d: Dict, ks: seq<string>, ps: map<string, Value>, delim: string)
    requires WellFormed(d) && CaseUnique(d.props)
    ensures CaseUnique(EnvAssignFrom(d, ks, ps, Win32, delim).props)
    decreases |ks|
  {
    if ks != [] {
      var front := ks[..|ks| - 1];
      EnvAssignKeepsCaseUnique(d, front, ps, delim);
      EnvPutKeepsCaseUnique(EnvAssignFrom(d, front, ps, Win32, delim), ks[|ks| - 1], LookupIn(ps, ks[|ks| - 1]), delim);
    }
  }

  /** `ks[i]` is the last key of `ks` in its case-insensitive class. */
  predicate LastOfItsCase(ks: seq<string>, i: int)
    requires 0 <= i < |ks|
  {
    forall j :: i < j < |ks| ==> !SameIgnoringCase(ks[j], ks[i])
  }

  predicate NoCaseVariantIn(ks: seq<string>, a: string) {
    forall j :: 0 <= j < |ks| ==> !SameIgnoringCase(ks[j], a)
  }

  /** One `_envAssigner` call on win32, key by key. */
  lemma EnvPutWin32(d: Dict, key: string, val: Value, delim: string)
    requires WellFormed(d)
    ensures var r := EnvPutF(d, key, val, Win32, delim).props;
      && key in r && r[key] == Stored(val, delim)
      && (forall a :: a != key ==> (a in r <==> a in d.props && !SameIgnoringCase(a, key)))
      && (forall a :: a != key && a in r ==> r[a] == d.props[a])
  {
    CleanProps(d, key);
  }

  lemma LastOfItsCaseFront(ks: seq<string>, i: int)
    requires 0 <= i < |ks| - 1 && LastOfItsCase(ks, i)
    ensures !SameIgnoringCase(ks[|ks| - 1], ks[i])
    ensures LastOfItsCase(ks[..|ks| - 1], i) && ks[..|ks| - 1][i] == ks[i]
  {
    var front := ks[..|ks| - 1];
    forall j | i < j < |front| ensures !SameIgnoringCase(front[j], front[i]) {
      assert front[j] == ks[j] && front[i] == ks[i];
    }
  }

  /** On win32 the last key of each case class wins with its stored value. */
  lemma {:induction false} EnvAssignWin32Last(d: Dict, ks: seq<string>, ps: map<string, Value>, delim: string)
    requires WellFormed(d)
    ensures var r := EnvAssignFrom(d, ks, ps, Win32, delim).props;
      forall i :: 0 <= i < |ks| && LastOfItsCase(ks, i)
        ==> ks[i] in r && r[ks[i]] == Stored(LookupIn(ps, ks[i]), delim)
    decreases |ks|
  {
    if ks != [] {
      var front, kl := ks[..|ks| - 1], ks[|ks| - 1];
      assert ks == front + [kl];
      EnvAssignWin32Last(d, front, ps, delim);
      var prev := EnvAssignFrom(d, front, ps, Win32, delim).props;
      EnvAssignFromSnoc(d, front, kl, ps, Win32, delim);
      EnvPutWin32(EnvAssignFrom(d, front, ps, Win32, delim), kl, LookupIn(ps, kl), delim);
      var r := EnvAssignFrom(d, ks, ps, Win32, delim).props;
      forall i | 0 <= i < |ks| && LastOfItsCase(ks, i)
        ensures ks[i] in r && r[ks[i]] == Stored(LookupIn(ps, ks[i]), delim)
      {
        if i < |ks| - 1 {
          LastOfItsCaseFront(ks, i);
          assert front[i] in prev && prev[front[i]] == Stored(LookupIn(ps, front[i]), delim);
        }
      }
    }
  }

  /** On win32 a key that no new key matches ignoring case keeps its value. */
  lemma {:induction false} EnvAssignWin32Kept(d: Dict, ks: seq<string>, ps: map<string, Value>, delim: string)
    requires WellFormed(d)
    ensures var r := EnvAssignFrom(d, ks, ps, Win32, delim).props;
      forall a :: a in d.props && NoCaseVariantIn(ks, a) ==> a in r && r[a] == d.props[a]
    decreases |ks|
  {
    if ks != [] {
      var front, kl := ks[..|ks| - 1], ks[|ks| - 1];
      EnvAssignWin32Kept(d, front, ps, delim);
      EnvPutWin32(EnvAssignFrom(d, front, ps, Win32, delim), kl, LookupIn(ps, kl), delim);
      forall a | a in d.props && NoCaseVariantIn(ks, a)
        ensures NoCaseVariantIn(front, a) && !SameIgnoringCase(a, kl) && a != kl
      {
        assert !SameIgnoringCase(ks[|ks| - 1], a);
      }
    }
  }

  /** `a` is one of the new keys `ks`, or a key of `m` that no new key matches ignoring case. */
  predicate NewOrUnmatched(m: map<string, Value>, ks: seq<string>, a: string) {
    a in ks || (a in m && NoCaseVariantIn(ks, a))
  }

  lemma NewOrUnmatchedStep(m: map<string, Value>, front: seq<string>, kl: string, a: string)
    requires NewOrUnmatched(m, front, a)
    requires a == kl || !SameIgnoringCase(a, kl)
    ensures NewOrUnmatched(m, front + [kl], a)
  {
    var ks := front + [kl];
    if a !in front && a != kl {
      forall j | 0 <= j < |ks| ensures !SameIgnoringCase(ks[j], a) {
        if j == |front| {
          assert Lower(kl) != Lower(a);
        }
      }
    }
  }

  /** On win32 every key present is a new key or an old key no new key matches. */
  lemma {:induction false} EnvAssignWin32Only(d: Dict, ks: seq<string>, ps: map<string, Value>, delim: string)
    requires WellFormed(d)
    ensures var r := EnvAssignFrom(d, ks, ps, Win32, delim).props;
      forall a :: a in r ==> NewOrUnmatched(d.props, ks, a)
    decreases |ks|
  {
    if ks != [] {
      var front, kl := ks[..|ks| - 1], ks[|ks| - 1];
      assert ks == front + [kl];
      EnvAssignWin32Only(d, front, ps, delim);
      var prev := EnvAssignFrom(d, front, ps, Win32, delim);
      EnvPutWin32(prev, kl, LookupIn(ps, kl), delim);
      var r := EnvAssignFrom(d, ks, ps, Win32, delim).props;
      forall a | a in r
        ensures NewOrUnmatched(d.props, ks, a)
      {
        if a != kl {
          assert a in prev.props && !SameIgnoringCase(a, kl);
          NewOrUnmatchedStep(d.props, front, kl, a);
        }
      }
    }
  }

  /** `_clean(key)`; deleting the name being visited is safe, so the names are those at the start. */
  method Clean(des: JsObject, key: string)
    requires des.Valid()
    modifies des
    ensures des.Valid() && des.Snapshot() == CleanF(old(des.Snapshot()), key)
  {
    var k := Lower(key);
    var names := des.keys;
    ghost var d0 := des.Snapshot();
    var j := 0;
    while j < |names|
      invariant 0 <= j <= |names|
      invariant des.Valid()
      invariant des.Snapshot() == CleanFrom(d0, names[..j], key)
    {
      var name := names[j];
      assert names[..j + 1][..j] == names[..j];
      if Lower(name) == k {
        des.Delete(name);
      }
      j := j + 1;
    }
    assert names[..|names|] == names;
  }

  /** `_envAssigner(des, key, val)` */
  method EnvPut(des: JsObject, key: string, val: Value, platform: Platform, delim: string)
    requires des.Valid()
    modifies des
    ensures des.Valid() && des.Snapshot() == EnvPutF(old(des.Snapshot()), key, val, platform, delim)
  {
    var v := val;
    if v.Arr? {
      v := Str(Join(v.items, delim));
    }
    if platform == Win32 {
      Clean(des, key);
    }
    des.Set(key, v);
  }

  /** `_assign(_envAssigner, des, src)` for one source. */
  method EnvAssign(des: JsObject, src: JsObject, platform: Platform, delim: string)
    requires des.Valid() && src.Valid() && des != src
    modifies des
    ensures des.Valid() && des.Snapshot() == EnvAssigned(old(des.Snapshot()), old(src.Snapshot()), platform, delim)
  {
    var ks, ps := src.keys, src.props;
    ghost var d0, done := des.Snapshot(), [];
    var j := 0;
    while j < |ks|
      invariant 0 <= j <= |ks| && done == ks[..j]
      invariant des.Valid()
      invariant des.Snapshot() == EnvAssignFrom(d0, done, ps, platform, delim)
    {
      var key := ks[j];
      EnvAssignFromSnoc(d0, done, key, ps, platform, delim);
      EnvPut(des, key, LookupIn(ps, key), platform, delim);
      done, j := done + [key], j + 1;
    }
    assert done == ks;
  }

  /**
   * The overrides `_env` copies from `env`: the contents of an object;
   * the model takes no overrides from any other value (see the README).
   */
  function Overrides(env: Value): Dict
    reads if env.Obj? then {env.o} else {}
  {
    if env.Obj? then env.o.Snapshot() else Empty
  }

  /** `_env(env)` with the ambient environment `process.env` passed in. */
  method Compose(ambient: JsObject, env: Value, platform: Platform, delim: string) returns (r: JsObject)
    requires ambient.Valid() && (env.Obj? ==> env.o.Valid())
    ensures fresh(r) && r.Valid()
    ensures r.Snapshot() == ComposeF(ambient.Snapshot(), Overrides(env), platform, delim)
  {
    r := new JsObject();
    EnvAssign(r, ambient, platform, delim);
    if env.Obj? {
      EnvAssign(r, env.o, platform, delim);
    }
  }

  lemma StoredKeys(d: Dict, delim: string)
    requires WellFormed(d)
    ensures (map k | k in d.keys :: Stored(LookupIn(d.props, k), delim)) == StoredAll(d.props, delim)
  {
  }

  /**
   * `_env` off win32: every override maps to its (joined) value and every
   * ambient key that is not overridden keeps its value.
   */
  lemma ComposePosix(ambient: Dict, env: Dict, delim: string)
    requires WellFormed(ambient) && WellFormed(env)
    ensures ComposeF(ambient, env, Posix, delim).props
         == StoredAll(ambient.props, delim) + StoredAll(env.props, delim)
  {
    EnvAssignPosix(Empty, ambient.keys, ambient.props, delim);
    StoredKeys(ambient, delim);
    assert Empty.props + StoredAll(ambient.props, delim) == StoredAll(ambient.props, delim);
    var mid := EnvAssigned(Empty, ambient, Posix, delim);
    EnvAssignPosix(mid, env.keys, env.props, delim);
    StoredKeys(env, delim);
  }

  /** On win32 every key of `_env`'s result is an override, or an ambient key that no override matches. */
  lemma ComposeWin32Only(ambient: Dict, env: Dict, delim: string)
    requires WellFormed(ambient) && WellFormed(env)
    ensures var r := ComposeF(ambient, env, Win32, delim).props;
      forall a :: a in r ==> a in env.keys || (a in ambient.keys && NoCaseVariantIn(env.keys, a))
  {
    var mid := EnvAssigned(Empty, ambient, Win32, delim);
    EnvAssignWin32Only(Empty, ambient.keys, ambient.props, delim);
    EnvAssignWin32Only(mid, env.keys, env.props, delim);
    var r := ComposeF(ambient, env, Win32, delim).props;
    forall a | a in r
      ensures a in env.keys || (a in ambient.keys && NoCaseVariantIn(env.keys, a))
    {
      assert NewOrUnmatched(mid.props, env.keys, a);
      if a !in env.keys {
        assert NewOrUnmatched(Empty.props, ambient.keys, a);
      }
    }
  }

  /** Case uniqueness and the values `_env` keeps on win32. */
  lemma ComposeWin32Values(ambient: Dict, env: Dict, delim: string)
    requires WellFormed(ambient) && WellFormed(env)
    ensures var r := ComposeF(ambient, env, Win32, delim).props;
      && CaseUnique(r)
      && (forall i :: 0 <= i < |env.keys| && LastOfItsCase(env.keys, i)
            ==> env.keys[i] in r && r[env.keys[i]] == Stored(env.props[env.keys[i]], delim))
      && (forall i :: 0 <= i < |ambient.keys| && LastOfItsCase(ambient.keys, i)
                      && NoCaseVariantIn(env.keys, ambient.keys[i])
            ==> ambient.keys[i] in r && r[ambient.keys[i]] == Stored(ambient.props[ambient.keys[i]], delim))
  {
    var mid := EnvAssigned(Empty, ambient, Win32, delim);
    EnvAssignKeepsCaseUnique(Empty, ambient.keys, ambient.props, delim);
    EnvAssignKeepsCaseUnique(mid, env.keys, env.props, delim);
    EnvAssignWin32Last(Empty, ambient.keys, ambient.props, delim);
    EnvAssignWin32Last(mid, env.keys, env.props, delim);
    EnvAssignWin32Kept(mid, env.keys, env.props, delim);
  }

  /**
   * `_env` on win32: no two keys are equal ignoring case; an override that
   * is the last of its case class maps to its (joined) value; an ambient
   * key that no override matches ignoring case, and that is the last of
   * its class in the ambient environment, keeps its value; and no other
   * key is present.
   */
  lemma ComposeWin32(ambient: Dict, env: Dict, delim: string)
    requires WellFormed(ambient) && WellFormed(env)
    ensures var r := ComposeF(ambient, env, Win32, delim).props;
      && CaseUnique(r)
      && (forall i :: 0 <= i < |env.keys| && LastOfItsCase(env.keys, i)
            ==> env.keys[i] in r && r[env.keys[i]] == Stored(env.props[env.keys[i]], delim))
      && (forall i :: 0 <= i < |ambient.keys| && LastOfItsCase(ambient.keys, i)
                      && NoCaseVariantIn(env.keys, ambient.keys[i])
            ==> ambient.keys[i] in r && r[ambient.keys[i]] == Stored(ambient.props[ambient.keys[i]], delim))
      && (forall a :: a in r ==> a in env.keys || (a in ambient.keys && NoCaseVariantIn(env.keys, a)))
  {
    ComposeWin32Values(ambient, env, delim);
    ComposeWin32Only(ambient, env, delim);
  }
}
