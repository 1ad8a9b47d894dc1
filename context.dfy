/**
 * `_context(baseOptions)`: the entry points `shell`, `exec`, `spawn` and
 * `context` of one context, each of which layers the call's options over
 * the context's base options with `_merge({}, baseOptions, options)`,
 * and the module's default context.
 *
 * The merge as written copies a per-call `env` INTO the base options'
 * `env` object (`PrepareCall`, `PerCallEnvLeaks`).  The entry points use
 * `PrepareCallIsolated`, which produces the same effective options but
 * leaves every pre-existing object as it was.
 */
module Contexts {
  import opened JsValues
  import opened Wrappers
  import opened Options
  import opened Env
  import opened Text
  import opened Shell
  import opened Launch

  /** The defaults `module.exports = _context({...})` starts from. */
  function DefaultOptions(): Dict {
    Dict(["Promise", "echoCommand", "ignoreError", "shellName", "shellSwitch",
          "inputContent", "captureOutput", "captureError", "normalizeText"],
         map["Promise" := Null, "echoCommand" := Bool(true), "ignoreError" := Bool(false),
             "shellName" := Null, "shellSwitch" := Null, "inputContent" := Null,
             "captureOutput" := Bool(false), "captureError" := Bool(false),
             "normalizeText" := Bool(true)])
  }

  lemma DefaultsWellFormed()
    ensures WellFormed(DefaultOptions())
  {
  }

  lemma DefaultLookups()
    ensures Lookup(DefaultOptions(), "echoCommand") == Bool(true)
    ensures Lookup(DefaultOptions(), "stdio") == Undefined
    ensures Lookup(DefaultOptions(), "inputContent") == Null
    ensures Lookup(DefaultOptions(), "captureOutput") == Bool(false)
    ensures Lookup(DefaultOptions(), "captureError") == Bool(false)
    ensures Lookup(DefaultOptions(), "ignoreError") == Bool(false)
    ensures Lookup(DefaultOptions(), "shellName") == Null
    ensures Lookup(DefaultOptions(), "shellSwitch") == Null
  {
  }

  /**
   * Under the defaults a command is echoed but never vetoed and inherits
   * all three stdio streams.
   */
  lemma DefaultPlan(echoReturn: Value)
    ensures Decide(DefaultOptions(), echoReturn) == Spawn(true, false, false, false)
    ensures StdioIntent(DefaultOptions()) == ["inherit", "inherit", "inherit"]
  {
    DefaultLookups();
  }

  /** Under the defaults a command runs under `/bin/sh -c`, or `cmd.exe /s /c` without `comspec`. */
  lemma DefaultShell(command: string, platform: Platform)
    ensures ShellInvocation(command, Lookup(DefaultOptions(), "shellName"), Lookup(DefaultOptions(), "shellSwitch"),
                            Undefined, platform)
         == Ok(if platform == Win32 then Invocation(Str("cmd.exe"), WindowsSwitch + [Quoted(command)], true)
               else Invocation(Str("/bin/sh"), PosixSwitch + [command], false))
  {
    DefaultLookups();
  }

  /** Under the defaults a non-zero exit code rejects with the exit message. */
  lemma DefaultRejects(pid: nat, code: int, signal: Option<string>, stdout: Stream, stderr: Stream)
    requires code != 0
    ensures Settle(Spawn(true, false, false, false), DefaultOptions(), pid, Exited(Some(code), signal), stdout, stderr)
         == Rejected(ExitMessage(pid, Some(code), signal))
  {
    DefaultLookups();
  }

  /** The layers of `_merge({}, baseOptions, options)`; an undefined `options` adds none. */
  function CallLayers(base: Dict, call: Option<Dict>): seq<Dict> {
    [base] + (if call.Some? then [call.value] else [])
  }

  /** `_merge({}, baseOptions, options)` as written, over the contents of the `env` objects. */
  function CallMergeF(base: Dict, call: Option<Dict>, envs: map<JsObject, Dict>): MergeState {
    MergeF(MergeState(Empty, envs), CallLayers(base, call))
  }

  /** Reference definition: the options copied in order, later layers winning, `env` included. */
  function Layered(base: Dict, call: Option<Dict>): (r: Dict)
    ensures WellFormed(r)
  {
    if call.Some? then Assigned(Assigned(Empty, base), call.value) else Assigned(Empty, base)
  }

  /** In the plain layering every key holds the call's value when it has one, else the base's. */
  lemma LayeredLookup(base: Dict, call: Option<Dict>, k: string)
    requires WellFormed(base) && (call.Some? ==> WellFormed(call.value))
    ensures Lookup(Layered(base, call), k)
         == if call.Some? && k in call.value.props then call.value.props[k] else Lookup(base, k)
  {
    AssignedIntoEmpty(base);
    if call.Some? {
      AssignedIsUnion(base, call.value);
    }
  }

  lemma MergeTwo(st: MergeState, a: Dict, b: Dict)
    ensures MergeF(st, [a, b]) == MergeF(MergeF(st, [a]), [b])
  {
    assert [a, b][..1] == [a];
    assert [b][..0] == [];
    assert [a][..0] == [];
  }

  /** After the first layer the destination's `env` is the base's, and no env object changed. */
  lemma MergeBase(base: Dict, envs: map<JsObject, Dict>)
    requires WellFormed(base)
    ensures Lookup(MergeF(MergeState(Empty, envs), [base]).des, "env") == Lookup(base, "env")
    ensures MergeF(MergeState(Empty, envs), [base]).envs == envs
  {
    if "env" in base.props {
      MergeEnvReplaced(MergeState(Empty, envs), base);
    } else {
      MergeEnvUntouched(MergeState(Empty, envs), base);
    }
  }

  /** Outside `env`, the merge as written yields the plain layering. */
  lemma CallMergeKeys(base: Dict, call: Option<Dict>, envs: map<JsObject, Dict>, k: string)
    requires k != "env"
    requires WellFormed(base) && (call.Some? ==> WellFormed(call.value))
    ensures Lookup(CallMergeF(base, call, envs).des, k) == Lookup(Layered(base, call), k)
  {
    var layers := CallLayers(base, call);
    LayeredLookup(base, call, k);
    MergeLastWriterWins(MergeState(Empty, envs), layers, k);
    if call.Some? && k in call.value.props {
      assert layers[1] == call.value;
    } else if k in base.props {
      assert layers[0] == base;
    } else {
      assert Lookup(Empty, k) == Undefined;
    }
  }

  /**
   * `env` under the merge as written: a call without `env` keeps the
   * base's; a call's `env` replaces a falsy base `env`; when both are
   * objects, the result IS the base's `env` object, and that object now
   * holds the union of both, the call's values winning.
   */
  lemma CallMergeEnv(base: Dict, call: Option<Dict>, envs: map<JsObject, Dict>)
    requires WellFormed(base) && (call.Some? ==> WellFormed(call.value))
    ensures var r, be := CallMergeF(base, call, envs), Lookup(base, "env");
      && ((call.None? || "env" !in call.value.props) ==> Lookup(r.des, "env") == be && r.envs == envs)
      && (call.Some? && "env" in call.value.props && !Truthy(be) ==>
            Lookup(r.des, "env") == call.value.props["env"] && r.envs == envs)
      && (call.Some? && "env" in call.value.props && Truthy(be) ==> Lookup(r.des, "env") == be)
      && (call.Some? && "env" in call.value.props && Truthy(be) && !Lookup(call.value, "env").Obj? ==> r.envs == envs)
    ensures call.Some? ==>
      var r, be, ce := CallMergeF(base, call, envs), Lookup(base, "env"), Lookup(call.value, "env");
      be.Obj? && ce.Obj? && be.o in envs && ce.o in envs && WellFormed(envs[ce.o]) ==>
        && Lookup(r.des, "env") == be
        && r.envs == envs[be.o := Assigned(envs[be.o], envs[ce.o])]
        && r.envs[be.o].props == envs[be.o].props + envs[ce.o].props
  {
    var st0 := MergeState(Empty, envs);
    MergeBase(base, envs);
    var st1 := MergeF(st0, [base]);
    if call.Some? {
      var c := call.value;
      MergeTwo(st0, base, c);
      assert CallLayers(base, call) == [base, c];
      if "env" !in c.props {
        MergeEnvUntouched(st1, c);
      } else if !Truthy(Lookup(base, "env")) {
        MergeEnvReplaced(st1, c);
      } else {
        MergeEnvKept(st1, c);
      }
      var be, ce := Lookup(base, "env"), Lookup(c, "env");
      if be.Obj? && ce.Obj? && be.o in envs && ce.o in envs && WellFormed(envs[ce.o]) {
        MergeEnvIntoExisting(st1, c);
      }
    } else {
      assert CallLayers(base, call) == [base];
    }
  }

  /**
   * The leak: with base options `{env: {BAR: "2"}}`, a call with
   * `{env: {FOO: "9"}}` writes FOO into the base's env object, so the
   * NEXT call, which passes no `env`, still runs with FOO=9.
   */
  lemma PerCallEnvLeaks(e: JsObject, o: JsObject)
    requires e != o
    ensures
      var envs := map[e := Dict(["BAR"], map["BAR" := Str("2")]), o := Dict(["FOO"], map["FOO" := Str("9")])];
      var base := Dict(["env"], map["env" := Obj(e)]);
      var first := CallMergeF(base, Some(Dict(["env"], map["env" := Obj(o)])), envs);
      var second := CallMergeF(base, None, first.envs);
      && Lookup(second.des, "env") == Obj(e)
      && e in second.envs
      && Lookup(second.envs[e], "FOO") == Str("9")
      && Lookup(second.envs[e], "BAR") == Str("2")
  {
    var envs := map[e := Dict(["BAR"], map["BAR" := Str("2")]), o := Dict(["FOO"], map["FOO" := Str("9")])];
    var base := Dict(["env"], map["env" := Obj(e)]);
    var call := Dict(["env"], map["env" := Obj(o)]);
    assert WellFormed(envs[o]);
    CallMergeEnv(base, Some(call), envs);
    var first := CallMergeF(base, Some(call), envs);
    assert first.envs[e].props == map["BAR" := Str("2"), "FOO" := Str("9")];
    CallMergeEnv(base, None, first.envs);
  }

  function SnapshotOf(o: JsObject?): Option<Dict>
    reads o
  {
    if o == null then None else Some(o.Snapshot())
  }

  /** The objects the `env` keys of the base and the call options point to. */
  function EnvObjectsOf(base: JsObject, call: JsObject?): set<JsObject>
    reads base, call
  {
    ObjectsOf(base.Get("env")) + (if call == null then {} else ObjectsOf(call.Get("env")))
  }

  /** The object the `env` of a set of options points to, if it points to one. */
  function EnvObjectIn(bag: JsObject?): JsObject?
    reads bag
  {
    if bag != null && bag.Get("env").Obj? then bag.Get("env").o else null
  }

  /**
   * `_merge({}, baseOptions, options)` throws: the base layer stores the
   * base's `env` in the fresh options, and the call's `env` is then
   * written into it although it is a primitive.  `callEnv` is the
   * contents of the call's `env` object, when it is one.
   */
  predicate MergeThrows(base: Dict, call: Option<Dict>, callEnv: Option<Dict>) {
    CallHasEnv(call) && EnvWriteThrows(Lookup(base, "env"), CallEnv(call), callEnv)
  }

  /**
   * A truthy string `shellSwitch` makes `sw.concat(command)` a string
   * concatenation, so `_spawn` receives one string for its argument
   * list.  Only an `echoCommand` veto returns before that string is used
   * as a list; otherwise `args.join` or the child-process library's
   * check of its arguments throws a TypeError.
   */
  predicate StringSwitchVetoed(eff: Dict, echoReturn: Value) {
    && Lookup(eff, "shellSwitch").Str? && Truthy(Lookup(eff, "shellSwitch"))
    && Lookup(eff, "echoCommand").Func? && echoReturn == Bool(false)
  }

  predicate CallHasEnv(call: Option<Dict>) {
    call.Some? && "env" in call.value.props
  }

  /** The call's `env`, `undefined` when it brings none. */
  function CallEnv(call: Option<Dict>): Value {
    if CallHasEnv(call) then call.value.props["env"] else Undefined
  }

  /** Both the base and the call bring an `env` object: their contents are combined. */
  predicate EnvsCombined(base: Dict, call: Option<Dict>) {
    CallHasEnv(call) && Lookup(base, "env").Obj? && CallEnv(call).Obj?
  }

  /**
   * The `env` value a call keeps: the call's when it brings one over a
   * falsy base `env`, else the base's (which a call `env` object is
   * combined with, in a fresh object, when both are objects).
   */
  function EffectiveEnv(base: Dict, call: Option<Dict>): Value {
    if CallHasEnv(call) && !Truthy(Lookup(base, "env")) then CallEnv(call) else Lookup(base, "env")
  }

  /**
   * The contents `_env` composes over the ambient environment for a call:
   * both `env` objects combined, or the contents of the one `env` object
   * the call keeps, or none.  `baseEnv` and `callEnv` are the contents of
   * the base's and the call's `env` objects, when they are objects.
   */
  function ChildOverrides(base: Dict, call: Option<Dict>, baseEnv: Option<Dict>, callEnv: Option<Dict>): Dict {
    var kept := if CallHasEnv(call) && !Truthy(Lookup(base, "env")) then callEnv else baseEnv;
    if EnvsCombined(base, call) && baseEnv.Some? && callEnv.Some? then Assigned(baseEnv.value, callEnv.value)
    else if kept.Some? then kept.value
    else Empty
  }

  /**
   * The `env` a launched child is given, from the options' `rawEnv` and
   * `env` before `_spawn`: `rawEnv` when truthy; else, when `env` is
   * truthy, an object holding the ambient environment composed with
   * `overrides`, the contents of `env`; else `env` as it is.
   */
  ghost predicate ChildEnv(env: Value, rawEnv: Value, given: Value, overrides: Dict, ambient: Dict,
                           platform: Platform, delim: string)
    reads if env.Obj? then {env.o} else {}
  {
    if Truthy(rawEnv) then env == rawEnv
    else if Truthy(given) then env.Obj? && env.o.Valid() && env.o.Snapshot() == ComposeF(ambient, overrides, platform, delim)
    else env == given
  }

  /**
   * `sent` are the options `_spawn` hands to the child, given the
   * effective options `eff`: every other key passes through as in `eff`;
   * `stdio` is the intent `_spawn` computes when it handles stdio, else
   * as in `eff`; `windowsVerbatimArguments` is `verbatim`; `env` is `env`.
   */
  ghost predicate SentOptions(sent: Dict, eff: Dict, plan: Plan, verbatim: Value, env: Value) {
    && AgreeOutside(sent, eff, {"env", "stdio", "windowsVerbatimArguments"})
    && Lookup(sent, "stdio") == (if plan.Spawn? && plan.handleStdio then Arr(StdioIntent(eff)) else Lookup(eff, "stdio"))
    && Lookup(sent, "windowsVerbatimArguments") == verbatim
    && Lookup(sent, "env") == env
  }

  /** The child's `env` depends on the given `env` only through its truthiness, its value when falsy, and its contents. */
  lemma ChildEnvTransfer(env: Value, rawEnv: Value, given: Value, overrides: Dict, kept: Value, keptOverrides: Dict,
                         ambient: Dict, platform: Platform, delim: string)
    requires Truthy(given) == Truthy(kept) && (!Truthy(given) ==> given == kept)
    requires Truthy(given) ==> overrides == keptOverrides
    requires ChildEnv(env, rawEnv, given, overrides, ambient, platform, delim)
    ensures ChildEnv(env, rawEnv, kept, keptOverrides, ambient, platform, delim)
  {
  }

  /**
   * `md` holds the effective options of a call: the plain layering outside
   * `env`; for `env`, the base's value unless the call brings one and the
   * base's is falsy, in which case the call's.
   */
  ghost predicate EffectiveDict(md: Dict, base: Dict, call: Option<Dict>) {
    var be := Lookup(base, "env");
    && WellFormed(md)
    && AgreeOutside(md, Layered(base, call), {"env"})
    && (!CallHasEnv(call) ==> Lookup(md, "env") == be)
    && (CallHasEnv(call) && !Truthy(be) ==> Lookup(md, "env") == CallEnv(call))
    && (CallHasEnv(call) && Truthy(be) && !EnvsCombined(base, call) ==> Lookup(md, "env") == be)
  }

  /**
   * The plain layering is effective unless the base holds a truthy `env`
   * that the call's would overwrite; then the base's is put back, or a
   * combination of both objects.
   */
  lemma LayeredEffective(base: Dict, call: Option<Dict>, combined: Value)
    requires WellFormed(base) && (call.Some? ==> WellFormed(call.value))
    ensures !(CallHasEnv(call) && Truthy(Lookup(base, "env"))) ==> EffectiveDict(Layered(base, call), base, call)
    ensures CallHasEnv(call) && Truthy(Lookup(base, "env")) && !EnvsCombined(base, call) ==>
              EffectiveDict(Put(Layered(base, call), "env", Lookup(base, "env")), base, call)
    ensures EnvsCombined(base, call) ==> EffectiveDict(Put(Layered(base, call), "env", combined), base, call)
  {
    LayeredLookup(base, call, "env");
    if CallHasEnv(call) && Truthy(Lookup(base, "env")) {
      EnvPutEffective(base, call, if EnvsCombined(base, call) then combined else Lookup(base, "env"));
    }
  }

  /** Putting the kept `env` back into the plain layering leaves every other key as it was. */
  lemma EnvPutEffective(base: Dict, call: Option<Dict>, env: Value)
    requires CallHasEnv(call) && Truthy(Lookup(base, "env"))
    requires !EnvsCombined(base, call) ==> env == Lookup(base, "env")
    ensures EffectiveDict(Put(Layered(base, call), "env", env), base, call)
  {
    var layered := Layered(base, call);
    PutAgrees(layered, layered, {"env"}, "env", env);
  }

  /** The union of two `env` objects, the second's values winning, in a fresh object. */
  method CombineEnvs(first: JsObject, second: JsObject) returns (env: JsObject)
    requires first.Valid() && second.Valid()
    ensures fresh(env) && env.Valid()
    ensures env.Snapshot() == Assigned(first.Snapshot(), second.Snapshot())
    ensures env.Snapshot().props == first.Snapshot().props + second.Snapshot().props
  {
    env := new JsObject();
    Assign(env, first);
    AssignedIntoEmpty(first.Snapshot());
    Assign(env, second);
    AssignedIsUnion(first.Snapshot(), second.Snapshot());
  }

  /**
   * Puts back the `env` a call keeps when the base's is truthy and the
   * call brings one too: both objects combined in a fresh one, else the
   * base's.
   */
  method RestoreEnv(merged: JsObject, baseEnv: Value, callEnv: Value)
    requires merged.Valid()
    requires baseEnv.Obj? ==> baseEnv.o.Valid() && baseEnv.o != merged
    requires callEnv.Obj? ==> callEnv.o.Valid() && callEnv.o != merged
    modifies merged
    ensures merged.Valid()
    ensures merged.Snapshot() == Put(old(merged.Snapshot()), "env", merged.Get("env"))
    ensures merged.Get("env").Obj? ==> merged.Get("env").o.Valid() && merged.Get("env").o != merged
    ensures baseEnv.Obj? && callEnv.Obj? ==>
      && merged.Get("env").Obj? && fresh(merged.Get("env").o)
      && merged.Get("env").o.Snapshot() == Assigned(baseEnv.o.Snapshot(), callEnv.o.Snapshot())
    ensures !(baseEnv.Obj? && callEnv.Obj?) ==> merged.Get("env") == baseEnv
  {
    if baseEnv.Obj? && callEnv.Obj? {
      var combined := CombineEnvs(baseEnv.o, callEnv.o);
      merged.Set("env", Obj(combined));
    } else {
      merged.Set("env", baseEnv);
    }
  }

  /** One context: the closure `shell` with its `options`, `exec`, `spawn` and `context`. */
  class Context {
    /** `shell.options`, the context's base options. */
    const options: JsObject

    /** `_context(baseOptions)`: `baseOptions || {}`. */
    constructor (baseOptions: JsObject?)
      ensures baseOptions != null ==> options == baseOptions
      ensures baseOptions == null ==> fresh(options) && options.Valid() && options.Snapshot() == Empty
    {
      if baseOptions != null {
        options := baseOptions;
      } else {
        options := new JsObject();
      }
    }

    /**
     * `_merge({}, baseOptions, options)` as written.  Every `env` object
     * reachable from either set of options is in `E`; none of them is an
     * options object itself.
     */
    method PrepareCall(callOptions: JsObject?, ghost E: set<JsObject>) returns (merged: JsObject)
      requires options.Valid() && (callOptions != null ==> callOptions.Valid())
      requires EnvObjectsOf(options, callOptions) <= E && AllValid(E)
      requires options !in E && callOptions !in E
      modifies E
      ensures fresh(merged) && merged.Valid() && AllValid(E)
      ensures MergeState(merged.Snapshot(), Contents(E))
           == CallMergeF(old(options.Snapshot()), old(SnapshotOf(callOptions)), old(Contents(E)))
      ensures unchanged(options) && (callOptions != null ==> unchanged(callOptions))
    {
      ghost var envs, base, co := Contents(E), options.Snapshot(), SnapshotOf(callOptions);
      merged := new JsObject();
      assert Contents(E) == envs;
      var layers: seq<JsObject>;
      if callOptions == null {
        layers := [options];
      } else {
        layers := [options, callOptions];
      }
      LayersOfCall(options, callOptions, layers);
      EnvObjectsWithin(merged, layers, E);
      assert MergeState(merged.Snapshot(), Contents(E)) == MergeState(Empty, envs);
      merged := Merge(merged, layers, E);
      assert options.Snapshot() == base && SnapshotOf(callOptions) == co;
    }

    /** The layers `_merge({}, baseOptions, options)` assigns from, and their snapshots. */
    lemma LayersOfCall(base: JsObject, call: JsObject?, layers: seq<JsObject>)
      requires layers == if call == null then [base] else [base, call]
      ensures Snapshots(layers) == CallLayers(base.Snapshot(), SnapshotOf(call))
    {
      assert |layers| == |Snapshots(layers)|;
    }

    /** `_assign(null, {}, baseOptions, options)`: the plain layering, into a fresh object. */
    method CopyLayers(callOptions: JsObject?) returns (merged: JsObject)
      requires options.Valid() && (callOptions != null ==> callOptions.Valid())
      ensures fresh(merged) && merged.Valid()
      ensures merged.Snapshot() == Layered(options.Snapshot(), SnapshotOf(callOptions))
    {
      merged := new JsObject();
      Assign(merged, options);
      if callOptions != null {
        Assign(merged, callOptions);
      }
    }

    /**
     * `_merge({}, baseOptions, options)` as evidently intended: the same
     * effective options, but two `env` objects are combined in a FRESH
     * object, so the base options, the call options and every `env`
     * object stay as they were (the method modifies nothing that existed).
     */
    method PrepareCallIsolated(callOptions: JsObject?) returns (merged: JsObject)
      requires options.Valid() && (callOptions != null ==> callOptions.Valid())
      requires options.Get("env").Obj? ==> options.Get("env").o.Valid()
      requires callOptions != null && callOptions.Get("env").Obj? ==> callOptions.Get("env").o.Valid()
      ensures fresh(merged)
      ensures merged.Valid()
      ensures EffectiveDict(merged.Snapshot(), old(options.Snapshot()), old(SnapshotOf(callOptions)))
      ensures merged.Get("env").Obj? ==> merged.Get("env").o.Valid() && merged.Get("env").o != merged
      ensures EnvsCombined(old(options.Snapshot()), old(SnapshotOf(callOptions))) ==>
        && merged.Get("env").Obj? && fresh(merged.Get("env").o)
        && merged.Get("env").o.Snapshot()
           == old(Assigned(options.Get("env").o.Snapshot(), callOptions.Get("env").o.Snapshot()))
    {
      ghost var base, call := options.Snapshot(), SnapshotOf(callOptions);
      merged := CopyLayers(callOptions);
      var baseEnv := options.Get("env");
      if callOptions != null && Truthy(baseEnv) && "env" in callOptions.props {
        RestoreEnv(merged, baseEnv, callOptions.Get("env"));
        LayeredEffective(base, call, merged.Get("env"));
      } else {
        LayeredLookup(base, call, "env");
        assert merged.Get("env") == baseEnv || (callOptions != null && merged.Get("env") == callOptions.Get("env"));
        LayeredEffective(base, call, baseEnv);
      }
    }

    /**
     * The `env` of options as `PrepareCallIsolated` leaves them: truthy
     * exactly when the `env` the call keeps is; that value itself when
     * falsy; and with the contents `ChildOverrides` names.
     */
    lemma MergedEnv(merged: JsObject, callOptions: JsObject?)
      requires options.Valid() && (callOptions != null ==> callOptions.Valid())
      requires EffectiveDict(merged.Snapshot(), options.Snapshot(), SnapshotOf(callOptions))
      requires EnvsCombined(options.Snapshot(), SnapshotOf(callOptions)) ==>
        && merged.Get("env").Obj?
        && merged.Get("env").o.Snapshot() == Assigned(options.Get("env").o.Snapshot(), callOptions.Get("env").o.Snapshot())
      ensures var base, call := options.Snapshot(), SnapshotOf(callOptions);
        && Truthy(merged.Get("env")) == Truthy(EffectiveEnv(base, call))
        && (!Truthy(merged.Get("env")) ==> merged.Get("env") == EffectiveEnv(base, call))
        && Overrides(merged.Get("env"))
           == ChildOverrides(base, call, SnapshotOf(EnvObjectIn(options)), SnapshotOf(EnvObjectIn(callOptions)))
    {
      var base, call := options.Snapshot(), SnapshotOf(callOptions);
      if !EnvsCombined(base, call) {
        assert merged.Get("env") == Lookup(merged.Snapshot(), "env") == EffectiveEnv(base, call);
      }
    }

    /** Whether `_merge({}, baseOptions, options)` throws for these call options. */
    method CheckMerge(callOptions: JsObject?) returns (throws: bool)
      ensures throws == MergeThrows(options.Snapshot(), SnapshotOf(callOptions), SnapshotOf(EnvObjectIn(callOptions)))
    {
      throws := callOptions != null && "env" in callOptions.props
                && EnvWriteThrows(options.Get("env"), callOptions.Get("env"), SnapshotOf(EnvObjectIn(callOptions)));
    }

    /** `exec(command, options)`: `_shell(command, _merge({}, baseOptions, options))`. */
    method Exec(command: string, callOptions: JsObject?, comspec: Value, platform: Platform, delim: string,
                echoReturn: Value, ambient: JsObject, pid: nat, term: Termination, stdout: Stream, stderr: Stream)
      returns (call: Call)
      requires options.Valid() && (callOptions != null ==> callOptions.Valid()) && ambient.Valid()
      requires options.Get("env").Obj? ==> options.Get("env").o.Valid()
      requires callOptions != null && callOptions.Get("env").Obj? ==> callOptions.Get("env").o.Valid()
      ensures var base, co := old(options.Snapshot()), old(SnapshotOf(callOptions));
        var eff := Layered(base, co);
        var sh := ShellInvocation(command, Lookup(eff, "shellName"), Lookup(eff, "shellSwitch"), comspec, platform);
        var throws := MergeThrows(base, co, old(SnapshotOf(EnvObjectIn(callOptions))));
        && (call.Thrown? <==> throws || (sh.Err? && !StringSwitchVetoed(eff, echoReturn)))
        && (call.EchoVetoed? <==> !throws && sh.Err? && StringSwitchVetoed(eff, echoReturn))
        && (call.Launched? ==>
              && Ok(call.invocation) == sh
              && call.plan == Decide(eff, echoReturn)
              && call.completion == Settle(call.plan, eff, pid, term, stdout, stderr)
              && SentOptions(call.options, eff, call.plan,
                             if platform == Win32 then Bool(true) else Lookup(eff, "windowsVerbatimArguments"), call.env))
      ensures var base, co := old(options.Snapshot()), old(SnapshotOf(callOptions));
        var raw := Lookup(Layered(base, co), "rawEnv");
        && (call.Launched? && call.plan.Spawn? ==>
              ChildEnv(call.env, raw, EffectiveEnv(base, co),
                       old(ChildOverrides(base, co, SnapshotOf(EnvObjectIn(options)), SnapshotOf(EnvObjectIn(callOptions)))),
                       ambient.Snapshot(), platform, delim))
        && (call.Launched? && call.plan.Spawn? && !Truthy(raw) && Truthy(EffectiveEnv(base, co)) ==>
              call.env.Obj? && fresh(call.env.o))
    {
      ghost var base, co := options.Snapshot(), SnapshotOf(callOptions);
      ghost var kept := ChildOverrides(base, co, SnapshotOf(EnvObjectIn(options)), SnapshotOf(EnvObjectIn(callOptions)));
      var throws := CheckMerge(callOptions);
      if throws {
        return Thrown("TypeError");
      }
      var merged := PrepareCallIsolated(callOptions);
      MergedEnv(merged, callOptions);
      ghost var eff := Layered(base, co);
      ghost var sh := ShellInvocation(command, Lookup(eff, "shellName"), Lookup(eff, "shellSwitch"), comspec, platform);
      assert Truthy(merged.Get("env")) ==> Overrides(merged.Get("env")) == kept;
      call := ShellCall(command, merged, eff, EffectiveEnv(base, co), kept, comspec, platform, delim, echoReturn,
                        ambient, pid, term, stdout, stderr);
    }

    /** `shell(command, options)`: the promise of `exec`. */
    method Run(command: string, callOptions: JsObject?, comspec: Value, platform: Platform, delim: string,
               echoReturn: Value, ambient: JsObject, pid: nat, term: Termination, stdout: Stream, stderr: Stream)
      returns (r: Result<Completion>)
      requires options.Valid() && (callOptions != null ==> callOptions.Valid()) && ambient.Valid()
      requires options.Get("env").Obj? ==> options.Get("env").o.Valid()
      requires callOptions != null && callOptions.Get("env").Obj? ==> callOptions.Get("env").o.Valid()
      ensures var base, co := old(options.Snapshot()), old(SnapshotOf(callOptions));
        var eff := Layered(base, co);
        var sh := ShellInvocation(command, Lookup(eff, "shellName"), Lookup(eff, "shellSwitch"), comspec, platform);
        && (r.Err? <==> MergeThrows(base, co, old(SnapshotOf(EnvObjectIn(callOptions))))
                        || (sh.Err? && !StringSwitchVetoed(eff, echoReturn)))
        && (r.Ok? ==> r.value == Settle(Decide(eff, echoReturn), eff, pid, term, stdout, stderr))
    {
      var call := Exec(command, callOptions, comspec, platform, delim, echoReturn, ambient, pid, term, stdout, stderr);
      r := match call
        case Thrown(e) => Err(e)
        case EchoVetoed => Ok(Resolved(None))
        case Launched(_, _, _, _, completion) => Ok(completion);
    }

    /** `spawn(exec, args, options)`: `_spawn(exec, args || [], _merge({}, baseOptions, options))`. */
    method SpawnCommand(program: Value, args: Option<seq<string>>, callOptions: JsObject?, platform: Platform,
                        delim: string, echoReturn: Value, ambient: JsObject, pid: nat, term: Termination,
                        stdout: Stream, stderr: Stream)
      returns (call: Call)
      requires options.Valid() && (callOptions != null ==> callOptions.Valid()) && ambient.Valid()
      requires options.Get("env").Obj? ==> options.Get("env").o.Valid()
      requires callOptions != null && callOptions.Get("env").Obj? ==> callOptions.Get("env").o.Valid()
      ensures var base, co := old(options.Snapshot()), old(SnapshotOf(callOptions));
        call.Thrown? <==> MergeThrows(base, co, old(SnapshotOf(EnvObjectIn(callOptions))))
      ensures !call.Thrown? ==>
        var eff := Layered(old(options.Snapshot()), old(SnapshotOf(callOptions)));
        && call.Launched?
        && call.invocation.program == program
        && call.invocation.args == (if args.Some? then args.value else [])
        && call.invocation.verbatim == Truthy(Lookup(eff, "windowsVerbatimArguments"))
        && call.plan == Decide(eff, echoReturn)
        && call.completion == Settle(call.plan, eff, pid, term, stdout, stderr)
        && SentOptions(call.options, eff, call.plan, Lookup(eff, "windowsVerbatimArguments"), call.env)
      ensures var base, co := old(options.Snapshot()), old(SnapshotOf(callOptions));
        var raw := Lookup(Layered(base, co), "rawEnv");
        && (call.Launched? && call.plan.Spawn? ==>
              ChildEnv(call.env, raw, EffectiveEnv(base, co),
                       old(ChildOverrides(base, co, SnapshotOf(EnvObjectIn(options)), SnapshotOf(EnvObjectIn(callOptions)))),
                       ambient.Snapshot(), platform, delim))
        && (call.Launched? && call.plan.Spawn? && !Truthy(raw) && Truthy(EffectiveEnv(base, co)) ==>
              call.env.Obj? && fresh(call.env.o))
    {
      ghost var base, co := options.Snapshot(), SnapshotOf(callOptions);
      ghost var kept := ChildOverrides(base, co, SnapshotOf(EnvObjectIn(options)), SnapshotOf(EnvObjectIn(callOptions)));
      var throws := CheckMerge(callOptions);
      if throws {
        return Thrown("TypeError");
      }
      var merged := PrepareCallIsolated(callOptions);
      MergedEnv(merged, callOptions);
      ghost var eff := Layered(base, co);
      assert Truthy(merged.Get("env")) ==> Overrides(merged.Get("env")) == kept;
      call := SpawnLaunch(program, args, merged, eff, EffectiveEnv(base, co), kept, platform, delim, echoReturn,
                          ambient, pid, term, stdout, stderr);
    }

    /** `shell.context(options)`: a new context whose base options are the merged ones. */
    method Derive(callOptions: JsObject?) returns (child: Context?)
      requires options.Valid() && (callOptions != null ==> callOptions.Valid())
      requires options.Get("env").Obj? ==> options.Get("env").o.Valid()
      requires callOptions != null && callOptions.Get("env").Obj? ==> callOptions.Get("env").o.Valid()
      ensures child == null <==>
        MergeThrows(old(options.Snapshot()), old(SnapshotOf(callOptions)), old(SnapshotOf(EnvObjectIn(callOptions))))
      ensures child != null ==> fresh(child) && fresh(child.options) && child.options.Valid()
      ensures child != null ==>
        EffectiveDict(child.options.Snapshot(), old(options.Snapshot()), old(SnapshotOf(callOptions)))
      ensures child != null && EnvsCombined(old(options.Snapshot()), old(SnapshotOf(callOptions))) ==>
        && child.options.Get("env").Obj? && fresh(child.options.Get("env").o)
        && child.options.Get("env").o.Snapshot()
           == old(Assigned(options.Get("env").o.Snapshot(), callOptions.Get("env").o.Snapshot()))
    {
      var throws := CheckMerge(callOptions);
      if throws {
        return null;
      }
      var merged := PrepareCallIsolated(callOptions);
      child := new Context(merged);
    }
  }

  /**
   * `_shell(command, options)` on merged options whose values outside
   * `env` are those of `eff`: the shell invocation, then `_spawn`.  A
   * truthy `shellSwitch` that is not an array throws, except that a
   * string one reaches `_spawn`, whose echo veto returns first.  The
   * merged `env` behaves as `kept` with the contents `keptOverrides`.
   */
  method ShellCall(command: string, merged: JsObject, ghost eff: Dict, ghost kept: Value, ghost keptOverrides: Dict,
                   comspec: Value, platform: Platform, delim: string, echoReturn: Value, ambient: JsObject,
                   pid: nat, term: Termination, stdout: Stream, stderr: Stream)
    returns (call: Call)
    requires merged.Valid() && ambient.Valid() && merged != ambient
    requires merged.Get("env").Obj? ==> merged.Get("env").o.Valid() && merged.Get("env").o != merged
    requires AgreeOutside(merged.Snapshot(), eff, {"env"})
    requires Truthy(merged.Get("env")) == Truthy(kept) && (!Truthy(kept) ==> merged.Get("env") == kept)
    requires Truthy(kept) ==> Overrides(merged.Get("env")) == keptOverrides
    modifies merged
    ensures var sh := ShellInvocation(command, Lookup(eff, "shellName"), Lookup(eff, "shellSwitch"), comspec, platform);
      && (call.Thrown? <==> sh.Err? && !StringSwitchVetoed(eff, echoReturn))
      && (call.EchoVetoed? <==> sh.Err? && StringSwitchVetoed(eff, echoReturn))
      && (call.Launched? ==>
            && Ok(call.invocation) == sh
            && call.plan == Decide(eff, echoReturn)
            && call.completion == Settle(call.plan, eff, pid, term, stdout, stderr))
    ensures call.Launched? && call.plan.Spawn? ==>
      ChildEnv(call.env, Lookup(eff, "rawEnv"), kept, keptOverrides, ambient.Snapshot(), platform, delim)
    ensures call.Launched? && call.plan.Spawn? && !Truthy(Lookup(eff, "rawEnv")) && Truthy(kept) ==>
      call.env.Obj? && fresh(call.env.o)
    ensures call.Launched? ==>
      SentOptions(call.options, eff, call.plan,
                  if platform == Win32 then Bool(true) else Lookup(eff, "windowsVerbatimArguments"), call.env)
  {
    ghost var md := merged.Snapshot();
    ShellAgrees(md, eff, platform);
    VetoAgrees(md, eff, echoReturn);
    var sw := merged.Get("shellSwitch");
    ghost var sh := ShellInvocation(command, Lookup(eff, "shellName"), sw, comspec, platform);
    assert sh.Err? <==> Truthy(sw) && !sw.Arr?;
    if Truthy(sw) && !sw.Arr? {
      call := if sw.Str? && merged.Get("echoCommand").Func? && echoReturn == Bool(false)
              then EchoVetoed else Thrown("TypeError");
      return;
    }
    call := ShellLaunch(command, merged, eff, kept, keptOverrides, comspec, platform, delim, echoReturn, ambient,
                        pid, term, stdout, stderr);
  }

  /**
   * `_shell` when its invocation is well formed: the invocation, then
   * `_spawn` on it.  The merged `env` behaves as `kept` with the contents
   * `keptOverrides`.
   */
  method ShellLaunch(command: string, merged: JsObject, ghost eff: Dict, ghost kept: Value, ghost keptOverrides: Dict,
                     comspec: Value, platform: Platform, delim: string, echoReturn: Value, ambient: JsObject,
                     pid: nat, term: Termination, stdout: Stream, stderr: Stream)
    returns (call: Call)
    requires merged.Valid() && ambient.Valid() && merged != ambient
    requires merged.Get("env").Obj? ==> merged.Get("env").o.Valid() && merged.Get("env").o != merged
    requires AgreeOutside(merged.Snapshot(), eff, {"env"})
    requires Truthy(merged.Get("env")) == Truthy(kept) && (!Truthy(kept) ==> merged.Get("env") == kept)
    requires Truthy(kept) ==> Overrides(merged.Get("env")) == keptOverrides
    requires ShellInvocation(command, Lookup(eff, "shellName"), Lookup(eff, "shellSwitch"), comspec, platform).Ok?
    modifies merged
    ensures call.Launched?
    ensures Ok(call.invocation)
         == ShellInvocation(command, Lookup(eff, "shellName"), Lookup(eff, "shellSwitch"), comspec, platform)
    ensures call.plan == Decide(eff, echoReturn)
    ensures call.plan.Spawn? ==>
      ChildEnv(call.env, Lookup(eff, "rawEnv"), kept, keptOverrides, ambient.Snapshot(), platform, delim)
    ensures call.plan.Spawn? && !Truthy(Lookup(eff, "rawEnv")) && Truthy(kept) ==>
      call.env.Obj? && fresh(call.env.o)
    ensures call.completion == Settle(call.plan, eff, pid, term, stdout, stderr)
    ensures SentOptions(call.options, eff, call.plan,
                        if platform == Win32 then Bool(true) else Lookup(eff, "windowsVerbatimArguments"), call.env)
  {
    ghost var md := merged.Snapshot();
    ghost var given, overrides := merged.Get("env"), Overrides(merged.Get("env"));
    ShellAgrees(md, eff, platform);
    var inv := ApplyShell(command, merged, comspec, platform);
    assert merged.Get("env") == given && Overrides(given) == overrides;
    assert merged.Get("windowsVerbatimArguments")
        == if platform == Win32 then Bool(true) else Lookup(eff, "windowsVerbatimArguments");
    var plan, sent, env, completion :=
      SpawnKept(merged, eff, kept, keptOverrides, platform, delim, echoReturn, ambient, pid, term, stdout, stderr);
    call := Launched(inv.value, plan, sent, env, completion);
  }

  /** `SpawnMerged` where the merged `env` behaves as `kept` with the contents `keptOverrides`. */
  method SpawnKept(merged: JsObject, ghost eff: Dict, ghost kept: Value, ghost keptOverrides: Dict, platform: Platform,
                   delim: string, echoReturn: Value, ambient: JsObject, pid: nat, term: Termination,
                   stdout: Stream, stderr: Stream)
    returns (plan: Plan, sent: Dict, env: Value, completion: Completion)
    requires merged.Valid() && ambient.Valid() && merged != ambient
    requires merged.Get("env").Obj? ==> merged.Get("env").o.Valid() && merged.Get("env").o != merged
    requires AgreeOutside(merged.Snapshot(), eff, {"env", "windowsVerbatimArguments"})
    requires Truthy(merged.Get("env")) == Truthy(kept) && (!Truthy(kept) ==> merged.Get("env") == kept)
    requires Truthy(kept) ==> Overrides(merged.Get("env")) == keptOverrides
    modifies merged
    ensures plan == Decide(eff, echoReturn)
    ensures SentOptions(sent, eff, plan, old(merged.Get("windowsVerbatimArguments")), env)
    ensures plan.Spawn? ==> ChildEnv(env, Lookup(eff, "rawEnv"), kept, keptOverrides, ambient.Snapshot(), platform, delim)
    ensures plan.Spawn? && !Truthy(Lookup(eff, "rawEnv")) && Truthy(kept) ==> env.Obj? && fresh(env.o)
    ensures completion == Settle(plan, eff, pid, term, stdout, stderr)
  {
    ghost var given, overrides := merged.Get("env"), Overrides(merged.Get("env"));
    plan, sent, env, completion := SpawnMerged(merged, eff, platform, delim, echoReturn, ambient, pid, term, stdout, stderr);
    if plan.Spawn? {
      ChildEnvTransfer(env, Lookup(eff, "rawEnv"), given, overrides, kept, keptOverrides, ambient.Snapshot(), platform, delim);
    }
  }

  /**
   * `_spawn(exec, args || [], options)` on merged options whose values outside `env` are those of `eff`
   * and whose `env` behaves as `kept` with the contents `keptOverrides`.
   */
  method SpawnLaunch(program: Value, args: Option<seq<string>>, merged: JsObject, ghost eff: Dict,
                     ghost kept: Value, ghost keptOverrides: Dict, platform: Platform,
                     delim: string, echoReturn: Value, ambient: JsObject, pid: nat, term: Termination,
                     stdout: Stream, stderr: Stream)
    returns (call: Call)
    requires merged.Valid() && ambient.Valid() && merged != ambient
    requires merged.Get("env").Obj? ==> merged.Get("env").o.Valid() && merged.Get("env").o != merged
    requires AgreeOutside(merged.Snapshot(), eff, {"env"})
    requires Truthy(merged.Get("env")) == Truthy(kept) && (!Truthy(kept) ==> merged.Get("env") == kept)
    requires Truthy(kept) ==> Overrides(merged.Get("env")) == keptOverrides
    modifies merged
    ensures call.Launched?
    ensures call.invocation.program == program
    ensures call.invocation.args == (if args.Some? then args.value else [])
    ensures call.invocation.verbatim == Truthy(Lookup(eff, "windowsVerbatimArguments"))
    ensures call.plan == Decide(eff, echoReturn)
    ensures call.plan.Spawn? ==>
      ChildEnv(call.env, Lookup(eff, "rawEnv"), kept, keptOverrides, ambient.Snapshot(), platform, delim)
    ensures call.plan.Spawn? && !Truthy(Lookup(eff, "rawEnv")) && Truthy(kept) ==>
      call.env.Obj? && fresh(call.env.o)
    ensures call.completion == Settle(call.plan, eff, pid, term, stdout, stderr)
    ensures SentOptions(call.options, eff, call.plan, Lookup(eff, "windowsVerbatimArguments"), call.env)
  {
    AgreeWider(merged.Snapshot(), eff, {"env"}, {"env", "windowsVerbatimArguments"});
    assert merged.Get("windowsVerbatimArguments") == Lookup(eff, "windowsVerbatimArguments");
    var verbatim := Truthy(merged.Get("windowsVerbatimArguments"));
    var plan, sent, env, completion :=
      SpawnKept(merged, eff, kept, keptOverrides, platform, delim, echoReturn, ambient, pid, term, stdout, stderr);
    call := Launched(Invocation(program, if args.Some? then args.value else [], verbatim), plan, sent, env, completion);
  }

  /** What `_shell` reads agrees with `eff`; what it writes keeps the rest in agreement. */
  lemma ShellAgrees(md: Dict, eff: Dict, platform: Platform)
    requires AgreeOutside(md, eff, {"env"})
    ensures Lookup(md, "shellName") == Lookup(eff, "shellName")
    ensures Lookup(md, "shellSwitch") == Lookup(eff, "shellSwitch")
    ensures var applied := if platform == Win32 then Put(md, "windowsVerbatimArguments", Bool(true)) else md;
      && AgreeOutside(applied, eff, {"env", "windowsVerbatimArguments"})
      && Lookup(applied, "env") == Lookup(md, "env")
      && Lookup(applied, "windowsVerbatimArguments")
         == if platform == Win32 then Bool(true) else Lookup(eff, "windowsVerbatimArguments")
  {
    AgreeWider(md, eff, {"env"}, {"env", "windowsVerbatimArguments"});
    PutAgrees(md, eff, {"env", "windowsVerbatimArguments"}, "windowsVerbatimArguments", Bool(true));
  }

  /** Whether the echo veto meets a string `shellSwitch` reads only keys outside `env`. */
  lemma VetoAgrees(md: Dict, eff: Dict, echoReturn: Value)
    requires AgreeOutside(md, eff, {"env"})
    ensures StringSwitchVetoed(eff, echoReturn)
        == (&& Lookup(md, "shellSwitch").Str? && Truthy(Lookup(md, "shellSwitch"))
            && Lookup(md, "echoCommand").Func? && echoReturn == Bool(false))
  {
    assert Lookup(md, "echoCommand") == Lookup(eff, "echoCommand");
    assert Lookup(md, "shellSwitch") == Lookup(eff, "shellSwitch");
  }

  /** `_spawn(exec, args, options)` on merged options whose values outside `env` are those of `eff`. */
  method SpawnMerged(merged: JsObject, ghost eff: Dict, platform: Platform, delim: string, echoReturn: Value,
                     ambient: JsObject, pid: nat, term: Termination, stdout: Stream, stderr: Stream)
    returns (plan: Plan, sent: Dict, env: Value, completion: Completion)
    requires merged.Valid() && ambient.Valid() && merged != ambient
    requires merged.Get("env").Obj? ==> merged.Get("env").o.Valid() && merged.Get("env").o != merged
    requires AgreeOutside(merged.Snapshot(), eff, {"env", "windowsVerbatimArguments"})
    modifies merged
    ensures plan == Decide(eff, echoReturn)
    ensures sent == merged.Snapshot() == Prepared(old(merged.Snapshot()), plan, env)
    ensures SentOptions(sent, eff, plan, old(merged.Get("windowsVerbatimArguments")), env)
    ensures plan.Spawn? ==>
      ChildEnv(env, Lookup(eff, "rawEnv"), old(merged.Get("env")), old(Overrides(merged.Get("env"))),
               ambient.Snapshot(), platform, delim)
    ensures plan.Spawn? && !Truthy(Lookup(eff, "rawEnv")) && Truthy(old(merged.Get("env"))) ==> env.Obj? && fresh(env.o)
    ensures plan.Vetoed? ==> env == old(merged.Get("env"))
    ensures completion == Settle(plan, eff, pid, term, stdout, stderr)
  {
    ghost var md := merged.Snapshot();
    DecideAgrees(md, eff, echoReturn);
    assert merged.Get("rawEnv") == Lookup(eff, "rawEnv");
    plan, completion := SpawnProcess(merged, echoReturn, ambient, platform, delim, pid, term, stdout, stderr);
    env := merged.Get("env");
    sent := merged.Snapshot();
    PreparedSent(md, eff, plan, env, echoReturn);
    SettleAgrees(plan, sent, eff, pid, term, stdout, stderr);
  }

  /** The options `_spawn` prepares from `md` are `eff`'s, but for `env`, `stdio` and `windowsVerbatimArguments`. */
  lemma PreparedSent(md: Dict, eff: Dict, plan: Plan, env: Value, echoReturn: Value)
    requires AgreeOutside(md, eff, {"env", "windowsVerbatimArguments"})
    requires plan == Decide(md, echoReturn)
    requires Lookup(Prepared(md, plan, env), "env") == env
    ensures SentOptions(Prepared(md, plan, env), eff, plan, Lookup(md, "windowsVerbatimArguments"), env)
  {
    var sent := Prepared(md, plan, env);
    DecideAgrees(md, eff, echoReturn);
    AgreeTrans(sent, md, eff, {"stdio", "env"}, {"env", "windowsVerbatimArguments"},
               {"env", "stdio", "windowsVerbatimArguments"});
    assert Lookup(sent, "windowsVerbatimArguments") == Lookup(md, "windowsVerbatimArguments");
  }

  /**
   * What a call of `exec` or `spawn` yields: a synchronous exception; the
   * echo veto on a string `shellSwitch`, where `_spawn` returns
   * `{childProcess: null, promise: P.resolve(null)}` without an argument
   * list; or the launched child, with the options `_spawn` hands to it
   * and, among them, its `env` (both as `_spawn` leaves them when the echo
   * veto returned first).
   */
  datatype Call =
    | Thrown(error: string)
    | EchoVetoed
    | Launched(invocation: Invocation, plan: Plan, options: Dict, env: Value, completion: Completion)

  /** `Decide` reads none of `env` and `windowsVerbatimArguments`. */
  lemma DecideAgrees(a: Dict, b: Dict, echoReturn: Value)
    requires AgreeOutside(a, b, {"env", "windowsVerbatimArguments"})
    ensures Decide(a, echoReturn) == Decide(b, echoReturn)
    ensures StdioIntent(a) == StdioIntent(b)
  {
    assert Lookup(a, "echoCommand") == Lookup(b, "echoCommand");
    assert Lookup(a, "stdio") == Lookup(b, "stdio");
    assert Lookup(a, "inputContent") == Lookup(b, "inputContent");
    assert Lookup(a, "captureOutput") == Lookup(b, "captureOutput");
    assert Lookup(a, "captureError") == Lookup(b, "captureError");
  }

  /** `Settle` reads none of `env`, `stdio` and `windowsVerbatimArguments`. */
  lemma SettleAgrees(plan: Plan, a: Dict, b: Dict, pid: nat, term: Termination, stdout: Stream, stderr: Stream)
    requires AgreeOutside(a, b, {"env", "stdio", "windowsVerbatimArguments"})
    ensures Settle(plan, a, pid, term, stdout, stderr) == Settle(plan, b, pid, term, stdout, stderr)
  {
    assert Lookup(a, "ignoreError") == Lookup(b, "ignoreError");
    assert Lookup(a, "normalizeText") == Lookup(b, "normalizeText");
    assert Lookup(a, "captureOutput") == Lookup(b, "captureOutput");
    assert Lookup(a, "captureError") == Lookup(b, "captureError");
  }

  /** `module.exports`: the context over a fresh object literal holding the defaults. */
  method DefaultContext() returns (c: Context)
    ensures fresh(c) && fresh(c.options) && c.options.Valid() && c.options.Snapshot() == DefaultOptions()
  {
    DefaultsWellFormed();
    var d := new JsObject.Literal(DefaultOptions());
    c := new Context(d);
  }
}
