# pshell launcher core in Dafny

pshell runs external commands and settles a promise when they end. A caller either runs a command line through the system shell (`shell`, `exec`) or starts an executable with an argument list (`spawn`). The effective options come from layering the context's base options under the per-call options. This project models the decision and data logic of `lib/index.js`:

- `_assign` copies an object's own properties into another object, in for-in order.
- `_optionAssigner` and `_merge` layer option bags. The one exception to plain copying: when the destination already holds a truthy `env`, an incoming `env` is copied into that existing object.
- `_envAssigner`, `_clean` and `_env` build a child's environment. They start from the ambient environment, join array values with the path delimiter and, on win32, drop every key that differs only in case.
- `_shell` turns a command line into a shell invocation for the platform.
- `_spawn` does the following:
  - decides the echo/veto and the stdio wiring;
  - composes the child's environment;
  - captures and decodes the output streams, normalising line endings;
  - turns the exit event into a resolution or a rejection whose message names the pid and the exit code or signal.
- `_context` builds the `shell`/`spawn`/`exec`/`context` entry points and the defaults.

## How it is modelled

Option bags and environment maps are objects that the source updates in place, so they are instances of the class `JsValues.JsObject`:

- `keys` holds the own properties in insertion (for-in) order;
- `props` maps each key to its value.

Its abstract value is the datatype `Dict`. The source's loops become methods whose `ensures` ties the new state to pure folds over `Dict`:

| method | specifying fold |
|---|---|
| `Options.Assign` | `AssignFrom` |
| `Options.Merge` | `MergeF` |
| `Env.Clean` | `CleanFrom` |
| `Env.EnvAssign` | `EnvAssignFrom` |

Lemmas then prove what those folds mean.

`_merge` writes a per-call `env` into the `env` object that the base options point to. `Options.MergeState` therefore pairs the destination with the contents of every `env` object the merge can reach, which makes that aliasing visible in the contracts.

Things the core reads from its surroundings become parameters:

- the platform and `npath.delimiter`;
- `process.env` (the ambient environment) and `process.env.comspec`;
- the value a caller's `echoCommand` function returns;
- the child's pid;
- how the child ended (`Launch.Termination`);
- what each output stream delivered (`Text.Stream`: its text chunks, and whether it ended or failed).

Two further modelling choices:

- Numbers are unbounded integers.
- Strings are `seq<char>`.

## Model

| member | source | states |
|---|---|---|
| JsValues.JsObject.Set | lib/index.js:155 | `o[k] = v`: an existing key keeps its place in the for-in order and a new key goes last; nothing else changes |
| JsValues.JsObject.Delete | lib/index.js:181 | `delete o[k]` removes exactly `k`, and the remaining keys keep their order |
| JsValues.JsObject.Literal | lib/index.js:226-236 | an object literal has exactly the written keys, in the written order |
| Options.Assign | lib/index.js:142-160 | `_assign(null, des, src)` leaves `des` equal to `AssignFrom` over `src`'s keys in order |
| Options.AssignedIsUnion | lib/index.js:146-157 | after the copy, `des` holds its old properties overridden by every own property of `src` |
| Options.AssignedSelf | lib/index.js:163-164 | copying an object into itself (base and call share one `env` object) changes nothing |
| Options.AssignedIntoEmpty | lib/index.js:142-160 | copying into `{}` reproduces the source object, key order included |
| Options.OptionAssign | lib/index.js:162-167 | an `env` onto a truthy `env` is copied into the existing env object (which changes); otherwise the key is set on the destination |
| Options.AssignLayer | lib/index.js:146-157 | one layer of `_merge`: `_optionAssigner` is applied to each of the layer's keys in order |
| Options.Merge | lib/index.js:169-172 | `_merge(des, ...layers)` leaves `des` and every reachable `env` object equal to `MergeF` over the layers' snapshots, and returns `des` |
| Options.LayerOutsideEnv | lib/index.js:146-167 | outside `env`, one layer acts as plain copying: old properties overridden by the layer's |
| Options.MergeOutsideEnv | lib/index.js:169-172 | outside `env`, a merge is the union of all layers, later layers winning |
| Options.MergeLastWriterWins | lib/index.js:169-172 | for any key other than `env`, the value comes from the last layer that has the key, or stays unchanged when no layer has it |
| Options.LayerEnvPart | lib/index.js:162-167 | only a layer's own `env` key affects the destination's `env` and the env objects |
| Options.MergeEnvIntoExisting | lib/index.js:163-164 | when both the destination and the layer hold env objects, the destination keeps its object, and that object becomes its old contents overridden by the layer's |
| Options.MergeEnvReplaced | lib/index.js:165-166 | over a falsy `env`, the layer's `env` value is stored as is, and no env object changes |
| Options.MergeEnvKept | lib/index.js:163-164 | over a truthy destination `env`, a layer's `env` never replaces it, and one that is not an object changes no env object |
| Options.MergeEnvUntouched | lib/index.js:162-167 | a layer without `env` leaves the destination's `env` and every env object unchanged |
| Env.Clean | lib/index.js:175-183 | `_clean(key)` leaves the object equal to `CleanF` of its old value |
| Env.CleanProps | lib/index.js:175-183 | `_clean(key)` removes exactly the keys equal to `key` ignoring case, and keeps every other key and value |
| Env.EnvPut | lib/index.js:174-192 | `_envAssigner` joins an array value with the delimiter, cleans on win32, then sets the key |
| Env.EnvPutWin32 | lib/index.js:185-191 | on win32, after one assignment the key holds the stored value; every other key survives, with its value, if and only if it differs from the key ignoring case |
| Env.EnvPutKeepsCaseUnique | lib/index.js:188-191 | on win32, one assignment keeps keys unique ignoring case |
| Env.EnvAssign | lib/index.js:194-195 | `_assign(_envAssigner, des, src)` leaves `des` equal to `EnvAssignFrom` over `src`'s keys |
| Env.EnvAssignKeepsCaseUnique | lib/index.js:188-191 | on win32, any sequence of assignments keeps keys unique ignoring case |
| Env.EnvAssignPosix | lib/index.js:185-191 | off win32, the assignments are a map union with array values joined |
| Env.EnvAssignWin32Last | lib/index.js:185-191 | on win32, the last key of each case class is present and holds its stored value |
| Env.EnvAssignWin32Kept | lib/index.js:185-191 | on win32, an existing key with no case variant among the assigned keys keeps its value |
| Env.EnvAssignWin32Only | lib/index.js:185-191 | on win32, every key in the result is either assigned or existing without an assigned case variant |
| Env.Compose | lib/index.js:194-196 | `_env(env)` returns a fresh object equal to `{}`, then the ambient environment, then the overrides |
| Env.ComposePosix | lib/index.js:194-196 | off win32, the composed environment is the ambient one overridden by `env`, array values joined |
| Env.ComposeWin32 | lib/index.js:174-196 | on win32, the composed environment has unique keys ignoring case; the overrides win over ambient keys of the same case class; other ambient keys survive; and every key is an override or an ambient key that no override matches ignoring case |
| Text.NormalizeIsLineEndingsToLf | lib/index.js:58 | the two global replacements equal a one-pass conversion of CRLF and lone CR to LF |
| Text.NormalizeHasNoCr | lib/index.js:58 | normalised text contains no carriage return |
| Text.NormalizeWithoutCr | lib/index.js:58 | text without carriage returns is left unchanged |
| Text.NormalizeIdempotent | lib/index.js:58 | normalising twice equals normalising once |
| Text.CaptureValue | lib/index.js:43-65 | a capture fails with the stream's error if and only if the stream fails; otherwise a function `format` receives the concatenated data, and failing that a function `normalizeText` receives the text; otherwise it is the text itself, with CR LF and CR turned into LF when `normalizeText` is truthy |
| Decimal.IntToStringRoundTrip | lib/index.js:96 | the decimal text of an exit code reads back as that code |
| Shell.ShellInvocation | lib/index.js:125-137 | an invocation with an argument list if and only if `shellSwitch` is an array or falsy. On win32: `shellName`, else `comspec`, else `cmd.exe`, with args `/s /c "command"` and verbatim arguments. Elsewhere: `shellName`, else `/bin/sh`, with args `-c command` |
| Shell.QuotedRoundTrip | lib/index.js:131 | the quoted win32 argument gives back the command intact |
| Shell.ApplyShell | lib/index.js:125-138 | returns `ShellInvocation` of the options. On win32 it sets `windowsVerbatimArguments`; it changes nothing else |
| Launch.StdioIntent | lib/index.js:28-32 | each of the three stdio entries is `pipe` if and only if `inputContent`, `captureOutput` or `captureError` (respectively) is truthy, and `inherit` otherwise |
| Launch.Decide | lib/index.js:9-92 | a veto if and only if `echoCommand` is a function that returned `false`. Stdio is handled if and only if `stdio` is falsy. Input is written and output captured exactly as the stdio intent pipes them, and never when `stdio` was given |
| Launch.Prepared | lib/index.js:26-38 | the options `_spawn` hands to the child: `stdio` is set when handled; `env` is replaced when `rawEnv` or `env` is truthy; every other key is unchanged |
| Launch.PrepareSpawn | lib/index.js:9-38 | leaves the options as `Prepared` says, with the plan `Decide` gives. The child's env is `rawEnv`, or a fresh object composed by `_env` |
| Launch.SetChildEnv | lib/index.js:35-38 | `rawEnv` wins; otherwise a truthy `env` is replaced by a fresh composed environment; otherwise nothing changes |
| Launch.ExitMessageRoundTrip | lib/index.js:95-97 | the rejection message names the pid, and the code when truthy, else the signal; all three read back from the message |
| Launch.Settle | lib/index.js:9-116 | A veto resolves to null. A spawn error rejects with it. A truthy code or signal rejects unless `ignoreError` is set. A failed capture rejects with that stream's error, stdout's first. Otherwise the result resolves to the code and signal. `stdout` and `stderr` are present exactly when some stream is captured; each then holds that stream's captured value, or is undefined when that stream is not captured |
| Launch.CaptureOutputOnly | lib/index.js:68-111 | with `captureOutput: true` and a clean exit, the result carries the normalised stdout text and no stderr value |
| Launch.SpawnProcess | lib/index.js:6-123 | `_spawn` as a whole: the plan, the prepared options and the completion that `Settle` gives on them. When spawning, the child's `env` is a truthy `rawEnv`; otherwise, for a truthy `env`, a fresh object composed from the ambient environment and `env`'s contents; otherwise `env` as it was |
| Contexts.DefaultContext | lib/index.js:226-239 | the exported context's base options are exactly the default literal |
| Contexts.DefaultLookups | lib/index.js:226-236 | the defaults echo, pass no `stdio`, and neither capture, ignore errors, nor name a shell or switch |
| Contexts.DefaultPlan | lib/index.js:26-236 | under the defaults, stdio is handled and all three streams are inherited |
| Contexts.DefaultShell | lib/index.js:128-236 | under the defaults, the shell is `cmd.exe /s /c "command"` on win32 when `comspec` is unset, and `/bin/sh -c command` elsewhere |
| Contexts.DefaultRejects | lib/index.js:94-236 | under the defaults, a non-zero exit code rejects with the exit message |
| Contexts.LayeredLookup | lib/index.js:142-200 | the reference layering: each key comes from the call when the call has it, else from the base |
| Contexts.MergeBase | lib/index.js:200 | copying the base into `{}` gives the base's `env` and touches no env object |
| Contexts.CallMergeKeys | lib/index.js:169-200 | for every key but `env`, `_merge({}, base, call)` agrees with the reference layering |
| Contexts.CallMergeEnv | lib/index.js:162-200 | the `env` of `_merge({}, base, call)` in each case: a call without `env` keeps the base's; over a falsy base `env` the call's replaces it by reference; over a truthy base `env` the base's value is kept, and a call `env` that is not an object changes no env object; when both hold env objects, the base's object is returned and is overwritten with the union of both |
| Contexts.PerCallEnvLeaks | lib/index.js:198-218 | the finding below: after a call with its own `env`, a later call without one sees that `env`'s variables |
| Contexts.LayeredEffective | lib/index.js:198-218 | the reference layering, with `env` restored or combined, meets what a call's effective options promise |
| Contexts.CombineEnvs | lib/index.js:163-164 | the two env objects are combined into a fresh object, with the second's values winning |
| Contexts.RestoreEnv | lib/index.js:163-164 | puts back the base's `env` over the call's, or a fresh combination when both are objects |
| Contexts.Context.constructor | lib/index.js:215 | `baseOptions \|\| {}` |
| Contexts.Context.PrepareCall | lib/index.js:198-218 | `_merge({}, baseOptions, options)` as written: the fresh options and the env objects end as `CallMergeF` says, and the option bags are unchanged |
| Contexts.Context.CopyLayers | lib/index.js:142-160 | copying the base and the call into `{}` gives the reference layering |
| Contexts.Context.PrepareCallIsolated | lib/index.js:198-218 | the corrected merge. Fresh options meet the effective-options contract, and a combined `env` is a fresh object holding the base's variables overridden by the call's |
| Contexts.Context.Exec | lib/index.js:210-213 | throws if and only if the merge writes the call's `env` into a primitive base `env`, or `shellSwitch` is truthy and not an array (except a string switch under an echo veto, which resolves to null). Otherwise it launches the invocation, with the plan and completion that `Decide` and `Settle` give on the layered options. A spawned child gets a truthy `rawEnv`; otherwise, when the `env` the call keeps is truthy, a fresh object composed from the ambient environment and `ChildOverrides` (both `env` objects combined, or the kept one); otherwise that `env` itself. The options handed to the child (`SentOptions`) are the layered ones for every key but three: `stdio` is the array `StdioIntent` builds when `_spawn` handles stdio, else as given; `windowsVerbatimArguments` is `true` on win32, else as given; `env` is the child's `env` |
| Contexts.Context.Run | lib/index.js:199-202 | `shell()` throws synchronously (an `Err`) exactly when `exec` would; otherwise its promise settles as `Settle` gives on the layered options |
| Contexts.Context.SpawnCommand | lib/index.js:205-208 | throws if and only if the merge writes the call's `env` into a primitive base `env`; otherwise launches the program with `args` or `[]`, with the plan and completion the layered options give. A spawned child gets its `env` as for `exec`: `rawEnv`, else the ambient environment composed with `ChildOverrides`, else the falsy kept `env`. The options handed to the child (`SentOptions`) are the layered ones, `windowsVerbatimArguments` included, except `stdio` (the array `StdioIntent` builds when `_spawn` handles stdio, else as given) and `env` (the child's `env`) |
| Contexts.Context.Derive | lib/index.js:216-218 | no context (a throw) if and only if the merge writes the call's `env` into a primitive base `env`; otherwise a child context whose fresh base options are the effective options of the call |
| Contexts.ShellCall | lib/index.js:125-140 | `_shell` followed by `_spawn` on merged options that agree with the effective ones outside `env`: a throw for a truthy non-array `shellSwitch`, except that a string one under an echo veto resolves to null. A spawned child's `env` is the one `ChildEnv` describes for the kept `env` and its overrides. The options handed to the child (`SentOptions`) are the layered ones for every key but three: `stdio` is the array `StdioIntent` builds when `_spawn` handles stdio, else as given; `windowsVerbatimArguments` is `true` on win32, else as given; `env` is the child's `env` |
| Contexts.ShellLaunch | lib/index.js:125-139 | when `shellSwitch` is an array or falsy, `_shell` launches exactly the invocation `ShellInvocation` gives, with the plan and completion of the effective options, and a spawned child gets the `env` `ChildEnv` describes for the kept `env`. The options handed to the child (`SentOptions`) are the layered ones for every key but three: `stdio` is the array `StdioIntent` builds when `_spawn` handles stdio, else as given; `windowsVerbatimArguments` is `true` on win32, else as given; `env` is the child's `env` |
| Contexts.SpawnLaunch | lib/index.js:205-208 | `_spawn` on the merged options launches the program with `args` or `[]`, verbatim as the effective options say, with their plan and completion, and a spawned child gets the `env` `ChildEnv` describes for the kept `env`. The options handed to the child (`SentOptions`) are the layered ones, `windowsVerbatimArguments` included, except `stdio` (the array `StdioIntent` builds when `_spawn` handles stdio, else as given) and `env` (the child's `env`) |
| Contexts.SpawnMerged | lib/index.js:6-123 | the plan and completion depend only on options outside `env` and `windowsVerbatimArguments`. A spawned child gets a truthy `rawEnv`, else the ambient environment composed with a truthy `env`'s contents, else `env` as it was; a vetoed call leaves `env` alone. The options handed over are `Prepared` from the merged ones: the effective values for every key but `env`, `stdio` (the `StdioIntent` array when stdio is handled, else as given) and `windowsVerbatimArguments` (as the merged options hold it) |
| Contexts.Context.MergedEnv | lib/index.js:162-167 | after the corrected merge, the options' `env` is truthy exactly when the `env` the call keeps is, equals it when falsy, and holds the contents `ChildOverrides` names: both objects combined, or the kept object's contents |
| Contexts.DecideAgrees | lib/index.js:9-33 | the plan does not read `env` or `windowsVerbatimArguments` |
| Contexts.SettleAgrees | lib/index.js:94-116 | the completion does not read `env`, `stdio` or `windowsVerbatimArguments` |

## Left out

- `child_process.spawn` itself, the child handle, the event wiring of the streams, `Promise`/`P.all` scheduling and the `Promise` option. The child's pid, its termination and what its streams delivered are parameters.
- Decoding `Buffer` chunks: stream chunks are modelled as text already decoded. `Buffer.concat` followed by `toString` is a concatenation of the chunks.
- Caller-supplied functions (a `captureOutput`/`captureError` format function, a `normalizeText` function, an `echoCommand` function) are values `Func(id)`. What such a function returns is not computed: the capture holds `Formatted(id, raw)` or `CustomNormalized(id, text)`. The value `echoCommand` returns is a parameter.
- `console.log` of the echoed command: output only, no effect on the result.
- Launch.Settle: when both captures fail, the source rejects with whichever error comes first in time. The model takes stdout's.
- Launch.Settle: the race between the exit event and the end of the captured streams is not modelled. The model settles after both.
- Launch.Settle: when captures exist, the result has both `stdout` and `stderr` keys, and the one not captured is `undefined`. This follows the code.
- Shell.ShellInvocation: a truthy `shellSwitch` that is not an array is an `Err("TypeError")`. Most such values have no `concat`. A string concatenates into one string, which `_spawn` cannot use as an argument list: `args.join` fails, or the child-process library rejects it. The exception is an `echoCommand` veto, which returns first; the entry points model it (`Contexts.Call.EchoVetoed`). A plain object with its own `concat` function is not modelled.
- Env.Lower: `toLowerCase` is modelled for ASCII letters only.
- Env.Compose: for-in over a string, array or Buffer `env` visits its indices ("0", "1", ...) and copies its characters, items or bytes into the child's environment; `Env.Overrides` takes no overrides from such a value, so the model composes only the ambient environment there. The same holds for `Launch.SetChildEnv` and `Launch.PrepareSpawn`, which call it.
- Options.OptionAssign: when a string, array or Buffer `env` is copied into an existing env object, the source adds its indices as keys. The model leaves the object unchanged.
- Inherited enumerable properties, numeric-like keys (which JavaScript enumerates first) and non-string array elements are not modelled. Env values are strings, joined arrays of strings, or any other `Value` passed through.
- Options.Merge: requires that no layer is the destination, that env objects are distinct from the destination and the layers, and that every object is well formed. `_merge(o, o)` and an options object used as its own `env` are not modelled.
- Options.OptionAssign: over a truthy string, number or boolean `env`, writing an incoming `env` with own properties throws a TypeError (`Options.EnvWriteThrows`). The fold `OptionAssignF` describes only merges that do not throw, and leaves the state unchanged where the source throws. The entry points check `Contexts.MergeThrows` first and throw.
- Options.Merge: built on `OptionAssignF`, it does not throw where `_merge` throws a TypeError for a primitive destination `env`, and leaves the state unchanged there instead.
- Contexts.Context.PrepareCall: built on `Options.Merge`, it likewise does not model the TypeError of a primitive base `env`; `Contexts.MergeThrows` states when that happens.
- Options.OptionAssign: a truthy array, Buffer or function `env` is an object that the source writes the incoming properties into. The model's values for these are not objects, so it leaves them unchanged.
- Contexts.Context.Exec: merges with the corrected `PrepareCallIsolated`, so it does not write the call's `env` into the base env object; the as-written merge `PrepareCall` and that write are modelled separately (see Findings).
- Contexts.Context.Run: runs `Exec`, so it too merges with the corrected `PrepareCallIsolated` rather than the as-written `PrepareCall` (see Findings).
- Contexts.Context.SpawnCommand: merges with the corrected `PrepareCallIsolated`, so it does not write the call's `env` into the base env object (see Findings).
- Contexts.Context.Derive: merges with the corrected `PrepareCallIsolated`, so it does not write the call's `env` into the base env object (see Findings).
- Floating-point exit codes and `NaN` are not modelled; exit codes are integers.

## Findings

| source | as written | input that shows it | evidently intended | confidence | as-written member | corrected member |
|---|---|---|---|---|---|---|
| lib/index.js:162-218 | `_merge({}, baseOptions, options)` first stores the base's `env` object in the fresh options. The call's `env` is then copied INTO that same object, so the base options' env is mutated. | base options `{env: {BAR: "2"}}`; one call with `{env: {FOO: "9"}}`; a later call with no options sees `env` = `{BAR: "2", FOO: "9"}` | the per-call `env` is combined with the base's in a fresh object, and the base options are left unchanged between calls | not executed; high that it happens, medium that it is unintended | Contexts.PerCallEnvLeaks | Contexts.Context.PrepareCallIsolated |
