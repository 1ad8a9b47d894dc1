/**
 * The decisions of `_spawn`: the echo veto, the stdio intents, the
 * environment handed to the child, whether stdin is written and which
 * streams are captured, and how the exit event and the captures settle
 * the returned promise.
 *
 * Starting the child is a step of the operating system: its pid, its
 * exit event and the data its streams deliver are parameters here.
 */
module Launch {
  import opened JsValues
  import opened Wrappers
  import opened Env
  import opened Text
  import opened Decimal

  /** A stdio slot is piped when its option is truthy, else inherited. */
  function Intent(v: Value): string {
    if Truthy(v) then "pipe" else "inherit"
  }

  /** `[inputContent ? "pipe" : "inherit", captureOutput ? ..., captureError ? ...]` */
  function StdioIntent(opts: Dict): (r: seq<string>)
    ensures |r| == 3
    ensures r[0] == "pipe" <==> Truthy(Lookup(opts, "inputContent"))
    ensures r[1] == "pipe" <==> Truthy(Lookup(opts, "captureOutput"))
    ensures r[2] == "pipe" <==> Truthy(Lookup(opts, "captureError"))
    ensures forall i :: 0 <= i < 3 ==> r[i] in {"pipe", "inherit"}
  {
    [Intent(Lookup(opts, "inputContent")), Intent(Lookup(opts, "captureOutput")), Intent(Lookup(opts, "captureError"))]
  }

  /**
   * What `_spawn` does around the child: nothing at all when vetoed;
   * otherwise whether it handles stdio itself, writes stdin and attaches
   * the two captures.
   */
  datatype Plan =
    | Vetoed
    | Spawn(handleStdio: bool, writeInput: bool, captureOutput: bool, captureError: bool)

  /**
   * The decisions of `_spawn` on the options `opts`; `echoReturn` is what
   * a caller-supplied `echoCommand` function returns for this command.
   */
  function Decide(opts: Dict, echoReturn: Value): (p: Plan)
    ensures p.Vetoed? <==> Lookup(opts, "echoCommand").Func? && echoReturn == Bool(false)
    ensures p.Spawn? ==> (p.handleStdio <==> !Truthy(Lookup(opts, "stdio")))
    ensures p.Spawn? && !p.handleStdio ==> !p.writeInput && !p.captureOutput && !p.captureError
    ensures p.Spawn? && p.handleStdio ==>
      && (p.writeInput <==> StdioIntent(opts)[0] == "pipe")
      && (p.captureOutput <==> StdioIntent(opts)[1] == "pipe")
      && (p.captureError <==> StdioIntent(opts)[2] == "pipe")
  {
    var echo := Lookup(opts, "echoCommand");
    if Truthy(echo) && echo.Func? && echoReturn == Bool(false) then Vetoed
    else
      var handle := !Truthy(Lookup(opts, "stdio"));
      Spawn(handle,
            handle && Truthy(Lookup(opts, "inputContent")),
            handle && Truthy(Lookup(opts, "captureOutput")),
            handle && Truthy(Lookup(opts, "captureError")))
  }

  /**
   * The options `_spawn` hands to the child when the plan is `plan`:
   * unless vetoed, `stdio` becomes the intent when the caller gave none,
   * and `env` becomes `env` when `rawEnv` or `env` is truthy.  Nothing
   * else changes.
   */
  function Prepared(d: Dict, plan: Plan, env: Value): (r: Dict)
    ensures AgreeOutside(r, d, {"stdio", "env"})
    ensures WellFormed(d) ==> WellFormed(r)
    ensures plan.Vetoed? ==> r == d
    ensures plan.Spawn? && plan.handleStdio ==> Lookup(r, "stdio") == Arr(StdioIntent(d))
    ensures !(plan.Spawn? && plan.handleStdio) ==> Lookup(r, "stdio") == Lookup(d, "stdio")
    ensures plan.Spawn? && (Truthy(Lookup(d, "rawEnv")) || Truthy(Lookup(d, "env"))) ==> Lookup(r, "env") == env
    ensures !(plan.Spawn? && (Truthy(Lookup(d, "rawEnv")) || Truthy(Lookup(d, "env")))) ==>
      Lookup(r, "env") == Lookup(d, "env")
  {
    if plan.Vetoed? then d
    else
      var s := if plan.handleStdio then Put(d, "stdio", Arr(StdioIntent(d))) else d;
      if Truthy(Lookup(d, "rawEnv")) || Truthy(Lookup(d, "env")) then Put(s, "env", env) else s
  }

  /**
   * `_spawn` up to starting the child: decides the plan and, unless
   * vetoed, overwrites `options.stdio` (when the caller gave none) and
   * `options.env` (the raw environment, or the composed one).
   */
  method PrepareSpawn(options: JsObject, echoReturn: Value, ambient: JsObject, platform: Platform, delim: string)
    returns (plan: Plan)
    requires options.Valid() && ambient.Valid() && options != ambient
    requires options.Get("env").Obj? ==> options.Get("env").o.Valid() && options.Get("env").o != options
    modifies options
    ensures options.Valid()
    ensures plan == Decide(old(options.Snapshot()), echoReturn)
    ensures options.Snapshot() == Prepared(old(options.Snapshot()), plan, options.Get("env"))
    ensures plan.Spawn? && Truthy(old(options.Get("rawEnv"))) ==> options.Get("env") == old(options.Get("rawEnv"))
    ensures plan.Spawn? && !Truthy(old(options.Get("rawEnv"))) && Truthy(old(options.Get("env"))) ==>
      var e := options.Get("env");
      && e.Obj? && fresh(e.o) && e.o.Valid()
      && e.o.Snapshot() == ComposeF(ambient.Snapshot(), old(Overrides(options.Get("env"))), platform, delim)
  {
    var original := options.Snapshot();
    plan := Decide(original, echoReturn);
    if plan.Vetoed? {
      return;
    }
    ghost var env, overrides := options.Get("env"), Overrides(options.Get("env"));
    if plan.handleStdio {
      options.Set("stdio", Arr(StdioIntent(original)));
    }
    assert options.Get("env") == env && Overrides(env) == overrides;
    SetChildEnv(options, ambient, platform, delim);
  }

  /** The `env` half of `PrepareSpawn`: `rawEnv` if truthy, else the composed `env` if truthy. */
  method SetChildEnv(options: JsObject, ambient: JsObject, platform: Platform, delim: string)
    requires options.Valid() && ambient.Valid() && options != ambient
    requires options.Get("env").Obj? ==> options.Get("env").o.Valid() && options.Get("env").o != options
    modifies options
    ensures options.Valid()
    ensures options.Snapshot() ==
      if Truthy(old(options.Get("rawEnv"))) || Truthy(old(options.Get("env")))
      then Put(old(options.Snapshot()), "env", options.Get("env"))
      else old(options.Snapshot())
    ensures Truthy(old(options.Get("rawEnv"))) ==> options.Get("env") == old(options.Get("rawEnv"))
    ensures !Truthy(old(options.Get("rawEnv"))) && Truthy(old(options.Get("env"))) ==>
      var e := options.Get("env");
      && e.Obj? && fresh(e.o) && e.o.Valid()
      && e.o.Snapshot() == ComposeF(ambient.Snapshot(), old(Overrides(options.Get("env"))), platform, delim)
  {
    var raw := options.Get("rawEnv");
    var env := options.Get("env");
    if Truthy(raw) {
      options.Set("env", raw);
    } else if Truthy(env) {
      var composed := Compose(ambient, env, platform, delim);
      options.Set("env", Obj(composed));
    }
  }

  /** The exit event, or the `error` event when the child could not be started. */
  datatype Termination =
    | Exited(code: Option<int>, signal: Option<string>)
    | SpawnError(error: string)

  /** `res.stdout` / `res.stderr`: absent without captures, both set (possibly undefined) with them. */
  datatype CaptureFields =
    | NoCapture
    | CaptureKeys(stdout: Option<Captured>, stderr: Option<Captured>)

  /** The object the promise resolves to: `{code, signal}` plus the capture keys. */
  datatype ExitRecord = ExitRecord(code: Option<int>, signal: Option<string>, output: CaptureFields)

  /** How the promise settles; `Resolved(None)` is `P.resolve(null)`. */
  datatype Completion = Resolved(record: Option<ExitRecord>) | Rejected(message: string)

  predicate CodeTruthy(code: Option<int>) {
    code.Some? && code.value != 0
  }

  predicate SignalTruthy(signal: Option<string>) {
    signal.Some? && signal.value != ""
  }

  /** Why the process ended, as an exit message names it. */
  datatype Cause = ByCode(code: int) | BySignal(signal: string)

  const ProcessPrefix := "Process "
  const CodeInfix := " exited with code "
  const SignalInfix := " was terminated by signal "

  /**
   * `"Process " + child.pid + " " + msg`, where `msg` names the exit code
   * when it is truthy and the signal otherwise.
   */
  function ExitMessage(pid: nat, code: Option<int>, signal: Option<string>): string
    requires CodeTruthy(code) || SignalTruthy(signal)
  {
    ProcessPrefix + NatToString(pid)
      + (if CodeTruthy(code) then CodeInfix + IntToString(code.value) else SignalInfix + signal.value)
  }

  /** Reads the cause back from what follows the pid. */
  function ParseCause(tail: string): Option<Cause> {
    if |tail| >= |CodeInfix| && tail[..|CodeInfix|] == CodeInfix then
      match ParseInt(tail[|CodeInfix|..])
      case Some(c) => Some(ByCode(c))
      case None => None
    else if |tail| >= |SignalInfix| && tail[..|SignalInfix|] == SignalInfix then
      Some(BySignal(tail[|SignalInfix|..]))
    else None
  }

  /** Reads the pid and the cause back from an exit message. */
  function ParseExitMessage(msg: string): Option<(nat, Cause)> {
    if |msg| < |ProcessPrefix| || msg[..|ProcessPrefix|] != ProcessPrefix then None
    else ParsePidAndCause(msg[|ProcessPrefix|..])
  }

  /** Reads the pid's digits, then the cause after them. */
  function ParsePidAndCause(rest: string): Option<(nat, Cause)> {
    var k := DigitRun(rest);
    if k == 0 then None
    else
      match ParseCause(rest[k..])
      case Some(c) => Some((ParseDigits(rest[..k]), c))
      case None => None
  }

  lemma ParsePid(pid: nat, tail: string)
    requires tail == [] || !IsDigit(tail[0])
    ensures ParseExitMessage(ProcessPrefix + NatToString(pid) + tail)
         == match ParseCause(tail) case Some(c) => Some((pid, c)) case None => None
  {
    var rest := NatToString(pid) + tail;
    assert ProcessPrefix + NatToString(pid) + tail == ProcessPrefix + rest;
    ParseAfterPrefix(rest);
    ParseDigitsThenCause(pid, tail);
  }

  lemma ParseAfterPrefix(rest: string)
    ensures ParseExitMessage(ProcessPrefix + rest) == ParsePidAndCause(rest)
  {
    var msg := ProcessPrefix + rest;
    assert msg[..|ProcessPrefix|] == ProcessPrefix && msg[|ProcessPrefix|..] == rest;
  }

  lemma ParseDigitsThenCause(pid: nat, tail: string)
    requires tail == [] || !IsDigit(tail[0])
    ensures ParsePidAndCause(NatToString(pid) + tail)
         == match ParseCause(tail) case Some(c) => Some((pid, c)) case None => None
  {
    var p := NatToString(pid);
    var rest := p + tail;
    DigitRunOf(p, tail);
    assert rest[..|p|] == p && rest[|p|..] == tail;
    ParseNatToString(pid);
  }

  lemma ParseCodeCause(c: int)
    ensures ParseCause(CodeInfix + IntToString(c)) == Some(ByCode(c))
  {
    var t := CodeInfix + IntToString(c);
    assert t[..|CodeInfix|] == CodeInfix && t[|CodeInfix|..] == IntToString(c);
    IntToStringRoundTrip(c);
  }

  lemma ParseSignalCause(signal: string)
    ensures ParseCause(SignalInfix + signal) == Some(BySignal(signal))
  {
    var t := SignalInfix + signal;
    assert t[..|CodeInfix|] != CodeInfix by {
      assert t[1] == 'w' && CodeInfix[1] == 'e';
    }
    assert t[..|SignalInfix|] == SignalInfix && t[|SignalInfix|..] == signal;
  }

  /**
   * The rejection message names the pid and either the exit code or, only
   * when the code is falsy, the signal; both can be read back from it.
   */
  lemma ExitMessageRoundTrip(pid: nat, code: Option<int>, signal: Option<string>)
    requires CodeTruthy(code) || SignalTruthy(signal)
    ensures ParseExitMessage(ExitMessage(pid, code, signal))
         == Some((pid, if CodeTruthy(code) then ByCode(code.value) else BySignal(signal.value)))
  {
    var cause := if CodeTruthy(code) then CodeInfix + IntToString(code.value) else SignalInfix + signal.value;
    if CodeTruthy(code) {
      ParseCodeCause(code.value);
    } else {
      ParseSignalCause(signal.value);
    }
    assert !IsDigit(cause[0]);
    ParsePid(pid, cause);
  }

  /** The settled value of one capture, when it was attached. */
  function CaptureOf(attached: bool, s: Stream, format: Value, normalizeText: Value): Option<Result<Captured>> {
    if attached then Some(CaptureValue(s, format, normalizeText)) else None
  }

  predicate CaptureFailed(c: Option<Result<Captured>>) {
    c.Some? && c.value.Err?
  }

  function CapturedValue(c: Option<Result<Captured>>): Option<Captured> {
    if c.Some? && c.value.Ok? then Some(c.value.value) else None
  }

  /**
   * How the promise of `_spawn` settles, from the plan, the options, the
   * child's pid, its termination and what its output streams delivered.
   * When both captures fail, the source rejects with whichever error
   * comes first in time; this takes stdout's.
   */
  function Settle(plan: Plan, opts: Dict, pid: nat, term: Termination, stdout: Stream, stderr: Stream)
    : (c: Completion)
    ensures plan.Vetoed? ==> c == Resolved(None)
    ensures plan.Spawn? && term.SpawnError? ==> c == Rejected(term.error)
    ensures plan.Spawn? && term.Exited? && !Truthy(Lookup(opts, "ignoreError"))
            && (CodeTruthy(term.code) || SignalTruthy(term.signal))
            ==> c == Rejected(ExitMessage(pid, term.code, term.signal))
    ensures plan.Spawn? && term.Exited?
            && ((plan.captureOutput && stdout.end.Failed?) || (plan.captureError && stderr.end.Failed?))
            ==> c.Rejected?
    ensures plan.Spawn? && term.Exited?
            && (Truthy(Lookup(opts, "ignoreError")) || !(CodeTruthy(term.code) || SignalTruthy(term.signal)))
            && !(plan.captureOutput && stdout.end.Failed?) && !(plan.captureError && stderr.end.Failed?)
            ==> c.Resolved?
    ensures c.Resolved? && plan.Spawn? ==>
      && term.Exited? && c.record.Some?
      && c.record.value.code == term.code && c.record.value.signal == term.signal
      && (c.record.value.output.CaptureKeys? <==> plan.captureOutput || plan.captureError)
      && (c.record.value.output.CaptureKeys? ==>
            && (c.record.value.output.stdout.Some? <==> plan.captureOutput)
            && (c.record.value.output.stderr.Some? <==> plan.captureError))
    ensures c.Resolved? && plan.Spawn? && c.record.value.output.CaptureKeys? ==>
      var normalize := Lookup(opts, "normalizeText");
      && c.record.value.output.stdout
         == CapturedValue(CaptureOf(plan.captureOutput, stdout, Lookup(opts, "captureOutput"), normalize))
      && c.record.value.output.stderr
         == CapturedValue(CaptureOf(plan.captureError, stderr, Lookup(opts, "captureError"), normalize))
    ensures plan.Spawn? && term.Exited?
            && (Truthy(Lookup(opts, "ignoreError")) || !(CodeTruthy(term.code) || SignalTruthy(term.signal)))
            ==> (plan.captureOutput && stdout.end.Failed? ==> c == Rejected(stdout.end.error))
                && (!(plan.captureOutput && stdout.end.Failed?) && plan.captureError && stderr.end.Failed?
                    ==> c == Rejected(stderr.end.error))
  {
    match plan
    case Vetoed => Resolved(None)
    case Spawn(_, _, captureOutput, captureError) =>
      match term
      case SpawnError(e) => Rejected(e)
      case Exited(code, signal) =>
        if !Truthy(Lookup(opts, "ignoreError")) && (CodeTruthy(code) || SignalTruthy(signal)) then
          Rejected(ExitMessage(pid, code, signal))
        else if captureOutput || captureError then
          var normalize := Lookup(opts, "normalizeText");
          var out := CaptureOf(captureOutput, stdout, Lookup(opts, "captureOutput"), normalize);
          var err := CaptureOf(captureError, stderr, Lookup(opts, "captureError"), normalize);
          if CaptureFailed(out) then Rejected(out.value.error)
          else if CaptureFailed(err) then Rejected(err.value.error)
          else Resolved(Some(ExitRecord(code, signal, CaptureKeys(CapturedValue(out), CapturedValue(err)))))
        else
          Resolved(Some(ExitRecord(code, signal, NoCapture)))
  }

  /**
   * A caller that captures stdout only, with default normalisation, gets
   * a record whose `stdout` is the normalised text of the stream and
   * whose `stderr` is undefined.
   */
  lemma CaptureOutputOnly(opts: Dict, echoReturn: Value, pid: nat, code: Option<int>, signal: Option<string>,
                          stdout: Stream, stderr: Stream)
    requires !Truthy(Lookup(opts, "stdio")) && !Lookup(opts, "echoCommand").Func?
    requires Lookup(opts, "captureOutput") == Bool(true) && !Truthy(Lookup(opts, "captureError"))
    requires Lookup(opts, "normalizeText") == Bool(true)
    requires !CodeTruthy(code) && !SignalTruthy(signal) && stdout.end == Ended
    ensures Settle(Decide(opts, echoReturn), opts, pid, Exited(code, signal), stdout, stderr)
         == Resolved(Some(ExitRecord(code, signal, CaptureKeys(Some(Text(Normalize(Concat(stdout.chunks)))), None))))
  {
  }

  /**
   * `_spawn` as a whole: the plan and the options it passes to the child,
   * then the settled promise once the child has terminated.
   */
  method SpawnProcess(options: JsObject, echoReturn: Value, ambient: JsObject, platform: Platform, delim: string,
                      pid: nat, term: Termination, stdout: Stream, stderr: Stream)
    returns (plan: Plan, completion: Completion)
    requires options.Valid() && ambient.Valid() && options != ambient
    requires options.Get("env").Obj? ==> options.Get("env").o.Valid() && options.Get("env").o != options
    modifies options
    ensures options.Valid()
    ensures plan == Decide(old(options.Snapshot()), echoReturn)
    ensures options.Snapshot() == Prepared(old(options.Snapshot()), plan, options.Get("env"))
    ensures plan.Spawn? && Truthy(old(options.Get("rawEnv"))) ==> options.Get("env") == old(options.Get("rawEnv"))
    ensures plan.Spawn? && !Truthy(old(options.Get("rawEnv"))) && Truthy(old(options.Get("env"))) ==>
      var e := options.Get("env");
      && e.Obj? && fresh(e.o) && e.o.Valid()
      && e.o.Snapshot() == ComposeF(ambient.Snapshot(), old(Overrides(options.Get("env"))), platform, delim)
    ensures !(plan.Spawn? && (Truthy(old(options.Get("rawEnv"))) || Truthy(old(options.Get("env"))))) ==>
      options.Get("env") == old(options.Get("env"))
    ensures completion == Settle(plan, options.Snapshot(), pid, term, stdout, stderr)
  {
    plan := PrepareSpawn(options, echoReturn, ambient, platform, delim);
    completion := Settle(plan, options.Snapshot(), pid, term, stdout, stderr);
  }
}
