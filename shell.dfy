/**
 * The shell adapter `_shell`: turns a command line into the shell
 * program and argument list for the platform, before `_spawn`.
 */
module Shell {
  import opened JsValues
  import opened Wrappers
  import opened Env

  /** The program, its arguments, and `windowsVerbatimArguments`. */
  datatype Invocation = Invocation(program: Value, args: seq<string>, verbatim: bool)

  const PosixSwitch: seq<string> := ["-c"]
  const WindowsSwitch: seq<string> := ["/s", "/c"]

  /** `'"' + command + '"'` */
  function Quoted(command: string): string {
    "\"" + command + "\""
  }

  /**
   * The program and arguments `_shell` hands to `_spawn`.  `shellName`
   * and `shellSwitch` are the options; `comspec` is `process.env.comspec`.
   * A truthy `shellSwitch` that is not an array gives no argument list:
   * either `concat` is missing, or it concatenates strings.  A string
   * reaches `_spawn`, which throws unless an `echoCommand` veto returns
   * first (`Contexts.ShellCall`).
   */
  function ShellInvocation(command: string, shellName: Value, shellSwitch: Value, comspec: Value, platform: Platform)
    : (r: Result<Invocation>)
    ensures r.Ok? <==> (shellSwitch.Arr? || !Truthy(shellSwitch))
    ensures r.Ok? ==>
      var sw := if shellSwitch.Arr? then shellSwitch.items
                else if platform == Win32 then WindowsSwitch else PosixSwitch;
      && |r.value.args| == |sw| + 1
      && r.value.args[..|sw|] == sw
      && r.value.args[|sw|] == (if platform == Win32 then Quoted(command) else command)
      && r.value.verbatim == (platform == Win32)
      && r.value.program == (if platform == Win32 then Or(shellName, Or(comspec, Str("cmd.exe")))
                             else Or(shellName, Str("/bin/sh")))
  {
    if Truthy(shellSwitch) && !shellSwitch.Arr? then Err("TypeError")
    else if platform == Win32 then
      var sw := if Truthy(shellSwitch) then shellSwitch.items else WindowsSwitch;
      Ok(Invocation(Or(shellName, Or(comspec, Str("cmd.exe"))), sw + [Quoted(command)], true))
    else
      var sw := if Truthy(shellSwitch) then shellSwitch.items else PosixSwitch;
      Ok(Invocation(Or(shellName, Str("/bin/sh")), sw + [command], false))
  }

  /** Removes one pair of surrounding double quotes. */
  function Unquoted(s: string): Option<string> {
    if |s| >= 2 && s[0] == '"' && s[|s| - 1] == '"' then Some(s[1..|s| - 1]) else None
  }

  /** On win32 the last argument carries the command intact inside one pair of quotes. */
  lemma QuotedRoundTrip(command: string)
    ensures Unquoted(Quoted(command)) == Some(command)
  {
    assert Quoted(command)[1..|Quoted(command)| - 1] == command;
  }

  /**
   * `_shell(command, options)` up to the call of `_spawn`: on win32 it
   * also sets `options.windowsVerbatimArguments`.
   */
  method ApplyShell(command: string, options: JsObject, comspec: Value, platform: Platform)
    returns (r: Result<Invocation>)
    requires options.Valid()
    modifies options
    ensures options.Valid()
    ensures r == ShellInvocation(command, old(options.Get("shellName")), old(options.Get("shellSwitch")), comspec, platform)
    ensures options.Snapshot() == if platform == Win32
      then Put(old(options.Snapshot()), "windowsVerbatimArguments", Bool(true))
      else old(options.Snapshot())
  {
    r := ShellInvocation(command, options.Get("shellName"), options.Get("shellSwitch"), comspec, platform);
    if platform == Win32 {
      options.Set("windowsVerbatimArguments", Bool(true));
    }
  }
}
