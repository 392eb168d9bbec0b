/**
 * The build script's command line (script/index.ts): the argument string, the command
 * table, the exit code of admin commands and the confirmation asked before running a build
 * script that may have changed since it was bootstrapped.
 */
module Cli {
  import opened Wrappers
  import opened JsText

  /** `[argv[2], argv[3]].filter(a => a).join(' ')`: empty and missing items are dropped. */
  function JoinArgs(arg2: Option<string>, arg3: Option<string>): (args: string)
    ensures arg2.None? || arg2 == Some("") ==> args == (if arg3.Some? then arg3.value else "")
    ensures arg3.None? || arg3 == Some("") ==> args == (if arg2.Some? then arg2.value else "")
    ensures arg2.Some? && arg2.value != "" && arg3.Some? && arg3.value != "" ==>
              args == arg2.value + " " + arg3.value
  {
    var present := (if arg2.Some? && arg2.value != "" then [arg2.value] else [])
                 + (if arg3.Some? && arg3.value != "" then [arg3.value] else []);
    assert |present| == 2 ==> Join(present, " ") == present[0] + " " + Join(present[1..], " ");
    Join(present, " ")
  }

  /** What the script goes on to do. The optional header tags the log lines of a target. */
  datatype Action =
    | BuildSelf
    | BuildClient(watch: bool, header: Option<string>)
    | BuildServer(watch: bool, header: Option<string>)
    | ReloadStatic(key: string)
    | DisableSourceMap
    | EnableSourceMap
    | UploadConfig
    /** "unknown command", exit code 1. */
    | UnknownCommand

  /** A character of the class `[\w\\.]`: a word character, a backslash or a dot. */
  predicate IsKeyChar(c: char) {
    ('a' <= c <= 'z') || ('A' <= c <= 'Z') || ('0' <= c <= '9') || c == '_' || c == '\\' || c == '.'
  }

  /** A key accepted after "reload-static ": one or more key characters. */
  predicate IsKey(key: string) {
    |key| >= 1 && forall k | 0 <= k < |key| :: IsKeyChar(key[k])
  }

  const ReloadPrefix: string := "reload-static "

  /** `/^reload-static [\w\\.]+$/.test(args)` */
  predicate IsReloadStatic(args: string) {
    ReloadPrefix <= args && IsKey(args[|ReloadPrefix|..])
  }

  /** The commands written out literally, with the actions each starts in order. */
  function FixedCommand(args: string): Option<seq<Action>> {
    if args == "self" then Some([BuildSelf])
    else if args == "ui" then Some([BuildClient(false, None)])
    else if args == "core" then Some([BuildServer(false, None)])
    else if args == "both" then Some([BuildClient(false, Some("c")), BuildServer(false, Some("s"))])
    else if args == "watch ui" then Some([BuildClient(true, None)])
    else if args == "watch core" then Some([BuildServer(true, None)])
    else if args == "watch both" then Some([BuildClient(true, Some("c")), BuildServer(true, Some("s"))])
    else if args == "disable-source-map" then Some([DisableSourceMap])
    else if args == "enable-source-map" then Some([EnableSourceMap])
    else if args == "config" then Some([UploadConfig])
    else None
  }

  /** `dispatch(args)`: the literal commands, then the reload pattern, else unknown. */
  function Dispatch(args: string): (actions: seq<Action>)
    ensures FixedCommand(args).Some? ==> actions == FixedCommand(args).value
    ensures FixedCommand(args).None? && IsReloadStatic(args) ==> actions == [ReloadStatic(args[|ReloadPrefix|..])]
    ensures actions == [UnknownCommand] <==> FixedCommand(args).None? && !IsReloadStatic(args)
  {
    if args == "self" then [BuildSelf]
    else if args == "ui" then [BuildClient(false, None)]
    else if args == "core" then [BuildServer(false, None)]
    else if args == "both" then [BuildClient(false, Some("c")), BuildServer(false, Some("s"))]
    else if args == "watch ui" then [BuildClient(true, None)]
    else if args == "watch core" then [BuildServer(true, None)]
    else if args == "watch both" then [BuildClient(true, Some("c")), BuildServer(true, Some("s"))]
    else if IsReloadStatic(args) then
      (FixedCommandsAreNotReloads(args); [ReloadStatic(args[14..])])
    else if args == "disable-source-map" then [DisableSourceMap]
    else if args == "enable-source-map" then [EnableSourceMap]
    else if args == "config" then [UploadConfig]
    else [UnknownCommand]
  }

  /** The literal commands are not reload commands, so testing the pattern first is harmless. */
  lemma FixedCommandsAreNotReloads(args: string)
    ensures FixedCommand(args).Some? ==> !IsReloadStatic(args)
  {
    if FixedCommand(args).Some? {
      assert args != [] && args[0] != 'r';
      assert ReloadPrefix[0] == 'r';
    }
  }

  /** A reload command carries exactly the key it was given, and only a key makes one. */
  lemma ReloadStaticRoundTrip(key: string)
    ensures Dispatch(ReloadPrefix + key) == [ReloadStatic(key)] <==> IsKey(key)
    ensures !IsKey(key) ==> Dispatch(ReloadPrefix + key) == [UnknownCommand]
  {
    var args := ReloadPrefix + key;
    assert args[..|ReloadPrefix|] == ReloadPrefix;
    assert args[|ReloadPrefix|..] == key;
    assert FixedCommand(args).None? by {
      assert |args| >= 14 && args[0] == 'r';
    }
  }

  /** Building both targets starts the client before the server, with headers "c" and "s". */
  lemma BothStartsClientThenServer(watch: bool)
    ensures Dispatch(if watch then "watch both" else "both")
         == [BuildClient(watch, Some("c")), BuildServer(watch, Some("s"))]
  {
  }

  /** `calladmin`: the process exits 0 when the admin command succeeded and 1 otherwise. */
  function AdminExitCode(succeeded: bool): (code: int)
    ensures code == 0 <==> succeeded
    ensures code == 0 || code == 1
  {
    if succeeded then 0 else 1
  }

  /** The question is asked unless the command builds the script itself or it is unchanged. */
  predicate AsksConfirmation(args: string, hash: string) {
    !StartsWith(args, "self") && hash != "selfhash"
  }

  datatype Startup = Run(actions: seq<Action>) | Exit(code: int)

  /**
   * The start of the script: `answer` is the line typed at the question, when it is asked.
   * A refusal exits with code 2 before anything is dispatched.
   */
  function Start(args: string, hash: string, answer: string): (r: Startup)
    ensures r == Exit(2) <==> AsksConfirmation(args, hash) && answer != "y" && answer != "Y"
    ensures r.Run? ==> r.actions == Dispatch(args)
    ensures !AsksConfirmation(args, hash) ==> r == Run(Dispatch(args))
  {
    if AsksConfirmation(args, hash) && answer != "y" && answer != "Y" then Exit(2)
    else Run(Dispatch(args))
  }

  /** Building the script itself never waits for an answer. */
  lemma SelfNeverAsks(hash: string, answer: string)
    ensures Start("self", hash, answer) == Run([BuildSelf])
  {
  }
}
