/** The command line of app/main.go: `run <image> <command> <args...>`, the
    order of the stages (staging directory, pull, root restriction, launch) and
    the exit status each outcome leads to.  Creating the temporary directory,
    the root restriction of app/process.go and the child process are given as
    their outcomes. */
module Cli {
  import opened Wrappers
  import opened Registry
  import opened ImageClient

  /** What parseArgs extracts from the arguments after the program name. */
  datatype Invocation = Invocation(image: string, command: string, args: seq<string>)

  /** parseArgs: the word at position 0 (`run`) is skipped unread, then come
      the image reference, the command and the command's arguments.  Fewer
      than three words make the Go code panic on indexing. */
  function ParseArgs(args: seq<string>): (inv: Invocation)
    requires |args| >= 3
    ensures [args[0], inv.image, inv.command] + inv.args == args
    ensures |inv.args| == |args| - 3
  {
    Invocation(args[1], args[2], args[3..])
  }

  /** The argument list that asks for `inv`, under any leading word. */
  function Unparse(verb: string, inv: Invocation): (args: seq<string>)
    ensures |args| == 3 + |inv.args|
  {
    [verb, inv.image, inv.command] + inv.args
  }

  lemma ParseUnparse(verb: string, inv: Invocation)
    ensures ParseArgs(Unparse(verb, inv)) == inv
  {
    assert Unparse(verb, inv)[3..] == inv.args;
  }

  lemma UnparseParse(args: seq<string>)
    requires |args| >= 3
    ensures Unparse(args[0], ParseArgs(args)) == args
  {
  }

  /** The leading word is never inspected. */
  lemma ParseArgsIgnoresVerb(args: seq<string>, verb: string)
    requires |args| >= 3
    ensures ParseArgs([verb] + args[1..]) == ParseArgs(args)
  {
    assert ([verb] + args[1..])[3..] == args[3..];
  }

  datatype Stage = MakeTempDir | PullImage | RestrictRoot | Launch

  /** How the child ends: with an exit code, killed by a signal, or never
      started (executable missing under the new root, no permission). */
  datatype ChildOutcome = Exited(code: int) | Signaled | StartFailed

  /** `cmd.ProcessState.ExitCode()`: -1 for a signal, and -1 when there is no
      process state because the child never started. */
  function ExitCode(child: ChildOutcome): (code: int)
    ensures child.Exited? ==> code == child.code
    ensures !child.Exited? ==> code == -1
    ensures code == 0 <==> child == Exited(0)
  {
    match child
    case Exited(c) => c
    case _ => -1
  }

  datatype HostError = HostError(message: string)

  /** The machine the tool runs on. */
  datatype Host = Host(
    goos: string,
    goarch: string,
    tempDir: Result<string, HostError>,
    save: Save,
    chroot: (string, string) -> Option<HostError>,
    launch: (string, seq<string>) -> ChildOutcome)

  /** The exit status of the run and the stages it entered, in order. */
  datatype Exit = Exit(status: int, stages: seq<Stage>)

  /** main as a function of the process arguments (program name included) and
      the outside world. */
  function MainOutcome(osArgs: seq<string>, remote: Remote, host: Host): (e: Exit)
    requires |osArgs| >= 4
    ensures 1 <= |e.stages| <= 4 && e.stages[0] == MakeTempDir
    ensures e.status == 0 ==> Launch in e.stages
    ensures Launch in e.stages ==> e.status == ExitCode(host.launch(osArgs[3], osArgs[4..]))
  {
    var inv := ParseArgs(osArgs[1..]);
    match host.tempDir
    case Err(_) => Exit(1, [MakeTempDir])
    case Ok(dir) =>
      var ref := ParseReference(inv.image);
      var pulled := PullSpec(ref.name, ref.tag, dir, remote, host.goos, host.goarch, host.save);
      if pulled.err.Some? then Exit(1, [MakeTempDir, PullImage])
      else if host.chroot(inv.command, dir).Some? then Exit(1, [MakeTempDir, PullImage, RestrictRoot])
      else
        var child := host.launch(inv.command, inv.args);
        Exit(ExitCode(child), [MakeTempDir, PullImage, RestrictRoot, Launch])
  }

  /** main: each stage runs only if the one before it succeeded. */
  method Run(osArgs: seq<string>, remote: Remote, host: Host) returns (exit: Exit)
    requires |osArgs| >= 4
    ensures exit == MainOutcome(osArgs, remote, host)
  {
    var inv := ParseArgs(osArgs[1..]);
    if host.tempDir.Err? {
      return Exit(1, [MakeTempDir]);
    }
    var dir := host.tempDir.value;
    var client := new DockerImageClient(inv.image, dir);
    var err := client.Pull(remote, host.goos, host.goarch, host.save);
    if err.Some? {
      return Exit(1, [MakeTempDir, PullImage]);
    }
    var chrootErr := host.chroot(inv.command, dir);
    if chrootErr.Some? {
      return Exit(1, [MakeTempDir, PullImage, RestrictRoot]);
    }
    var child := host.launch(inv.command, inv.args);
    if child != Exited(0) {
      return Exit(ExitCode(child), [MakeTempDir, PullImage, RestrictRoot, Launch]);
    }
    return Exit(0, [MakeTempDir, PullImage, RestrictRoot, Launch]);
  }

  /** The program name and the leading word play no part in the run. */
  lemma MainIgnoresProgramAndVerb(osArgs: seq<string>, program: string, verb: string, remote: Remote, host: Host)
    requires |osArgs| >= 4
    ensures MainOutcome([program, verb] + osArgs[2..], remote, host) == MainOutcome(osArgs, remote, host)
  {
    var other := [program, verb] + osArgs[2..];
    ParseArgsIgnoresVerb(osArgs[1..], verb);
    assert other[1..] == [verb] + osArgs[1..][1..];
  }

  /** The stages run in a fixed order and stop after the first failure; every
      failure before launch exits with status 1. */
  lemma FailureBeforeLaunchExitsOne(osArgs: seq<string>, remote: Remote, host: Host)
    requires |osArgs| >= 4
    ensures var e := MainOutcome(osArgs, remote, host);
      && 1 <= |e.stages| <= 4
      && e.stages == [MakeTempDir, PullImage, RestrictRoot, Launch][..|e.stages|]
      && (Launch !in e.stages ==> e.status == 1)
      && (host.tempDir.Err? <==> e.stages == [MakeTempDir])
  {
  }

  /** The image pulled is the third process argument and the staging directory
      is the one just created; a failed pull stops the run before the root is
      restricted. */
  lemma PullFailureStopsRun(osArgs: seq<string>, remote: Remote, host: Host)
    requires |osArgs| >= 4
    requires host.tempDir.Ok?
    ensures var ref := ParseReference(osArgs[2]);
      var pulled := PullSpec(ref.name, ref.tag, host.tempDir.value, remote, host.goos, host.goarch, host.save);
      var e := MainOutcome(osArgs, remote, host);
      && (RestrictRoot in e.stages <==> pulled.err.None?)
      && (pulled.err.Some? ==> e == Exit(1, [MakeTempDir, PullImage]))
      && (Launch in e.stages <==> pulled.err.None? && host.chroot(osArgs[3], host.tempDir.value).None?)
  {
  }

  /** Once launched, the run ends with status 0 after a clean exit and with
      the child's exit code otherwise (-1 without one). */
  lemma LaunchedExitStatus(osArgs: seq<string>, remote: Remote, host: Host)
    requires |osArgs| >= 4
    requires Launch in MainOutcome(osArgs, remote, host).stages
    ensures var e := MainOutcome(osArgs, remote, host);
      var child := host.launch(osArgs[3], osArgs[4..]);
      && |e.stages| == 4
      && host.chroot(osArgs[3], host.tempDir.value).None?
      && e.status == ExitCode(child)
      && (e.status == 0 <==> child == Exited(0))
  {
    assert osArgs[1..][3..] == osArgs[4..];
  }
}
