/** The subprocess side of both bridges: how the command line is built, what
    can come back from the operating system, and the order of the actions a
    call takes. Spawning, PATH lookup and waiting are not modelled; their
    results are given by a `Host`. */
module Process {
  import opened Wrappers
  import opened Json

  const AssumeYes := "-y"
  const Package := "@boltzpay/cli"
  const JsonFlag := "--json"

  /** What spawning and waiting for the child yield: the launcher vanished
      between lookup and spawn (`FileNotFoundError`), the wait ran past the
      timeout, or the child finished with an exit status and its captured
      output (text for the synchronous path, bytes for the asynchronous one). */
  datatype Outcome<T> =
    | SpawnFailed
    | TimedOut
    | Completed(exitCode: int, stdout: T, stderr: T)

  /** The environment of one call: the result of `shutil.which("npx")` and
      the outcome of running a given command line. */
  datatype Host<T> = Host(which: Option<string>, spawn: seq<string> -> Outcome<T>)

  /** The observable steps of one call, in order. */
  datatype Action =
    | LookUpNpx            // shutil.which("npx")
    | Spawn(cmd: seq<string>)  // subprocess.run / create_subprocess_exec
    | Kill                 // proc.kill()
    | Wait                 // await proc.wait()

  /** One bridge call: what it did, and whether it returned or raised. */
  datatype Run<E> = Run(trace: seq<Action>, result: Result<Json, E>)

  /** Python's `args or []`. */
  function ArgsOrEmpty(args: Option<seq<string>>): (r: seq<string>)
    ensures args.Some? ==> r == args.value
    ensures args.None? ==> r == []
  {
    if args.Some? then args.value else []
  }

  /** `[npx, "-y", "@boltzpay/cli", command, *(args or []), "--json"]`. */
  function CommandLine(npx: string, command: string, args: Option<seq<string>>): (cmd: seq<string>)
    ensures |cmd| == 5 + |ArgsOrEmpty(args)|
    ensures cmd[0] == npx && cmd[1] == AssumeYes && cmd[2] == Package && cmd[3] == command
    ensures cmd[4..|cmd| - 1] == ArgsOrEmpty(args)
    ensures cmd[|cmd| - 1] == JsonFlag
  {
    [npx, AssumeYes, Package, command] + ArgsOrEmpty(args) + [JsonFlag]
  }

  /** How the CLI reads its command line back: launcher, sub-command and the
      arguments between the sub-command and the trailing `--json`. */
  function SplitCommandLine(cmd: seq<string>): Option<(string, string, seq<string>)> {
    if |cmd| >= 5 && cmd[1] == AssumeYes && cmd[2] == Package && cmd[|cmd| - 1] == JsonFlag
    then Some((cmd[0], cmd[3], cmd[4..|cmd| - 1]))
    else None
  }

  /** The command line loses nothing: launcher, command and every argument,
      in order, are recovered from it. */
  lemma SplitCommandLineInverts(npx: string, command: string, args: Option<seq<string>>)
    ensures SplitCommandLine(CommandLine(npx, command, args)) == Some((npx, command, ArgsOrEmpty(args)))
  {
  }

  /** Omitted arguments and an empty list give the same command line. */
  lemma AbsentArgsAreEmpty(npx: string, command: string)
    ensures CommandLine(npx, command, None) == CommandLine(npx, command, Some([]))
  {
  }

  /** Applies a conversion to the captured output of a finished child. */
  function MapOutcome<T, U>(o: Outcome<T>, f: T -> U): (r: Outcome<U>)
    ensures r.SpawnFailed? == o.SpawnFailed? && r.TimedOut? == o.TimedOut?
    ensures o.Completed? ==> r == Completed(o.exitCode, f(o.stdout), f(o.stderr))
  {
    match o
    case SpawnFailed => SpawnFailed
    case TimedOut => TimedOut
    case Completed(code, out, err) => Completed(code, f(out), f(err))
  }

  /** The host seen through a conversion of the captured output. */
  function MapHost<T, U>(h: Host<T>, f: T -> U): Host<U> {
    Host(h.which, cmd => MapOutcome(h.spawn(cmd), f))
  }

  /** The trace looks up the launcher first and spawns at most one process,
      right after the lookup. */
  predicate WellOrdered(trace: seq<Action>) {
    && |trace| > 0 && trace[0] == LookUpNpx
    && (forall i :: 0 <= i < |trace| && trace[i].Spawn? ==> i == 1)
  }
}
