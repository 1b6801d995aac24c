/** The CrewAI bridge: the same lookup and command line as the LangChain one,
    but classification branches on the exit status first. A non-zero exit is
    always an error (the envelope's code and message are forwarded when both
    are there); with a zero exit the parsed output is returned without looking
    at `success`. */
module CrewaiBridge {
  import opened Wrappers
  import opened Json
  import opened Runtime
  import opened Process
  import opened CrewaiErrors
  import Text

  const DefaultTimeout := 30
  const PreviewLength := 200

  /** `_find_npx`: the launcher's path, or `NodeNotFound`. */
  function FindNpx(which: Option<string>): (r: Result<string, BridgeError>)
    ensures r.Ok? <==> which.Some?
    ensures which.Some? ==> r.value == which.value
    ensures which.None? ==> r.error == NodeNotFound
  {
    match which
    case Some(path) => Ok(path)
    case None => Err(NodeNotFound)
  }

  /** `(err["error"]["code"], err["error"]["message"])` where no `KeyError` or
      `TypeError` is raised: the parsed body is an object whose `error` is an
      object holding both keys. */
  function EnvelopeError(parsed: Option<Json>): (r: Option<(Json, Json)>)
    ensures r.Some? <==>
              && parsed.Some?
              && Field(parsed.value, "error").Some?
              && Field(Field(parsed.value, "error").value, "code").Some?
              && Field(Field(parsed.value, "error").value, "message").Some?
    ensures r.Some? ==>
              r.value == (Field(Field(parsed.value, "error").value, "code").value,
                          Field(Field(parsed.value, "error").value, "message").value)
  {
    if parsed.None? then None
    else match Field(parsed.value, "error")
      case None => None
      case Some(error) =>
        match (Field(error, "code"), Field(error, "message"))
        case (Some(code), Some(message)) => Some((code, message))
        case _ => None
  }

  function ParseErrorMessage(stdout: string): string {
    "Invalid JSON output: " + Text.Take(stdout, PreviewLength)
  }

  /** What `run_cli` and `async_run_cli` do with a finished child's output.
      Standard output is parsed as it is (not stripped), standard error is
      used as it is. */
  function Classify(lib: Library, exitCode: int, stdout: string, stderr: string): Result<Json, BridgeError> {
    if exitCode != 0 then
      match EnvelopeError(lib.loads(stdout))
      case Some((code, message)) => Err(General(code, message))
      case None => Err(General(JString("CLI_ERROR"), JString(Text.OrElse(stderr, "Unknown error"))))
    else
      match lib.loads(stdout)
      case Some(data) => Ok(data)
      case None => Err(General(JString("PARSE_ERROR"), JString(ParseErrorMessage(stdout))))
  }

  /** `run_cli(command, args, timeout=timeout)`. */
  function RunCli(lib: Library, host: Host<string>, command: string, args: Option<seq<string>>, timeout: int): (r: Run<BridgeError>)
    ensures WellOrdered(r.trace)
    ensures host.which.Some? && host.spawn(CommandLine(host.which.value, command, args)).Completed? ==>
              var o := host.spawn(CommandLine(host.which.value, command, args));
              r.result == Classify(lib, o.exitCode, o.stdout, o.stderr)
  {
    match FindNpx(host.which)
    case Err(e) => Run([LookUpNpx], Err(e))
    case Ok(npx) =>
      var cmd := CommandLine(npx, command, args);
      var trace := [LookUpNpx, Spawn(cmd)];
      match host.spawn(cmd)
      case SpawnFailed => Run(trace, Err(NodeNotFound))
      case TimedOut => Run(trace, Err(Timeout(timeout)))
      case Completed(code, out, err) => Run(trace, Classify(lib, code, out, err))
  }

  /** `stdout_bytes.decode() if stdout_bytes else ""`: empty output is the
      empty string without decoding. */
  function TextOf(lib: Library, b: Bytes): (s: string)
    ensures |b| == 0 ==> s == ""
    ensures |b| > 0 ==> s == lib.decode(b)
  {
    if |b| == 0 then "" else lib.decode(b)
  }

  /** The asynchronous host after the conversion of the captured bytes. */
  function Decoded(lib: Library, host: Host<Bytes>): Host<string> {
    MapHost(host, (b: Bytes) => TextOf(lib, b))
  }

  /** `async_run_cli(command, args, timeout=timeout)`: on a timeout the child
      is killed and reaped before the error is raised. */
  function AsyncRunCli(lib: Library, host: Host<Bytes>, command: string, args: Option<seq<string>>, timeout: int): (r: Run<BridgeError>)
    ensures WellOrdered(r.trace)
    ensures host.which.Some? && host.spawn(CommandLine(host.which.value, command, args)).Completed? ==>
              var o := host.spawn(CommandLine(host.which.value, command, args));
              r.result == Classify(lib, o.exitCode, TextOf(lib, o.stdout), TextOf(lib, o.stderr))
  {
    match FindNpx(host.which)
    case Err(e) => Run([LookUpNpx], Err(e))
    case Ok(npx) =>
      var cmd := CommandLine(npx, command, args);
      var trace := [LookUpNpx, Spawn(cmd)];
      match host.spawn(cmd)
      case SpawnFailed => Run(trace, Err(NodeNotFound))
      case TimedOut => Run(trace + [Kill, Wait], Err(Timeout(timeout)))
      case Completed(code, out, err) => Run(trace, Classify(lib, code, TextOf(lib, out), TextOf(lib, err)))
  }

  // ---------------------------------------------------------------------
  // Properties of the run
  // ---------------------------------------------------------------------

  /** Without `npx` on PATH the call fails with `NODE_NOT_FOUND` and never
      spawns. */
  lemma MissingNpxSpawnsNothing(lib: Library, host: Host<string>, command: string, args: Option<seq<string>>, timeout: int)
    requires host.which.None?
    ensures RunCli(lib, host, command, args, timeout) == Run([LookUpNpx], Err(NodeNotFound))
    ensures forall a :: a in RunCli(lib, host, command, args, timeout).trace ==> !a.Spawn?
  {
  }

  /** With `npx` found, exactly one process is spawned with the documented
      command line; a spawn failure is `NODE_NOT_FOUND` and a timeout is
      `TIMEOUT` with the caller's timeout. */
  lemma SpawnsTheCommandLine(lib: Library, host: Host<string>, command: string, args: Option<seq<string>>, timeout: int)
    requires host.which.Some?
    ensures RunCli(lib, host, command, args, timeout).trace
            == [LookUpNpx, Spawn(CommandLine(host.which.value, command, args))]
    ensures host.spawn(CommandLine(host.which.value, command, args)).SpawnFailed?
            ==> RunCli(lib, host, command, args, timeout).result == Err(NodeNotFound)
    ensures host.spawn(CommandLine(host.which.value, command, args)).TimedOut?
            ==> RunCli(lib, host, command, args, timeout).result == Err(Timeout(timeout))
  {
  }

  // ---------------------------------------------------------------------
  // Properties of the classification
  // ---------------------------------------------------------------------

  /** The call returns a value exactly when the exit status is zero and
      standard output parses; the value is the parsed body, `success` unseen. */
  lemma OkExactlyOnCleanExit(lib: Library, exitCode: int, stdout: string, stderr: string)
    ensures Classify(lib, exitCode, stdout, stderr).Ok? <==> exitCode == 0 && lib.loads(stdout).Some?
    ensures Classify(lib, exitCode, stdout, stderr).Ok?
            ==> lib.loads(stdout) == Some(Classify(lib, exitCode, stdout, stderr).value)
  {
  }

  /** With a non-zero exit, an envelope holding both `error.code` and
      `error.message` is forwarded verbatim, and anything else is a
      `CLI_ERROR` carrying the raw standard error or `Unknown error`. */
  lemma NonZeroExitIsError(lib: Library, exitCode: int, stdout: string, stderr: string)
    requires exitCode != 0
    ensures Classify(lib, exitCode, stdout, stderr).Err?
    ensures EnvelopeError(lib.loads(stdout)).Some? ==>
              var (code, message) := EnvelopeError(lib.loads(stdout)).value;
              && Classify(lib, exitCode, stdout, stderr).error.Code() == code
              && Classify(lib, exitCode, stdout, stderr).error.Message() == message
    ensures EnvelopeError(lib.loads(stdout)).None? ==>
              && Classify(lib, exitCode, stdout, stderr).error.Code() == JString("CLI_ERROR")
              && Classify(lib, exitCode, stdout, stderr).error.Message()
                 == JString(if stderr != "" then stderr else "Unknown error")
  {
  }

  /** A zero exit with unparseable output is a `PARSE_ERROR` that quotes at
      most the first 200 characters of standard output. */
  lemma CleanExitUnparseableIsParseError(lib: Library, stdout: string, stderr: string)
    requires lib.loads(stdout).None?
    ensures Classify(lib, 0, stdout, stderr).Err?
    ensures Classify(lib, 0, stdout, stderr).error.Code() == JString("PARSE_ERROR")
    ensures var m := Classify(lib, 0, stdout, stderr).error.Message();
            && m.JString?
            && m.s[..|"Invalid JSON output: "|] == "Invalid JSON output: "
            && m.s[|"Invalid JSON output: "|..] <= stdout
            && |m.s| <= |"Invalid JSON output: "| + PreviewLength
            && (|stdout| <= PreviewLength ==> m.s == "Invalid JSON output: " + stdout)
            && m.s == "Invalid JSON output: "
                      + stdout[..if |stdout| < PreviewLength then |stdout| else PreviewLength]
  {
  }

  /** `async_run_cli` returns or raises exactly what `run_cli` would on the
      converted output, and its trace is the synchronous one, extended by the
      kill and the reap when the wait timed out. */
  lemma AsyncAgreesWithSync(lib: Library, host: Host<Bytes>, command: string, args: Option<seq<string>>, timeout: int)
    ensures AsyncRunCli(lib, host, command, args, timeout).result
            == RunCli(lib, Decoded(lib, host), command, args, timeout).result
    ensures host.which.Some? && host.spawn(CommandLine(host.which.value, command, args)).TimedOut?
            ==> AsyncRunCli(lib, host, command, args, timeout).trace
                == RunCli(lib, Decoded(lib, host), command, args, timeout).trace + [Kill, Wait]
    ensures !(host.which.Some? && host.spawn(CommandLine(host.which.value, command, args)).TimedOut?)
            ==> AsyncRunCli(lib, host, command, args, timeout).trace
                == RunCli(lib, Decoded(lib, host), command, args, timeout).trace
  {
    if host.which.Some? {
      var cmd := CommandLine(host.which.value, command, args);
      assert Decoded(lib, host).spawn(cmd) == MapOutcome(host.spawn(cmd), (b: Bytes) => TextOf(lib, b));
    }
  }

  /** When decoding empty bytes already gives the empty string, the `if
      stdout_bytes else ""` guard changes nothing. */
  lemma EmptyGuardIsDecode(lib: Library, b: Bytes)
    requires lib.decode([]) == ""
    ensures TextOf(lib, b) == lib.decode(b)
  {
    if |b| == 0 {
      assert b == [];
    }
  }
}
