/** The LangChain bridge: look up `npx`, run `@boltzpay/cli`, and classify the
    output parse-first. Standard output is stripped and parsed before anything
    else; a parsed body whose `success` is literally `false` is an error
    whatever the exit status, and every other parsed body is returned as it
    is, whatever the exit status. */
module LangchainBridge {
  import opened Wrappers
  import opened Json
  import opened Runtime
  import opened Process
  import opened LangchainErrors
  import Text

  const DefaultTimeout := 30

  /** `_find_npx`: the launcher's path, or `NodeNotFound`. */
  function FindNpx(which: Option<string>): (r: Result<string, BridgeError>)
    ensures r.Ok? <==> which.Some?
    ensures which.Some? ==> r.value == which.value
    ensures which.None? ==> r.error == NodeNotFound
  {
    match which
    case Some(path) => Ok(path)
    case None => Err(NodeNotFound)
  }

  /** `isinstance(data, dict) and data.get("success") is False`. */
  predicate IsFailureEnvelope(data: Json) {
    Field(data, "success") == Some(JBool(false))
  }

  /** The bridge can read the error details of `data`: a failure envelope's
      `error` entry, when present, is an object. Otherwise the source crashes
      calling `.get` on it, which the model does not cover. */
  predicate ErrorInfoReadable(data: Json) {
    IsFailureEnvelope(data) ==> Field(data, "error").None? || Field(data, "error").value.JObject?
  }

  /** `data.get("error", {})`. */
  function ErrorInfo(data: Json): (info: Json)
    requires IsFailureEnvelope(data) && ErrorInfoReadable(data)
    ensures info.JObject?
    ensures "error" in data.fields ==> info == data.fields["error"]
    ensures "error" !in data.fields ==> info == JObject(map[])
  {
    FieldOr(data, "error", JObject(map[]))
  }

  function ExitMessage(exitCode: int): string {
    "CLI exited with code " + Text.IntToDecimal(exitCode)
  }

  predicate Classifiable(lib: Library, stdout: string) {
    var parsed := lib.loads(lib.strip(stdout));
    parsed.Some? ==> ErrorInfoReadable(parsed.value)
  }

  /** What `run_cli` and `async_run_cli` do with a finished child's output. */
  function Classify(lib: Library, exitCode: int, stdout: string, stderr: string): Result<Json, BridgeError>
    requires Classifiable(lib, stdout)
  {
    match lib.loads(lib.strip(stdout))
    case None =>
      Err(General(JString("CLI_ERROR"), JString(Text.OrElse(lib.strip(stderr), ExitMessage(exitCode)))))
    case Some(data) =>
      if IsFailureEnvelope(data) then
        var info := ErrorInfo(data);
        Err(General(FieldOr(info, "code", JString("UNKNOWN")),
                    FieldOr(info, "message", JString("Unknown CLI error"))))
      else
        Ok(data)
  }

  predicate OutcomeClassifiable(lib: Library, o: Outcome<string>) {
    o.Completed? ==> Classifiable(lib, o.stdout)
  }

  /** The call does not reach the crash the model leaves out. */
  predicate CanRun(lib: Library, host: Host<string>, command: string, args: Option<seq<string>>) {
    host.which.Some? ==> OutcomeClassifiable(lib, host.spawn(CommandLine(host.which.value, command, args)))
  }

  /** `run_cli(command, args, timeout)`. */
  function RunCli(lib: Library, host: Host<string>, command: string, args: Option<seq<string>>, timeout: int): (r: Run<BridgeError>)
    requires CanRun(lib, host, command, args)
    ensures WellOrdered(r.trace)
    ensures host.which.Some? && host.spawn(CommandLine(host.which.value, command, args)).Completed? ==>
              var o := host.spawn(CommandLine(host.which.value, command, args));
              r.result == Classify(lib, o.exitCode, o.stdout, o.stderr)
  {
    match FindNpx(host.which)
    case Err(e) => Run([LookUpNpx], Err(e))
    case Ok(npx) =>
      var cmd := CommandLine(npx, command, args);
      var trace := [LookUpNpx, Spawn(cmd)];
      match host.spawn(cmd)
      case SpawnFailed => Run(trace, Err(NodeNotFound))
      case TimedOut => Run(trace, Err(Timeout(timeout)))
      case Completed(code, out, err) => Run(trace, Classify(lib, code, out, err))
  }

  /** The asynchronous host after `.decode()` of the captured bytes. */
  function Decoded(lib: Library, host: Host<Bytes>): Host<string> {
    MapHost(host, lib.decode)
  }

  /** `async_run_cli(command, args, timeout)`: on a timeout the child is
      killed and reaped before the error is raised. */
  function AsyncRunCli(lib: Library, host: Host<Bytes>, command: string, args: Option<seq<string>>, timeout: int): (r: Run<BridgeError>)
    requires CanRun(lib, Decoded(lib, host), command, args)
    ensures WellOrdered(r.trace)
    ensures host.which.Some? && host.spawn(CommandLine(host.which.value, command, args)).Completed? ==>
              var o := host.spawn(CommandLine(host.which.value, command, args));
              && Classifiable(lib, lib.decode(o.stdout))
              && r.result == Classify(lib, o.exitCode, lib.decode(o.stdout), lib.decode(o.stderr))
  {
    match FindNpx(host.which)
    case Err(e) => Run([LookUpNpx], Err(e))
    case Ok(npx) =>
      var cmd := CommandLine(npx, command, args);
      var trace := [LookUpNpx, Spawn(cmd)];
      match host.spawn(cmd)
      case SpawnFailed => Run(trace, Err(NodeNotFound))
      case TimedOut => Run(trace + [Kill, Wait], Err(Timeout(timeout)))
      case Completed(code, out, err) =>
        assert Decoded(lib, host).which == Some(npx);
        assert Decoded(lib, host).spawn(cmd) == MapOutcome(host.spawn(cmd), lib.decode);
        Run(trace, Classify(lib, code, lib.decode(out), lib.decode(err)))
  }

  // ---------------------------------------------------------------------
  // Properties of the run
  // ---------------------------------------------------------------------

  /** Without `npx` on PATH the call fails with `NODE_NOT_FOUND` and never
      spawns: the only thing it did was the lookup. */
  lemma MissingNpxSpawnsNothing(lib: Library, host: Host<string>, command: string, args: Option<seq<string>>, timeout: int)
    requires host.which.None?
    ensures RunCli(lib, host, command, args, timeout) == Run([LookUpNpx], Err(NodeNotFound))
    ensures forall a :: a in RunCli(lib, host, command, args, timeout).trace ==> !a.Spawn?
  {
  }

  /** With `npx` found, exactly one process is spawned, with exactly the
      documented command line. */
  lemma SpawnsTheCommandLine(lib: Library, host: Host<string>, command: string, args: Option<seq<string>>, timeout: int)
    requires host.which.Some? && CanRun(lib, host, command, args)
    ensures RunCli(lib, host, command, args, timeout).trace
            == [LookUpNpx, Spawn(CommandLine(host.which.value, command, args))]
  {
  }

  /** A spawn failure reports `NODE_NOT_FOUND`; a timeout reports `TIMEOUT`
      with the caller's timeout. */
  lemma SpawnFailureAndTimeout(lib: Library, host: Host<string>, command: string, args: Option<seq<string>>, timeout: int)
    requires host.which.Some? && CanRun(lib, host, command, args)
    ensures host.spawn(CommandLine(host.which.value, command, args)).SpawnFailed?
            ==> RunCli(lib, host, command, args, timeout).result == Err(NodeNotFound)
    ensures host.spawn(CommandLine(host.which.value, command, args)).TimedOut?
            ==> RunCli(lib, host, command, args, timeout).result == Err(Timeout(timeout))
                && RunCli(lib, host, command, args, timeout).result.error.Code() == JString("TIMEOUT")
  {
  }

  // ---------------------------------------------------------------------
  // Properties of the classification
  // ---------------------------------------------------------------------

  /** Unparseable standard output is a `CLI_ERROR` whose message is the
      stripped standard error, or the exit status when that is empty. */
  lemma UnparseableIsCliError(lib: Library, exitCode: int, stdout: string, stderr: string)
    requires lib.loads(lib.strip(stdout)).None?
    ensures Classify(lib, exitCode, stdout, stderr).Err?
    ensures Classify(lib, exitCode, stdout, stderr).error.Code() == JString("CLI_ERROR")
    ensures lib.strip(stderr) != "" ==>
              Classify(lib, exitCode, stdout, stderr).error.Message() == JString(lib.strip(stderr))
    ensures lib.strip(stderr) == "" ==>
              Classify(lib, exitCode, stdout, stderr).error.Message() == JString(ExitMessage(exitCode))
  {
  }

  /** The fallback message names the exit status recoverably. */
  lemma ExitMessageNamesExitCode(exitCode: int)
    ensures Text.Contains(ExitMessage(exitCode), "exited with code")
    ensures ExitMessage(exitCode)[|"CLI exited with code "|..] == Text.IntToDecimal(exitCode)
    ensures Text.DecimalToInt(ExitMessage(exitCode)[|"CLI exited with code "|..]) == Some(exitCode)
  {
    var d := Text.IntToDecimal(exitCode);
    assert "CLI exited with code " == "CLI " + "exited with code" + " ";
    assert ExitMessage(exitCode) == "CLI " + "exited with code" + (" " + d);
    Text.ContainsPart("CLI ", "exited with code", " " + d);
    Text.IntToDecimalRoundTrip(exitCode);
  }

  /** A literal `success: false` is an error carrying the envelope's
      `error.code` and `error.message`, defaulting to `UNKNOWN` and
      `Unknown CLI error`, whatever the exit status. */
  lemma FailureEnvelopeIsForwarded(lib: Library, exitCode: int, stdout: string, stderr: string, data: Json)
    requires lib.loads(lib.strip(stdout)) == Some(data)
    requires IsFailureEnvelope(data) && ErrorInfoReadable(data)
    ensures Classify(lib, exitCode, stdout, stderr).Err?
    ensures Classify(lib, exitCode, stdout, stderr).error.Code()
            == FieldOr(ErrorInfo(data), "code", JString("UNKNOWN"))
    ensures Classify(lib, exitCode, stdout, stderr).error.Message()
            == FieldOr(ErrorInfo(data), "message", JString("Unknown CLI error"))
  {
  }

  /** The call returns a value exactly when standard output parses to
      something other than a failure envelope, and the value is the parsed
      body unchanged. */
  lemma OkExactlyWhenNotFailure(lib: Library, exitCode: int, stdout: string, stderr: string)
    requires Classifiable(lib, stdout)
    ensures Classify(lib, exitCode, stdout, stderr).Ok?
            <==> lib.loads(lib.strip(stdout)).Some? && !IsFailureEnvelope(lib.loads(lib.strip(stdout)).value)
    ensures Classify(lib, exitCode, stdout, stderr).Ok?
            ==> lib.loads(lib.strip(stdout)) == Some(Classify(lib, exitCode, stdout, stderr).value)
  {
  }

  /** Once standard output parses, neither the exit status nor standard
      error make any difference. */
  lemma ParsedIgnoresExitCode(lib: Library, code1: int, code2: int, stdout: string, err1: string, err2: string)
    requires Classifiable(lib, stdout) && lib.loads(lib.strip(stdout)).Some?
    ensures Classify(lib, code1, stdout, err1) == Classify(lib, code2, stdout, err2)
  {
  }

  /** `async_run_cli` returns or raises exactly what `run_cli` would on the
      decoded output, and its trace is the synchronous one, extended by the
      kill and the reap when the wait timed out. */
  lemma AsyncAgreesWithSync(lib: Library, host: Host<Bytes>, command: string, args: Option<seq<string>>, timeout: int)
    requires CanRun(lib, Decoded(lib, host), command, args)
    ensures AsyncRunCli(lib, host, command, args, timeout).result
            == RunCli(lib, Decoded(lib, host), command, args, timeout).result
    ensures host.which.Some? && host.spawn(CommandLine(host.which.value, command, args)).TimedOut?
            ==> AsyncRunCli(lib, host, command, args, timeout).trace
                == RunCli(lib, Decoded(lib, host), command, args, timeout).trace + [Kill, Wait]
    ensures !(host.which.Some? && host.spawn(CommandLine(host.which.value, command, args)).TimedOut?)
            ==> AsyncRunCli(lib, host, command, args, timeout).trace
                == RunCli(lib, Decoded(lib, host), command, args, timeout).trace
  {
  }
}
