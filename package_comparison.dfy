/** Where the two packages agree and where they disagree, above all in how
    the two bridge copies treat a finished child. The two packages raise
    different error types, so errors are compared by their code and
    message. The LangChain copy strips standard output before parsing and
    the CrewAI copy does not. `json.loads` skips JSON whitespace (space,
    tab, newline, carriage return) but not every character `str.strip`
    removes, so a form feed around a body parses in one copy and not the
    other. Most lemmas take `loads(strip(stdout)) == loads(stdout)` as a
    hypothesis; `OnStripSensitiveOutput` states what each copy does, for
    any exit status, with output that parses only once stripped. */
module PackageComparison {
  import opened Wrappers
  import opened Json
  import opened Runtime
  import opened Process
  import LE = LangchainErrors
  import CE = CrewaiErrors
  import LB = LangchainBridge
  import CB = CrewaiBridge
  import opened ToolCatalog
  import LT = LangchainTools

  /** A result seen from outside: the returned value, or the error's code and
      message. */
  type View = Result<Json, (Json, Json)>

  function LangchainView(r: Result<Json, LE.BridgeError>): View {
    match r
    case Ok(v) => Ok(v)
    case Err(e) => Err((e.Code(), e.Message()))
  }

  function CrewaiView(r: Result<Json, CE.BridgeError>): View {
    match r
    case Ok(v) => Ok(v)
    case Err(e) => Err((e.Code(), e.Message()))
  }

  predicate StripInsensitive(lib: Library, stdout: string) {
    lib.loads(lib.strip(stdout)) == lib.loads(stdout)
  }

  /** The two copies succeed or fail differently exactly when standard output
      parses and the exit status contradicts the body: a failure envelope
      with a zero exit (LangChain raises, CrewAI returns it), or any other
      body with a non-zero exit (LangChain returns it, CrewAI raises). */
  lemma VerdictsDifferExactly(lib: Library, exitCode: int, stdout: string, stderr: string)
    requires StripInsensitive(lib, stdout) && LB.Classifiable(lib, stdout)
    ensures LB.Classify(lib, exitCode, stdout, stderr).Ok? != CB.Classify(lib, exitCode, stdout, stderr).Ok?
            <==> lib.loads(stdout).Some?
                 && (exitCode == 0 <==> LB.IsFailureEnvelope(lib.loads(stdout).value))
  {
    LB.OkExactlyWhenNotFailure(lib, exitCode, stdout, stderr);
    CB.OkExactlyOnCleanExit(lib, exitCode, stdout, stderr);
  }

  /** Where both return, they return the same body. */
  lemma BothOkSameValue(lib: Library, exitCode: int, stdout: string, stderr: string)
    requires StripInsensitive(lib, stdout) && LB.Classifiable(lib, stdout)
    requires LB.Classify(lib, exitCode, stdout, stderr).Ok? && CB.Classify(lib, exitCode, stdout, stderr).Ok?
    ensures LB.Classify(lib, exitCode, stdout, stderr).value == CB.Classify(lib, exitCode, stdout, stderr).value
  {
    LB.OkExactlyWhenNotFailure(lib, exitCode, stdout, stderr);
    CB.OkExactlyOnCleanExit(lib, exitCode, stdout, stderr);
  }

  /** A failure envelope with both `code` and `message`, reported with a
      non-zero exit (what the CLI does), raises the same code and message in
      both copies. */
  lemma AgreeOnReportedFailure(lib: Library, exitCode: int, stdout: string, stderr: string, code: Json, message: Json)
    requires StripInsensitive(lib, stdout) && exitCode != 0
    requires lib.loads(stdout).Some?
    requires var data := lib.loads(stdout).value;
             && LB.IsFailureEnvelope(data)
             && Field(data, "error").Some?
             && Field(data, "error").value.JObject?
             && Field(Field(data, "error").value, "code") == Some(code)
             && Field(Field(data, "error").value, "message") == Some(message)
    ensures LB.Classifiable(lib, stdout)
    ensures LangchainView(LB.Classify(lib, exitCode, stdout, stderr)) == Err((code, message))
    ensures CrewaiView(CB.Classify(lib, exitCode, stdout, stderr)) == Err((code, message))
  {
  }

  /** Unparseable output with a non-zero exit and a non-empty standard error
      that has no surrounding whitespace is the same `CLI_ERROR` in both. */
  lemma AgreeOnUnparseableFailure(lib: Library, exitCode: int, stdout: string, stderr: string)
    requires StripInsensitive(lib, stdout) && exitCode != 0
    requires lib.loads(stdout).None?
    requires stderr != "" && lib.strip(stderr) == stderr
    ensures LB.Classifiable(lib, stdout)
    ensures LangchainView(LB.Classify(lib, exitCode, stdout, stderr))
            == CrewaiView(CB.Classify(lib, exitCode, stdout, stderr))
            == Err((JString("CLI_ERROR"), JString(stderr)))
  {
  }

  /** A zero exit with unparseable output: `CLI_ERROR` in LangChain,
      `PARSE_ERROR` in CrewAI. */
  lemma DisagreeOnUnparseableCleanExit(lib: Library, stdout: string, stderr: string)
    requires StripInsensitive(lib, stdout) && lib.loads(stdout).None?
    ensures LB.Classifiable(lib, stdout)
    ensures LB.Classify(lib, 0, stdout, stderr).Err? && CB.Classify(lib, 0, stdout, stderr).Err?
    ensures LB.Classify(lib, 0, stdout, stderr).error.Code() == JString("CLI_ERROR")
    ensures CB.Classify(lib, 0, stdout, stderr).error.Code() == JString("PARSE_ERROR")
  {
  }

  /** A failure envelope with a non-zero exit whose `error` is missing, or
      is an object lacking `code` or `message`: LangChain fills in the
      defaults for what is missing, CrewAI reports `CLI_ERROR` with the
      standard error. Without `code` the two codes (`UNKNOWN` and
      `CLI_ERROR`) always differ; without only `message` they can agree. */
  lemma IncompleteEnvelopeOutcomes(lib: Library, exitCode: int, stdout: string, stderr: string, data: Json)
    requires StripInsensitive(lib, stdout) && exitCode != 0
    requires lib.loads(stdout) == Some(data) && LB.IsFailureEnvelope(data)
    requires || Field(data, "error").None?
             || (&& Field(data, "error").value.JObject?
                 && ("code" !in Field(data, "error").value.fields
                     || "message" !in Field(data, "error").value.fields))
    ensures LB.Classifiable(lib, stdout)
    ensures LangchainView(LB.Classify(lib, exitCode, stdout, stderr))
            == Err((FieldOr(LB.ErrorInfo(data), "code", JString("UNKNOWN")),
                    FieldOr(LB.ErrorInfo(data), "message", JString("Unknown CLI error"))))
    ensures "code" !in LB.ErrorInfo(data).fields || "message" !in LB.ErrorInfo(data).fields
    ensures CrewaiView(CB.Classify(lib, exitCode, stdout, stderr))
            == Err((JString("CLI_ERROR"), JString(if stderr != "" then stderr else "Unknown error")))
    ensures "code" !in LB.ErrorInfo(data).fields ==>
              LangchainView(LB.Classify(lib, exitCode, stdout, stderr))
              != CrewaiView(CB.Classify(lib, exitCode, stdout, stderr))
  {
  }

  /** Unparseable output with a non-zero exit and an empty standard error:
      LangChain names the exit status, CrewAI says `Unknown error`. */
  lemma DisagreeOnEmptyStderr(lib: Library, exitCode: int, stdout: string, stderr: string)
    requires StripInsensitive(lib, stdout) && exitCode != 0
    requires lib.loads(stdout).None?
    requires stderr == "" && lib.strip(stderr) == ""
    ensures LB.Classifiable(lib, stdout)
    ensures LangchainView(LB.Classify(lib, exitCode, stdout, stderr))
            == Err((JString("CLI_ERROR"), JString(LB.ExitMessage(exitCode))))
    ensures CrewaiView(CB.Classify(lib, exitCode, stdout, stderr))
            == Err((JString("CLI_ERROR"), JString("Unknown error")))
    ensures LB.ExitMessage(exitCode) != "Unknown error"
  {
    assert LB.ExitMessage(exitCode)[0] == 'C';
  }

  /** Unparseable output with a non-zero exit and a standard error that
      `strip` changes: LangChain reports the stripped text, CrewAI the raw
      one. */
  lemma DisagreeOnPaddedStderr(lib: Library, exitCode: int, stdout: string, stderr: string)
    requires StripInsensitive(lib, stdout) && exitCode != 0
    requires lib.loads(stdout).None?
    requires stderr != "" && lib.strip(stderr) != "" && lib.strip(stderr) != stderr
    ensures LB.Classifiable(lib, stdout)
    ensures LangchainView(LB.Classify(lib, exitCode, stdout, stderr))
            == Err((JString("CLI_ERROR"), JString(lib.strip(stderr))))
    ensures CrewaiView(CB.Classify(lib, exitCode, stdout, stderr))
            == Err((JString("CLI_ERROR"), JString(stderr)))
    ensures LangchainView(LB.Classify(lib, exitCode, stdout, stderr))
            != CrewaiView(CB.Classify(lib, exitCode, stdout, stderr))
  {
  }

  /** Output that parses only once stripped, whatever the exit status.
      LangChain returns the body, or raises the envelope's error when it is a
      failure envelope. CrewAI never sees a body: `PARSE_ERROR` with a zero
      exit, `CLI_ERROR` otherwise. A body that is not a failure envelope is
      therefore always treated differently. */
  lemma OnStripSensitiveOutput(lib: Library, exitCode: int, stdout: string, stderr: string, data: Json)
    requires lib.loads(lib.strip(stdout)) == Some(data) && lib.loads(stdout).None?
    requires LB.ErrorInfoReadable(data)
    ensures LB.Classifiable(lib, stdout)
    ensures !LB.IsFailureEnvelope(data) ==> LB.Classify(lib, exitCode, stdout, stderr) == Ok(data)
    ensures LB.IsFailureEnvelope(data) ==>
              LangchainView(LB.Classify(lib, exitCode, stdout, stderr))
              == Err((FieldOr(LB.ErrorInfo(data), "code", JString("UNKNOWN")),
                      FieldOr(LB.ErrorInfo(data), "message", JString("Unknown CLI error"))))
    ensures exitCode == 0 ==>
              CrewaiView(CB.Classify(lib, exitCode, stdout, stderr))
              == Err((JString("PARSE_ERROR"), JString(CB.ParseErrorMessage(stdout))))
    ensures exitCode != 0 ==>
              CrewaiView(CB.Classify(lib, exitCode, stdout, stderr))
              == Err((JString("CLI_ERROR"), JString(if stderr != "" then stderr else "Unknown error")))
    ensures !LB.IsFailureEnvelope(data) ==>
              LangchainView(LB.Classify(lib, exitCode, stdout, stderr))
              != CrewaiView(CB.Classify(lib, exitCode, stdout, stderr))
  {
  }

  /** Both copies look up `npx` and spawn the same command line on every host
      the LangChain model covers: the lookup alone without `npx`, otherwise
      the lookup and one spawn. */
  lemma SameLookupAndSpawn(lib: Library, host: Host<string>, command: string, args: Option<seq<string>>, timeout: int)
    requires LB.CanRun(lib, host, command, args)
    ensures LB.RunCli(lib, host, command, args, timeout).trace == CB.RunCli(lib, host, command, args, timeout).trace
    ensures host.which.None? ==> CB.RunCli(lib, host, command, args, timeout).trace == [LookUpNpx]
    ensures host.which.Some? ==>
              CB.RunCli(lib, host, command, args, timeout).trace
              == [LookUpNpx, Spawn(CommandLine(host.which.value, command, args))]
  {
  }

  /** The asynchronous paths of both copies take the same actions, the kill
      and the reap after a timeout included. */
  lemma SameAsyncActions(lib: Library, host: Host<Bytes>, command: string, args: Option<seq<string>>, timeout: int)
    requires LB.CanRun(lib, LB.Decoded(lib, host), command, args)
    ensures LB.AsyncRunCli(lib, host, command, args, timeout).trace
            == CB.AsyncRunCli(lib, host, command, args, timeout).trace
  {
  }

  /** A missing launcher, or a spawn that fails, is reported with the same
      code and message by both copies. */
  lemma AgreeOnMissingLauncher(lib: Library, host: Host<string>, command: string, args: Option<seq<string>>, timeout: int)
    requires host.which.None? || host.spawn(CommandLine(host.which.value, command, args)).SpawnFailed?
    ensures LB.CanRun(lib, host, command, args)
    ensures LangchainView(LB.RunCli(lib, host, command, args, timeout).result)
            == CrewaiView(CB.RunCli(lib, host, command, args, timeout).result)
            == Err((JString("NODE_NOT_FOUND"), JString(LE.NodeNotFoundMessage)))
  {
  }

  /** A timeout has the same code in both copies but a different message. */
  lemma TimeoutMessagesDiffer(t: int)
    ensures LE.Timeout(t).Code() == CE.Timeout(t).Code()
    ensures LE.Timeout(t).Message() != CE.Timeout(t).Message()
  {
    assert LE.TimeoutMessage(t)[0] == 'B';
    assert CE.TimeoutMessage(t)[0] == 'C';
  }

  /** The CrewAI tools spawn the same command line as the LangChain ones:
      the explicit `[]` of the argument-less tools and LangChain's omitted
      arguments are the same. */
  lemma SameCommandLineAsLangchain(npx: string, i: Input)
    ensures CommandLine(npx, Command(ToolOf(i)), Some(Arguments(i)))
            == CommandLine(npx, Command(ToolOf(i)), LT.CliArgs(i))
  {
  }
}
