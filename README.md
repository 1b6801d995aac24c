# BoltzPay framework adapters — a Dafny model

BoltzPay ships two thin Python adapters so that LangChain and CrewAI agents
can use the `@boltzpay/cli` command-line program: each package has a
*bridge* that runs `npx -y @boltzpay/cli <command> <args> --json` and turns
the child's outcome into a parsed JSON body or a bridge error, an *error
hierarchy* (`BoltzPayBridgeError`, `BoltzPayNodeNotFoundError`,
`BoltzPayTimeoutError`), and seven *tools* (`boltzpay_fetch`, `_check`,
`_quote`, `_discover`, `_budget`, `_history`, `_wallet`) that map their input
to CLI arguments and call the bridge.

The two bridges are independent copies that classify a finished child
differently:

- The LangChain copy parses the stripped standard output first and trusts a
  literal `success: false`. It ignores the exit status otherwise.
- The CrewAI copy looks at the exit status first. With a zero exit it never
  inspects `success`.

The model states both rules. It proves exactly when one copy returns while
the other raises, and it proves case by case where their error codes and
messages agree and where they differ.

Layout, one Dafny module per file:

| file | module | models |
|---|---|---|
| `wrappers.dfy` | `Wrappers` | `Option`, `Result` |
| `json.dfy` | `Json` | parsed JSON values, `dict.get` |
| `text.dfy` | `Text` | decimal rendering of integers, `or`, slicing, substring search |
| `runtime.dfy` | `Runtime` | `json.loads`/`dumps`, `str.strip`, `bytes.decode`, `str()` as given functions |
| `process.dfy` | `Process` | the command line, the child's outcome, the trace of actions |
| `langchain_errors.dfy`, `crewai_errors.dfy` | `LangchainErrors`, `CrewaiErrors` | the two error hierarchies |
| `langchain_bridge.dfy`, `crewai_bridge.dfy` | `LangchainBridge`, `CrewaiBridge` | `_find_npx`, `run_cli`, `async_run_cli` |
| `tool_catalog.dfy` | `ToolCatalog` | tool names, inputs and argument lists, shared by both packages |
| `langchain_tools.dfy`, `crewai_tools.dfy` | `LangchainTools`, `CrewaiTools` | `_run`/`_arun`, `_safe_run` |
| `package_comparison.dfy` | `PackageComparison` | agreement and disagreement of the two packages |

The operating system is abstracted as a `Host`. A host holds the result of
`shutil.which("npx")` and a function from a command line to an `Outcome`:
`SpawnFailed` (`FileNotFoundError`), `TimedOut`, or `Completed(exitCode,
stdout, stderr)`. A bridge call is a function from the host to a `Run`. A run
records the ordered actions taken (`LookUpNpx`, `Spawn(cmd)`, `Kill`, `Wait`)
and the result, which is either `Ok(body)` or `Err(error)`. Library calls are
fields of a `Library` value and are left uninterpreted. Error codes and
messages are JSON values, because the LangChain and CrewAI bridges forward
whatever the CLI's envelope holds.

In the CrewAI bridge, indexing a body or an `error` entry that is not an
object holding the key raises `TypeError` or `KeyError`, which the bridge
catches. The model's `Json.Field` gives `None` for every such lookup, so these
cases reach the same `CLI_ERROR` branch.

The tools' `_run`/`_arun` build their argument list step by step, as the
source does, and are imperative methods. Each is proved equal to the bridge
call on the argument list `ToolCatalog.Arguments`, and the properties of that
list are proved as lemmas.

## Model

| member | source | states |
|---|---|---|
| Text.NatToDecimalRoundTrip | integrations/langchain/langchain_boltzpay/bridge.py:67 | the decimal rendering used in f-strings reads back to the number it renders |
| Text.IntToDecimalRoundTrip | integrations/langchain/langchain_boltzpay/errors.py:32 | negative numbers are rendered with a minus sign and read back as well |
| Text.IntToDecimalInjective | integrations/crewai/boltzpay_crewai/errors.py:28 | distinct integers render to distinct decimals |
| Text.Take | integrations/crewai/boltzpay_crewai/bridge.py:78 | `s[:n]`: the whole string when it has at most `n` characters, otherwise exactly its first `n` |
| Json.Field | integrations/langchain/langchain_boltzpay/bridge.py:71-72 | `dict.get` finds a value exactly when the value is an object holding the key, and then it is that entry |
| Process.ArgsOrEmpty | integrations/langchain/langchain_boltzpay/bridge.py:43 | `args or []`: omitted arguments are the empty list, given ones are kept |
| Process.CommandLine | integrations/langchain/langchain_boltzpay/bridge.py:43 | the command line has length 5+\|args\|: the launcher, `-y`, `@boltzpay/cli` and the command first, then the arguments in order, then `--json` last |
| Process.SplitCommandLineInverts | integrations/crewai/boltzpay_crewai/bridge.py:52 | launcher, command and every argument are recovered from the command line, so it loses nothing |
| Process.AbsentArgsAreEmpty | integrations/crewai/boltzpay_crewai/bridge.py:89 | no arguments and `[]` give the same command line |
| Process.MapOutcome | integrations/langchain/langchain_boltzpay/bridge.py:120-126 | converting the captured output keeps the kind of outcome and the exit status, and converts both streams |
| LangchainErrors.GeneralStoresFields | integrations/langchain/langchain_boltzpay/errors.py:7-9 | the base error gives back the code and message it was built with, and its exception text is that message |
| LangchainErrors.ExceptionText | integrations/langchain/langchain_boltzpay/errors.py:10 | the exception text is the message alone |
| LangchainErrors.TimeoutMessageCarriesTimeout | integrations/langchain/langchain_boltzpay/errors.py:26-33 | a timeout has code `TIMEOUT`, and its message holds the decimal timeout, which reads back to the timeout |
| LangchainErrors.TimeoutMessageInjective | integrations/langchain/langchain_boltzpay/errors.py:32 | different timeouts give different messages |
| LangchainErrors.DefaultTimeoutMessage | integrations/langchain/langchain_boltzpay/errors.py:32 | the default timeout gives exactly `BoltzPay CLI command timed out after 30 seconds`, which contains `30` |
| LangchainErrors.NodeNotFoundGivesRemedy | integrations/langchain/langchain_boltzpay/errors.py:13-23 | code `NODE_NOT_FOUND`; the message names Node.js, `https://nodejs.org` and `npx @boltzpay/mcp` |
| CrewaiErrors.ExceptionText | integrations/crewai/boltzpay_crewai/errors.py:10 | the exception text is the code's text, then `: `, then the message's text, each recoverable by position |
| CrewaiErrors.ExceptionTextOfStrings | integrations/crewai/boltzpay_crewai/errors.py:7-10 | string code and message are stored unchanged, and the text is `code: message` |
| CrewaiErrors.TimeoutMessageCarriesTimeout | integrations/crewai/boltzpay_crewai/errors.py:24-28 | a timeout has code `TIMEOUT`; its message contains the decimal timeout followed by `s`, and reads back to the timeout |
| CrewaiErrors.TimeoutMessageInjective | integrations/crewai/boltzpay_crewai/errors.py:28 | different timeouts give different messages |
| CrewaiErrors.DefaultTimeoutMessage | integrations/crewai/boltzpay_crewai/errors.py:28 | the default timeout gives exactly `CLI command timed out after 30s` |
| CrewaiErrors.NodeNotFoundGivesRemedy | integrations/crewai/boltzpay_crewai/errors.py:13-21 | code `NODE_NOT_FOUND`; the message contains `nodejs.org` and the MCP alternative |
| LangchainBridge.FindNpx | integrations/langchain/langchain_boltzpay/bridge.py:18-23 | the path is returned exactly when `npx` is found; otherwise the error is `NodeNotFound` |
| LangchainBridge.ErrorInfo | integrations/langchain/langchain_boltzpay/bridge.py:72 | the error details of a readable failure envelope are its `error` entry when there is one, and `{}` otherwise |
| LangchainBridge.RunCli | integrations/langchain/langchain_boltzpay/bridge.py:42-78 | every call looks up `npx` first and spawns at most one process, right after the lookup; a finished child's result is the classification of its own exit status, standard output and standard error |
| LangchainBridge.AsyncRunCli | integrations/langchain/langchain_boltzpay/bridge.py:99-140 | the same ordering holds on the asynchronous path; a finished child's result is the classification of its exit status and its decoded output |
| LangchainBridge.MissingNpxSpawnsNothing | integrations/langchain/langchain_boltzpay/bridge.py:18-42 | without `npx` the result is `NODE_NOT_FOUND` and no action is a spawn |
| LangchainBridge.SpawnsTheCommandLine | integrations/langchain/langchain_boltzpay/bridge.py:42-51 | with `npx` found, the trace is the lookup and one spawn of exactly the documented command line |
| LangchainBridge.SpawnFailureAndTimeout | integrations/langchain/langchain_boltzpay/bridge.py:52-55 | a spawn failure raises `NODE_NOT_FOUND`; a timeout raises `TIMEOUT` carrying the caller's timeout |
| LangchainBridge.UnparseableIsCliError | integrations/langchain/langchain_boltzpay/bridge.py:57-68 | unparseable stripped output raises `CLI_ERROR`, with the stripped standard error, or `CLI exited with code N` when that is empty |
| LangchainBridge.ExitMessageNamesExitCode | integrations/langchain/langchain_boltzpay/bridge.py:67 | the fallback message contains `exited with code` and ends with the decimal exit status, which reads back to it |
| LangchainBridge.FailureEnvelopeIsForwarded | integrations/langchain/langchain_boltzpay/bridge.py:71-76 | a literal `success: false` raises `error.code` (default `UNKNOWN`) and `error.message` (default `Unknown CLI error`), whatever the exit status |
| LangchainBridge.OkExactlyWhenNotFailure | integrations/langchain/langchain_boltzpay/bridge.py:60-78 | a value is returned if and only if the output parses to something other than a failure envelope, and the value is the parsed body unchanged |
| LangchainBridge.ParsedIgnoresExitCode | integrations/langchain/langchain_boltzpay/bridge.py:60-78 | once the output parses, the exit status and standard error change nothing |
| LangchainBridge.AsyncAgreesWithSync | integrations/langchain/langchain_boltzpay/bridge.py:99-140 | the asynchronous call returns or raises what the synchronous one does on the decoded output; on a timeout its trace adds the kill and then the wait |
| CrewaiBridge.FindNpx | integrations/crewai/boltzpay_crewai/bridge.py:17-22 | the path is returned exactly when `npx` is found; otherwise the error is `NodeNotFound` |
| CrewaiBridge.EnvelopeError | integrations/crewai/boltzpay_crewai/bridge.py:69-72 | the envelope's pair exists exactly when the body has `error` holding both `code` and `message`, and it is `(error.code, error.message)` in that order |
| CrewaiBridge.RunCli | integrations/crewai/boltzpay_crewai/bridge.py:51-78 | every call looks up `npx` first and spawns at most one process, right after the lookup; a finished child's result is the classification of its own exit status, standard output and standard error |
| CrewaiBridge.AsyncRunCli | integrations/crewai/boltzpay_crewai/bridge.py:88-122 | the same ordering holds on the asynchronous path; a finished child's result is the classification of its exit status and its empty-guarded decoded output |
| CrewaiBridge.TextOf | integrations/crewai/boltzpay_crewai/bridge.py:109-110 | empty bytes give `""` without decoding; other bytes are decoded |
| CrewaiBridge.MissingNpxSpawnsNothing | integrations/crewai/boltzpay_crewai/bridge.py:17-51 | without `npx` the result is `NODE_NOT_FOUND` and nothing is spawned |
| CrewaiBridge.SpawnsTheCommandLine | integrations/crewai/boltzpay_crewai/bridge.py:51-65 | one spawn of exactly the documented command line; a spawn failure raises `NODE_NOT_FOUND`; a timeout raises `TIMEOUT` with the caller's timeout |
| CrewaiBridge.OkExactlyOnCleanExit | integrations/crewai/boltzpay_crewai/bridge.py:67-78 | a value is returned if and only if the exit status is 0 and the output parses; the value is the parsed body, with `success` never inspected |
| CrewaiBridge.NonZeroExitIsError | integrations/crewai/boltzpay_crewai/bridge.py:67-73 | a non-zero exit always raises: the envelope's code and message when both are there, otherwise `CLI_ERROR` with the raw standard error or `Unknown error` |
| CrewaiBridge.CleanExitUnparseableIsParseError | integrations/crewai/boltzpay_crewai/bridge.py:75-78 | a zero exit with unparseable output raises `PARSE_ERROR`; the message is `Invalid JSON output: ` followed by exactly the first 200 characters of the output, or the whole output when it is shorter |
| CrewaiBridge.AsyncAgreesWithSync | integrations/crewai/boltzpay_crewai/bridge.py:88-122 | the asynchronous call classifies empty-guarded decoded output as the synchronous one does; on a timeout it kills and then waits |
| CrewaiBridge.EmptyGuardIsDecode | integrations/crewai/boltzpay_crewai/bridge.py:109-110 | when decoding nothing gives `""`, the `if stdout_bytes else ""` guard changes nothing |
| ToolCatalog.RecoverArguments | integrations/langchain/langchain_boltzpay/tools.py:66-144 | every tool's argument list can be read back positionally into its input, with a falsy optional value read as absent |
| ToolCatalog.ArgumentsInjective | integrations/crewai/boltzpay_crewai/tools.py:85-134 | two inputs of one tool give the same arguments only if they agree up to falsy optional values |
| ToolCatalog.FetchArgumentsShape | integrations/langchain/langchain_boltzpay/tools.py:66-70 | `fetch` passes `[url, "--method", method]`, and appends `["--chain", chain]` if and only if the chain is truthy |
| ToolCatalog.DocumentedArguments | integrations/crewai/boltzpay_crewai/tools.py:85-172 | the concrete lists for fetch (with and without a chain, and with an empty chain), for discover with and without a category, and `[]` for budget, history and wallet |
| ToolCatalog.NamesArePrefixed | integrations/langchain/langchain_boltzpay/tools.py:57-188 | every tool name is `boltzpay_` followed by the command |
| ToolCatalog.NamesAreDistinct | integrations/crewai/boltzpay_crewai/tools.py:77-165 | the seven names are pairwise distinct |
| ToolCatalog.AllToolsNamedDistinctly | integrations/crewai/boltzpay_crewai/tools.py:77-165 | the list of all tools has seven entries, holds every tool, and no two of its names coincide |
| LangchainTools.CliArgs | integrations/langchain/langchain_boltzpay/tools.py:157-201 | budget, history and wallet pass no arguments, and only they do; every tool's arguments are the catalogue's list once `args or []` applies |
| LangchainTools.Serialized | integrations/langchain/langchain_boltzpay/tools.py:70-71 | a returned body is serialised; an error is passed on unchanged |
| LangchainTools.Run | integrations/langchain/langchain_boltzpay/tools.py:66-197 | `_run` builds the list step by step and returns exactly the serialised bridge result for the tool's command and argument list, or the bridge's own error |
| LangchainTools.Arun | integrations/langchain/langchain_boltzpay/tools.py:73-201 | `_arun` does the same on the asynchronous bridge |
| LangchainTools.RunAndArunAgree | integrations/langchain/langchain_boltzpay/tools.py:66-144 | `_arun` returns what `_run` does on the decoded output and spawns the same command line |
| LangchainTools.FailuresPropagate | integrations/langchain/langchain_boltzpay/tools.py:70-71 | a missing launcher and a timeout reach the caller as `NodeNotFound` and `Timeout(30)` |
| CrewaiTools.Run | integrations/crewai/boltzpay_crewai/tools.py:85-172 | `_run` builds the list step by step and returns exactly `_safe_run` of the tool's command and argument list |
| CrewaiTools.ErrorTextSplits | integrations/crewai/boltzpay_crewai/tools.py:65 | an error text `Error (code): message` splits back into the code and the message whenever the code has no `)` |
| CrewaiTools.SafeRunNeverRaises | integrations/crewai/boltzpay_crewai/tools.py:59-65 | `_safe_run` always gives text: the serialised body on success, exactly `Error (code): message` of the error otherwise |
| CrewaiTools.ErrorTextNames | integrations/crewai/boltzpay_crewai/tools.py:65 | an error text contains both the code and the message |
| CrewaiTools.MissingNpxText | integrations/crewai/boltzpay_crewai/tools.py:59-65 | without `npx` the tool returns the missing-launcher text, which contains `NODE_NOT_FOUND` and `nodejs.org` |
| CrewaiTools.TimeoutText | integrations/crewai/boltzpay_crewai/tools.py:59-65 | a timed-out call returns the timeout text, which contains `TIMEOUT` and `30s` |
| PackageComparison.VerdictsDifferExactly | integrations/crewai/boltzpay_crewai/bridge.py:67-78 | the two bridges differ on returning or raising if and only if the output parses and the exit status contradicts the body: a failure envelope with exit 0, or any other body with a non-zero exit |
| PackageComparison.BothOkSameValue | integrations/langchain/langchain_boltzpay/bridge.py:78 | where both bridges return, they return the same body |
| PackageComparison.AgreeOnReportedFailure | integrations/langchain/langchain_boltzpay/bridge.py:71-76 | a complete failure envelope with a non-zero exit raises the same code and message in both |
| PackageComparison.AgreeOnUnparseableFailure | integrations/crewai/boltzpay_crewai/bridge.py:72-73 | unparseable output with a non-zero exit and a clean, non-empty standard error is the same `CLI_ERROR` in both |
| PackageComparison.DisagreeOnUnparseableCleanExit | integrations/crewai/boltzpay_crewai/bridge.py:75-78 | a zero exit with unparseable output is `CLI_ERROR` in LangChain and `PARSE_ERROR` in CrewAI |
| PackageComparison.IncompleteEnvelopeOutcomes | integrations/langchain/langchain_boltzpay/bridge.py:71-76 | a failure envelope with a non-zero exit whose `error` is missing or lacks `code` or `message` gets the defaults for what is missing in LangChain, and `CLI_ERROR` with the standard error or `Unknown error` in CrewAI; without `code` the two always differ |
| PackageComparison.DisagreeOnEmptyStderr | integrations/crewai/boltzpay_crewai/bridge.py:72-73 | unparseable output, a non-zero exit and an empty standard error give `CLI exited with code N` in LangChain and `Unknown error` in CrewAI, which differ |
| PackageComparison.DisagreeOnPaddedStderr | integrations/langchain/langchain_boltzpay/bridge.py:64-68 | when `strip` changes a non-empty standard error, LangChain reports the stripped text and CrewAI the raw one, so the errors differ |
| PackageComparison.OnStripSensitiveOutput | integrations/langchain/langchain_boltzpay/bridge.py:57-76 | for any exit status, output that parses only after stripping is returned by LangChain, or raises the envelope's error when it is a failure envelope; CrewAI gives `PARSE_ERROR` on exit 0 and `CLI_ERROR` otherwise; a body that is not a failure envelope is always treated differently |
| PackageComparison.SameLookupAndSpawn | integrations/crewai/boltzpay_crewai/bridge.py:51-65 | on every host the LangChain model covers, both copies take the same actions: the lookup alone without `npx`, otherwise the lookup and one spawn of the documented command line |
| PackageComparison.SameAsyncActions | integrations/crewai/boltzpay_crewai/bridge.py:88-107 | the asynchronous paths of both copies take the same actions, including kill then wait after a timeout |
| PackageComparison.AgreeOnMissingLauncher | integrations/crewai/boltzpay_crewai/bridge.py:17-22 | a missing launcher or a failed spawn is reported with the same code and message by both copies |
| PackageComparison.TimeoutMessagesDiffer | integrations/crewai/boltzpay_crewai/errors.py:28 | a timeout has the same code in both packages but a different message |
| PackageComparison.SameCommandLineAsLangchain | integrations/crewai/boltzpay_crewai/tools.py:145-172 | CrewAI's explicit `[]` and LangChain's omitted arguments spawn the same command line for every tool |

## Left out

- Spawning, PATH lookup, waiting and the asynchronous scheduler are not modelled. Their results are the given `Host`: `which` and `spawn`. The sync timeout's internal kill inside `subprocess.run` is not in the trace.
- The host's `spawn` does not depend on the timeout. How long a child may run is not modelled, only whether it ran past the timeout.
- `json.loads`, `json.dumps(…, indent=2)`, `str.strip`, `bytes.decode` and `str()` of a non-string JSON value are the uninterpreted functions of `Runtime.Library`. JSON numbers are `real`s; floating point is not modelled. The empty-bytes guard in the CrewAI async path is kept as written; a decoding error of invalid UTF-8 is not modelled.
- LangchainBridge.Classify: a failure envelope whose `error` entry is present but is not an object makes the source fail inside `.get` with an `AttributeError`. The model gives no outcome for it (the `Classifiable`/`CanRun` preconditions exclude it). LangchainTools.Run and LangchainTools.Arun inherit that precondition.
- Most comparison lemmas assume `loads(strip(s)) == loads(s)`. The LangChain bridge strips standard output before parsing and the CrewAI one does not, and `str.strip` removes characters, such as a form feed, that `json.loads` does not skip. `PackageComparison.OnStripSensitiveOutput` states, for every exit status, what each copy does with output that parses only once stripped. Which characters each function accepts is not modelled.
- The framework machinery is not modelled: `BaseTool`, `handle_tool_error`, pydantic validation of the input schemas, the `**kwargs` the tools accept, and the description texts. Inputs are plain values with the schema defaults.
- The `@boltzpay/cli` program itself (payments, budgets, chains) and both `__init__.py` re-export files are not part of this model.
- Exception class identity: the two subclasses of each hierarchy are the `NodeNotFound` and `Timeout` variants of one `BridgeError` datatype, so "one handler catches every bridge failure" holds by construction and has no lemma of its own.

Two facts about the code that a reader of the docstrings might not expect:

- The LangChain bridge returns any parsed body that is not a literal `success: false`. That includes a non-object and an envelope without `success`. A non-object `error` in a failure envelope is a crash, which is a third outcome besides returning and raising.
- The two packages take different decisions on a non-zero exit with a success-shaped body. `PackageComparison.VerdictsDifferExactly` states exactly where they part.
