/** The LangChain tools: each builds its argument list, calls the bridge with
    the default timeout, and returns `json.dumps(result, indent=2)`. Bridge
    errors are not caught; they propagate to the framework. */
module LangchainTools {
  import opened Wrappers
  import opened Json
  import opened Runtime
  import opened Process
  import opened ToolCatalog
  import opened LangchainErrors
  import LB = LangchainBridge

  /** The arguments each tool passes: `budget`, `history` and `wallet` call
      `run_cli(command)` without any. */
  function CliArgs(i: Input): (r: Option<seq<string>>)
    ensures ArgsOrEmpty(r) == Arguments(i)
    ensures r.None? <==> ToolOf(i) in {Budget, History, Wallet}
  {
    match i
    case BudgetInput => None
    case HistoryInput => None
    case WalletInput => None
    case _ => Some(Arguments(i))
  }

  /** What the tool hands back: the serialised body, or the very error the
      bridge raised. */
  function Serialized(lib: Library, r: Result<Json, BridgeError>): (out: Result<string, BridgeError>)
    ensures r.Ok? <==> out.Ok?
    ensures r.Ok? ==> out.value == lib.dumps(r.value)
    ensures r.Err? ==> out.error == r.error
  {
    match r
    case Ok(v) => Ok(lib.dumps(v))
    case Err(e) => Err(e)
  }

  /** `_run` of the tool the input belongs to. */
  method Run(lib: Library, host: Host<string>, i: Input) returns (out: Result<string, BridgeError>)
    requires LB.CanRun(lib, host, Command(ToolOf(i)), CliArgs(i))
    ensures out == Serialized(lib, LB.RunCli(lib, host, Command(ToolOf(i)), CliArgs(i), LB.DefaultTimeout).result)
  {
    var cliArgs: Option<seq<string>>;
    match i {
      case FetchInput(url, httpMethod, chain) =>
        var a := [url, "--method", httpMethod];
        if Truthy(chain) {
          a := a + ["--chain", chain.value];
        }
        assert a == Arguments(i);
        cliArgs := Some(a);
      case CheckInput(url) =>
        cliArgs := Some([url]);
      case QuoteInput(url) =>
        cliArgs := Some([url]);
      case DiscoverInput(category) =>
        var a: seq<string> := [];
        if Truthy(category) {
          a := a + ["--category", category.value];
          assert a == Arguments(i);
        }
        cliArgs := Some(a);
      case BudgetInput =>
        cliArgs := None;
      case HistoryInput =>
        cliArgs := None;
      case WalletInput =>
        cliArgs := None;
    }
    assert cliArgs == CliArgs(i);
    var r := LB.RunCli(lib, host, Command(ToolOf(i)), cliArgs, LB.DefaultTimeout);
    out := Serialized(lib, r.result);
  }

  /** `_arun` of the tool the input belongs to. */
  method Arun(lib: Library, host: Host<Bytes>, i: Input) returns (out: Result<string, BridgeError>)
    requires LB.CanRun(lib, LB.Decoded(lib, host), Command(ToolOf(i)), CliArgs(i))
    ensures out == Serialized(lib, LB.AsyncRunCli(lib, host, Command(ToolOf(i)), CliArgs(i), LB.DefaultTimeout).result)
  {
    var cliArgs: Option<seq<string>>;
    match i {
      case FetchInput(url, httpMethod, chain) =>
        var a := [url, "--method", httpMethod];
        if Truthy(chain) {
          a := a + ["--chain", chain.value];
        }
        assert a == Arguments(i);
        cliArgs := Some(a);
      case CheckInput(url) =>
        cliArgs := Some([url]);
      case QuoteInput(url) =>
        cliArgs := Some([url]);
      case DiscoverInput(category) =>
        var a: seq<string> := [];
        if Truthy(category) {
          a := a + ["--category", category.value];
          assert a == Arguments(i);
        }
        cliArgs := Some(a);
      case BudgetInput =>
        cliArgs := None;
      case HistoryInput =>
        cliArgs := None;
      case WalletInput =>
        cliArgs := None;
    }
    assert cliArgs == CliArgs(i);
    var r := LB.AsyncRunCli(lib, host, Command(ToolOf(i)), cliArgs, LB.DefaultTimeout);
    out := Serialized(lib, r.result);
  }

  /** `_run` and `_arun` spawn the same command line, and hand back the same
      thing when the asynchronous child's decoded output is the synchronous
      one's. */
  lemma RunAndArunAgree(lib: Library, host: Host<Bytes>, i: Input)
    requires LB.CanRun(lib, LB.Decoded(lib, host), Command(ToolOf(i)), CliArgs(i))
    ensures Serialized(lib, LB.AsyncRunCli(lib, host, Command(ToolOf(i)), CliArgs(i), LB.DefaultTimeout).result)
            == Serialized(lib, LB.RunCli(lib, LB.Decoded(lib, host), Command(ToolOf(i)), CliArgs(i), LB.DefaultTimeout).result)
    ensures host.which.Some? ==>
              Spawn(CommandLine(host.which.value, Command(ToolOf(i)), Some(Arguments(i))))
              in LB.AsyncRunCli(lib, host, Command(ToolOf(i)), CliArgs(i), LB.DefaultTimeout).trace
  {
    LB.AsyncAgreesWithSync(lib, host, Command(ToolOf(i)), CliArgs(i), LB.DefaultTimeout);
    if host.which.Some? {
      assert CommandLine(host.which.value, Command(ToolOf(i)), CliArgs(i))
             == CommandLine(host.which.value, Command(ToolOf(i)), Some(Arguments(i)));
    }
  }

  /** A missing launcher reaches the framework as `NODE_NOT_FOUND`; a timeout
      as `TIMEOUT` after the default 30 seconds. */
  lemma FailuresPropagate(lib: Library, host: Host<string>, i: Input)
    requires LB.CanRun(lib, host, Command(ToolOf(i)), CliArgs(i))
    ensures host.which.None? ==>
              Serialized(lib, LB.RunCli(lib, host, Command(ToolOf(i)), CliArgs(i), LB.DefaultTimeout).result)
              == Err(NodeNotFound)
    ensures host.which.Some? && host.spawn(CommandLine(host.which.value, Command(ToolOf(i)), CliArgs(i))).TimedOut? ==>
              Serialized(lib, LB.RunCli(lib, host, Command(ToolOf(i)), CliArgs(i), LB.DefaultTimeout).result)
              == Err(Timeout(30))
  {
  }
}
