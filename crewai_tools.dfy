/** The CrewAI tools: every tool goes through `_safe_run`, which returns the
    serialised body or, for any bridge error, the text
    `Error (<code>): <message>`. No bridge error escapes a tool. */
module CrewaiTools {
  import opened Wrappers
  import opened Json
  import opened Runtime
  import opened Process
  import opened ToolCatalog
  import opened CrewaiErrors
  import CB = CrewaiBridge
  import Text

  const ErrorLead := "Error ("
  const ErrorSeparator := "): "

  /** `f"Error ({exc.code}): {exc.message}"`. */
  function ErrorText(lib: Library, e: BridgeError): string {
    ErrorLead + Show(lib, e.Code()) + ErrorSeparator + Show(lib, e.Message())
  }

  /** `_safe_run(command, args)`. */
  function SafeRun(lib: Library, host: Host<string>, command: string, args: Option<seq<string>>): string {
    match CB.RunCli(lib, host, command, args, CB.DefaultTimeout).result
    case Ok(v) => lib.dumps(v)
    case Err(e) => ErrorText(lib, e)
  }

  /** `_run` of the tool the input belongs to. */
  method Run(lib: Library, host: Host<string>, i: Input) returns (out: string)
    ensures out == SafeRun(lib, host, Command(ToolOf(i)), Some(Arguments(i)))
  {
    var command: string;
    var args: seq<string>;
    match i {
      case FetchInput(url, httpMethod, chain) =>
        command := "fetch";
        args := [url, "--method", httpMethod];
        if Truthy(chain) {
          args := args + ["--chain", chain.value];
        }
      case CheckInput(url) =>
        command, args := "check", [url];
      case QuoteInput(url) =>
        command, args := "quote", [url];
      case DiscoverInput(category) =>
        command, args := "discover", [];
        if Truthy(category) {
          args := args + ["--category", category.value];
          assert args == Arguments(i);
        }
      case BudgetInput =>
        command, args := "budget", [];
      case HistoryInput =>
        command, args := "history", [];
      case WalletInput =>
        command, args := "wallet", [];
    }
    assert command == Command(ToolOf(i)) && args == Arguments(i);
    out := SafeRun(lib, host, command, Some(args));
  }

  /** The first index of `c` in `s`, or `|s|` when there is none. */
  function IndexOf(s: string, c: char): (k: nat)
    ensures k <= |s|
    ensures k < |s| ==> s[k] == c
    ensures forall j :: 0 <= j < k ==> s[j] != c
  {
    if s == [] then 0
    else if s[0] == c then 0
    else 1 + IndexOf(s[1..], c)
  }

  /** How a reader splits an error text back into code and message: the code
      runs up to the first `)`. */
  function SplitErrorText(s: string): Option<(string, string)> {
    if |s| >= |ErrorLead| && s[..|ErrorLead|] == ErrorLead then
      var rest := s[|ErrorLead|..];
      var k := IndexOf(rest, ')');
      if k + |ErrorSeparator| <= |rest| && rest[k..k + |ErrorSeparator|] == ErrorSeparator
      then Some((rest[..k], rest[k + |ErrorSeparator|..]))
      else None
    else None
  }

  /** An error text gives back its code and message whenever the code has
      no `)` in it, as every code the bridge itself raises. */
  lemma ErrorTextSplits(lib: Library, e: BridgeError)
    requires ')' !in Show(lib, e.Code())
    ensures SplitErrorText(ErrorText(lib, e)) == Some((Show(lib, e.Code()), Show(lib, e.Message())))
  {
    var code, message := Show(lib, e.Code()), Show(lib, e.Message());
    var s := ErrorText(lib, e);
    assert s[..|ErrorLead|] == ErrorLead;
    var rest := s[|ErrorLead|..];
    assert rest == code + ErrorSeparator + message;
    var k := IndexOf(rest, ')');
    assert rest[|code|] == ')';
    assert k == |code|;
    assert rest[..k] == code;
    assert rest[k..k + |ErrorSeparator|] == ErrorSeparator;
    assert rest[k + |ErrorSeparator|..] == message;
  }

  /** Whatever the outcome, the tool hands back text: the serialised body,
      or exactly `Error (<code>): <message>` of the error raised. */
  lemma SafeRunNeverRaises(lib: Library, host: Host<string>, command: string, args: Option<seq<string>>)
    ensures CB.RunCli(lib, host, command, args, CB.DefaultTimeout).result.Ok? ==>
              SafeRun(lib, host, command, args) == lib.dumps(CB.RunCli(lib, host, command, args, CB.DefaultTimeout).result.value)
    ensures CB.RunCli(lib, host, command, args, CB.DefaultTimeout).result.Err? ==>
              var e := CB.RunCli(lib, host, command, args, CB.DefaultTimeout).result.error;
              && SafeRun(lib, host, command, args) == ErrorText(lib, e)
              && (')' !in Show(lib, e.Code()) ==>
                    SplitErrorText(SafeRun(lib, host, command, args))
                    == Some((Show(lib, e.Code()), Show(lib, e.Message()))))
  {
    var r := CB.RunCli(lib, host, command, args, CB.DefaultTimeout).result;
    if r.Err? && ')' !in Show(lib, r.error.Code()) {
      ErrorTextSplits(lib, r.error);
    }
  }

  /** An error text names both the code and the message. */
  lemma ErrorTextNames(lib: Library, e: BridgeError)
    ensures Text.Contains(ErrorText(lib, e), Show(lib, e.Code()))
    ensures Text.Contains(ErrorText(lib, e), Show(lib, e.Message()))
  {
    var code, message := Show(lib, e.Code()), Show(lib, e.Message());
    Text.ContainsPart(ErrorLead, code, ErrorSeparator + message);
    assert ErrorLead + code + (ErrorSeparator + message) == ErrorText(lib, e);
    Text.ContainsPart(ErrorLead + code + ErrorSeparator, message, "");
    assert ErrorLead + code + ErrorSeparator + message + "" == ErrorText(lib, e);
  }

  /** Without `npx`, every tool answers with the missing-launcher text, which
      names the code and nodejs.org. */
  lemma MissingNpxText(lib: Library, host: Host<string>, command: string, args: Option<seq<string>>)
    requires host.which.None?
    ensures SafeRun(lib, host, command, args) == ErrorText(lib, NodeNotFound)
    ensures Text.Contains(SafeRun(lib, host, command, args), "NODE_NOT_FOUND")
    ensures Text.Contains(SafeRun(lib, host, command, args), "nodejs.org")
  {
    ErrorTextNames(lib, NodeNotFound);
    NodeNotFoundGivesRemedy();
    var s := ErrorText(lib, NodeNotFound);
    var m := NodeNotFoundMessage;
    assert s == ErrorLead + "NODE_NOT_FOUND" + ErrorSeparator + m + "";
    Text.ContainsWithin(ErrorLead + "NODE_NOT_FOUND" + ErrorSeparator, m, "", "nodejs.org");
  }

  /** A timed-out child answers with a text naming `TIMEOUT` and `30s`. */
  lemma TimeoutText(lib: Library, host: Host<string>, command: string, args: Option<seq<string>>)
    requires host.which.Some?
    requires host.spawn(CommandLine(host.which.value, command, args)).TimedOut?
    ensures SafeRun(lib, host, command, args) == ErrorText(lib, Timeout(30))
    ensures Text.Contains(SafeRun(lib, host, command, args), "TIMEOUT")
    ensures Text.Contains(SafeRun(lib, host, command, args), "30s")
  {
    assert CB.RunCli(lib, host, command, args, CB.DefaultTimeout).result == Err(Timeout(30));
    ErrorTextNames(lib, Timeout(30));
    DefaultTimeoutMessage();
    var s := ErrorText(lib, Timeout(30));
    var m := TimeoutMessage(30);
    assert s == ErrorLead + "TIMEOUT" + ErrorSeparator + m + "";
    Text.ContainsWithin(ErrorLead + "TIMEOUT" + ErrorSeparator, m, "", "30s");
  }
}
