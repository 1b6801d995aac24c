/** The seven tools both packages expose, their inputs, and how an input maps
    to CLI arguments. Both packages map inputs the same way; optional flags
    are appended only when their value is truthy (present and non-empty). */
module ToolCatalog {
  import opened Wrappers

  datatype Tool = Fetch | Check | Quote | Discover | Budget | History | Wallet

  const AllTools := [Fetch, Check, Quote, Discover, Budget, History, Wallet]

  /** The tool's `name` attribute. */
  function Name(t: Tool): string {
    match t
    case Fetch => "boltzpay_fetch"
    case Check => "boltzpay_check"
    case Quote => "boltzpay_quote"
    case Discover => "boltzpay_discover"
    case Budget => "boltzpay_budget"
    case History => "boltzpay_history"
    case Wallet => "boltzpay_wallet"
  }

  /** The CLI sub-command the tool runs. */
  function Command(t: Tool): string {
    match t
    case Fetch => "fetch"
    case Check => "check"
    case Quote => "quote"
    case Discover => "discover"
    case Budget => "budget"
    case History => "history"
    case Wallet => "wallet"
  }

  /** The validated input of one tool call, with the schema defaults. */
  datatype Input =
    | FetchInput(url: string, httpMethod: string := "GET", chain: Option<string> := None)
    | CheckInput(url: string)
    | QuoteInput(url: string)
    | DiscoverInput(category: Option<string> := None)
    | BudgetInput
    | HistoryInput
    | WalletInput

  function ToolOf(i: Input): Tool {
    match i
    case FetchInput(_, _, _) => Fetch
    case CheckInput(_) => Check
    case QuoteInput(_) => Quote
    case DiscoverInput(_) => Discover
    case BudgetInput => Budget
    case HistoryInput => History
    case WalletInput => Wallet
  }

  /** Python truthiness of an `Optional[str]`: present and non-empty. */
  predicate Truthy(o: Option<string>) {
    o.Some? && o.value != ""
  }

  /** The argument list each tool hands to the bridge. */
  function Arguments(i: Input): seq<string> {
    match i
    case FetchInput(url, httpMethod, chain) =>
      [url, "--method", httpMethod] + (if Truthy(chain) then ["--chain", chain.value] else [])
    case CheckInput(url) => [url]
    case QuoteInput(url) => [url]
    case DiscoverInput(category) =>
      if Truthy(category) then ["--category", category.value] else []
    case BudgetInput => []
    case HistoryInput => []
    case WalletInput => []
  }

  /** The input with a falsy optional value replaced by `None`: the two are
      indistinguishable on the command line. */
  function Normalized(i: Input): Input {
    match i
    case FetchInput(url, httpMethod, chain) => FetchInput(url, httpMethod, if Truthy(chain) then chain else None)
    case DiscoverInput(category) => DiscoverInput(if Truthy(category) then category else None)
    case _ => i
  }

  /** How the CLI reads a tool's arguments back, positionally. */
  function Recover(t: Tool, args: seq<string>): Option<Input> {
    match t
    case Fetch =>
      if |args| == 3 && args[1] == "--method" then Some(FetchInput(args[0], args[2], None))
      else if |args| == 5 && args[1] == "--method" && args[3] == "--chain" && args[4] != ""
      then Some(FetchInput(args[0], args[2], Some(args[4])))
      else None
    case Check => if |args| == 1 then Some(CheckInput(args[0])) else None
    case Quote => if |args| == 1 then Some(QuoteInput(args[0])) else None
    case Discover =>
      if args == [] then Some(DiscoverInput(None))
      else if |args| == 2 && args[0] == "--category" && args[1] != "" then Some(DiscoverInput(Some(args[1])))
      else None
    case Budget => if args == [] then Some(BudgetInput) else None
    case History => if args == [] then Some(HistoryInput) else None
    case Wallet => if args == [] then Some(WalletInput) else None
  }

  /** The argument list loses nothing but the difference between a falsy
      optional value and an absent one: the input is read back from it. */
  lemma RecoverArguments(i: Input)
    ensures Recover(ToolOf(i), Arguments(i)) == Some(Normalized(i))
  {
  }

  /** Hence the mapping is order-preserving and injective up to
      normalisation. */
  lemma ArgumentsInjective(i: Input, j: Input)
    requires ToolOf(i) == ToolOf(j) && Arguments(i) == Arguments(j)
    ensures Normalized(i) == Normalized(j)
  {
    RecoverArguments(i);
    RecoverArguments(j);
  }

  /** `fetch` passes the URL, then `--method` and the method, then
      `--chain` and the chain exactly when the chain is truthy. */
  lemma FetchArgumentsShape(url: string, httpMethod: string, chain: Option<string>)
    ensures var a := Arguments(FetchInput(url, httpMethod, chain));
            && a[..3] == [url, "--method", httpMethod]
            && (|a| == 5 <==> Truthy(chain))
            && (|a| == 3 <==> !Truthy(chain))
            && (Truthy(chain) ==> a[3..] == ["--chain", chain.value])
  {
  }

  /** The argument lists the tests pin. */
  lemma DocumentedArguments()
    ensures Arguments(FetchInput("https://example.com/api")) == ["https://example.com/api", "--method", "GET"]
    ensures Arguments(FetchInput("https://example.com/api", chain := Some("svm")))
            == ["https://example.com/api", "--method", "GET", "--chain", "svm"]
    ensures Arguments(FetchInput("https://example.com/api", chain := Some(""))) == ["https://example.com/api", "--method", "GET"]
    ensures Arguments(DiscoverInput()) == []
    ensures Arguments(DiscoverInput(Some("crypto-data"))) == ["--category", "crypto-data"]
    ensures Arguments(BudgetInput) == Arguments(HistoryInput) == Arguments(WalletInput) == []
  {
  }

  /** Every name is `boltzpay_` followed by the tool's command. */
  lemma NamesArePrefixed(t: Tool)
    ensures Name(t) == "boltzpay_" + Command(t)
    ensures Name(t)[..9] == "boltzpay_"
  {
  }

  /** `AllTools` lists every tool once, and their seven names are pairwise
      distinct. */
  lemma AllToolsNamedDistinctly()
    ensures |AllTools| == 7
    ensures forall t: Tool :: t in AllTools
    ensures forall i, j :: 0 <= i < j < |AllTools| ==> Name(AllTools[i]) != Name(AllTools[j])
  {
    forall t: Tool ensures t in AllTools {
      match t
      case Fetch => assert AllTools[0] == t;
      case Check => assert AllTools[1] == t;
      case Quote => assert AllTools[2] == t;
      case Discover => assert AllTools[3] == t;
      case Budget => assert AllTools[4] == t;
      case History => assert AllTools[5] == t;
      case Wallet => assert AllTools[6] == t;
    }
  }

  /** The seven names are pairwise distinct. */
  lemma NamesAreDistinct(t: Tool, u: Tool)
    requires t != u
    ensures Name(t) != Name(u)
  {
  }
}
