/** The LangChain package's error hierarchy: a base error carrying a code and
    a message, and two fixed kinds. Every variant is a bridge error, so one
    handler for `BridgeError` catches all of them. */
module LangchainErrors {
  import opened Json
  import opened Runtime
  import Text

  const NodeJsUrl := "https://nodejs.org"
  const McpCommand := "npx @boltzpay/mcp"
  const NodeJs := "Node.js"
  const NodeNotFoundLead := NodeJs + "/npx not found. Install " + NodeJs + " 20+ from "
  const McpHint := " or use the MCP server: " + McpCommand
  const NodeNotFoundMessage := NodeNotFoundLead + NodeJsUrl + McpHint

  const TimeoutPrefix := "BoltzPay CLI command timed out after "
  const TimeoutSuffix := " seconds"

  /** `General(code, message)` is the base class raised directly; `code` and
      `message` are whatever values the raiser passed, which for a forwarded
      CLI envelope can be any JSON value. */
  datatype BridgeError =
    | General(code: Json, message: Json)
    | NodeNotFound
    | Timeout(timeout: int)
  {
    function Code(): Json {
      match this
      case General(c, _) => c
      case NodeNotFound => JString("NODE_NOT_FOUND")
      case Timeout(_) => JString("TIMEOUT")
    }

    function Message(): Json {
      match this
      case General(_, m) => m
      case NodeNotFound => JString(NodeNotFoundMessage)
      case Timeout(t) => JString(TimeoutMessage(t))
    }
  }

  function TimeoutMessage(t: int): string {
    TimeoutPrefix + Text.IntToDecimal(t) + TimeoutSuffix
  }

  /** `str(exc)`: the exception is initialised with the message alone. */
  function ExceptionText(lib: Library, e: BridgeError): (s: string)
    ensures s == Show(lib, e.Message())
    ensures e.Message().JString? ==> s == e.Message().s
  {
    Show(lib, e.Message())
  }

  /** The base error keeps what it was given, and its text is the message. */
  lemma GeneralStoresFields(lib: Library, code: Json, message: Json)
    ensures General(code, message).Code() == code
    ensures General(code, message).Message() == message
    ensures ExceptionText(lib, General(code, message)) == Show(lib, message)
  {
  }

  /** Reads the timeout back from a timeout message. */
  function TimeoutFromMessage(m: string): Wrappers.Option<int> {
    if |m| >= |TimeoutPrefix| + |TimeoutSuffix|
       && m[..|TimeoutPrefix|] == TimeoutPrefix
       && m[|m| - |TimeoutSuffix|..] == TimeoutSuffix
    then Text.DecimalToInt(m[|TimeoutPrefix|..|m| - |TimeoutSuffix|])
    else Wrappers.None
  }

  /** The timeout message carries its timeout recoverably: reading the
      number back out of it gives `t`. */
  lemma TimeoutMessageCarriesTimeout(t: int)
    ensures Timeout(t).Code() == JString("TIMEOUT")
    ensures TimeoutFromMessage(TimeoutMessage(t)) == Wrappers.Some(t)
    ensures Text.Contains(TimeoutMessage(t), Text.IntToDecimal(t))
  {
    var d := Text.IntToDecimal(t);
    var m := TimeoutMessage(t);
    assert m[..|TimeoutPrefix|] == TimeoutPrefix;
    assert m[|m| - |TimeoutSuffix|..] == TimeoutSuffix;
    assert m[|TimeoutPrefix|..|m| - |TimeoutSuffix|] == d;
    Text.IntToDecimalRoundTrip(t);
    Text.ContainsPart(TimeoutPrefix, d, TimeoutSuffix);
  }

  /** Two timeouts with the same message had the same timeout. */
  lemma TimeoutMessageInjective(s: int, t: int)
    requires Timeout(s).Message() == Timeout(t).Message()
    ensures s == t
  {
    TimeoutMessageCarriesTimeout(s);
    TimeoutMessageCarriesTimeout(t);
  }

  /** The 30-second default gives the message the tests look for. */
  lemma DefaultTimeoutMessage()
    ensures TimeoutMessage(30) == "BoltzPay CLI command timed out after 30 seconds"
    ensures Text.Contains(TimeoutMessage(30), "30")
  {
    assert Text.IntToDecimal(30) == "30";
    TimeoutMessageCarriesTimeout(30);
  }

  /** The missing-launcher error names Node.js, where to get it, and the MCP
      server as the alternative. */
  lemma NodeNotFoundGivesRemedy()
    ensures NodeNotFound.Code() == JString("NODE_NOT_FOUND")
    ensures Text.Contains(NodeNotFoundMessage, NodeJs)
    ensures Text.Contains(NodeNotFoundMessage, NodeJsUrl)
    ensures Text.Contains(NodeNotFoundMessage, McpCommand)
  {
    var rest := "/npx not found. Install " + NodeJs + " 20+ from " + NodeJsUrl + McpHint;
    assert NodeNotFoundMessage == "" + NodeJs + rest;
    Text.ContainsPart("", NodeJs, rest);
    Text.ContainsPart(NodeNotFoundLead, NodeJsUrl, McpHint);
    assert NodeNotFoundMessage == NodeNotFoundLead + NodeJsUrl + " or use the MCP server: " + McpCommand + "";
    Text.ContainsPart(NodeNotFoundLead + NodeJsUrl + " or use the MCP server: ", McpCommand, "");
  }

}
