/** The CrewAI package's independent copy of the error hierarchy. It differs
    from the LangChain one in the timeout message and in the exception text,
    which puts the code before the message. */
module CrewaiErrors {
  import opened Json
  import opened Runtime
  import Text

  const NodeJsUrl := "https://nodejs.org"
  const McpCommand := "npx @boltzpay/mcp"
  const NodeJs := "Node.js"
  const NodeNotFoundLead := NodeJs + "/npx not found. Install " + NodeJs + " 20+ from "
  const McpHint := " or use the MCP server: " + McpCommand
  const NodeNotFoundMessage := NodeNotFoundLead + NodeJsUrl + McpHint

  const TimeoutPrefix := "CLI command timed out after "
  const TimeoutSuffix := "s"

  datatype BridgeError =
    | General(code: Json, message: Json)
    | NodeNotFound
    | Timeout(timeout: int)
  {
    function Code(): Json {
      match this
      case General(c, _) => c
      case NodeNotFound => JString("NODE_NOT_FOUND")
      case Timeout(_) => JString("TIMEOUT")
    }

    function Message(): Json {
      match this
      case General(_, m) => m
      case NodeNotFound => JString(NodeNotFoundMessage)
      case Timeout(t) => JString(TimeoutMessage(t))
    }
  }

  function TimeoutMessage(t: int): string {
    TimeoutPrefix + Text.IntToDecimal(t) + TimeoutSuffix
  }

  /** `str(exc)`, i.e. `f"{code}: {message}"`: the code's text, a colon and a
      space, then the message's text. */
  function ExceptionText(lib: Library, e: BridgeError): (s: string)
    ensures |s| == |Show(lib, e.Code())| + 2 + |Show(lib, e.Message())|
    ensures s[..|Show(lib, e.Code())|] == Show(lib, e.Code())
    ensures s[|Show(lib, e.Code())|..|Show(lib, e.Code())| + 2] == ": "
    ensures s[|Show(lib, e.Code())| + 2..] == Show(lib, e.Message())
  {
    Show(lib, e.Code()) + ": " + Show(lib, e.Message())
  }

  /** Reads the timeout back from a timeout message. */
  function TimeoutFromMessage(m: string): Wrappers.Option<int> {
    if |m| >= |TimeoutPrefix| + |TimeoutSuffix|
       && m[..|TimeoutPrefix|] == TimeoutPrefix
       && m[|m| - |TimeoutSuffix|..] == TimeoutSuffix
    then Text.DecimalToInt(m[|TimeoutPrefix|..|m| - |TimeoutSuffix|])
    else Wrappers.None
  }

  /** The timeout message carries its timeout recoverably, and the decimal
      timeout followed by `s` occurs in it. */
  lemma TimeoutMessageCarriesTimeout(t: int)
    ensures Timeout(t).Code() == JString("TIMEOUT")
    ensures TimeoutFromMessage(TimeoutMessage(t)) == Wrappers.Some(t)
    ensures Text.Contains(TimeoutMessage(t), Text.IntToDecimal(t) + "s")
  {
    var d := Text.IntToDecimal(t);
    var m := TimeoutMessage(t);
    assert m[..|TimeoutPrefix|] == TimeoutPrefix;
    assert m[|m| - |TimeoutSuffix|..] == TimeoutSuffix;
    assert m[|TimeoutPrefix|..|m| - |TimeoutSuffix|] == d;
    Text.IntToDecimalRoundTrip(t);
    assert m == TimeoutPrefix + (d + "s") + "";
    Text.ContainsPart(TimeoutPrefix, d + "s", "");
  }

  /** Two timeouts with the same message had the same timeout. */
  lemma TimeoutMessageInjective(s: int, t: int)
    requires Timeout(s).Message() == Timeout(t).Message()
    ensures s == t
  {
    TimeoutMessageCarriesTimeout(s);
    TimeoutMessageCarriesTimeout(t);
  }

  /** The 30-second default gives the message the tests look for. */
  lemma DefaultTimeoutMessage()
    ensures TimeoutMessage(30) == "CLI command timed out after 30s"
    ensures Text.Contains(TimeoutMessage(30), "30s")
  {
    assert Text.IntToDecimal(30) == "30";
    assert Text.IntToDecimal(30) + "s" == "30s";
    TimeoutMessageCarriesTimeout(30);
  }

  /** The missing-launcher error points to nodejs.org. */
  lemma NodeNotFoundGivesRemedy()
    ensures NodeNotFound.Code() == JString("NODE_NOT_FOUND")
    ensures Text.Contains(NodeNotFoundMessage, "nodejs.org")
    ensures Text.Contains(NodeNotFoundMessage, McpCommand)
  {
    assert NodeJsUrl == "https://" + "nodejs.org";
    assert NodeNotFoundMessage == NodeNotFoundLead + "https://" + "nodejs.org" + McpHint;
    Text.ContainsPart(NodeNotFoundLead + "https://", "nodejs.org", McpHint);
    assert NodeNotFoundMessage == NodeNotFoundLead + NodeJsUrl + " or use the MCP server: " + McpCommand + "";
    Text.ContainsPart(NodeNotFoundLead + NodeJsUrl + " or use the MCP server: ", McpCommand, "");
  }


  /** The exception text of a base error with string fields, as the tests
      pin it: `"TEST_CODE: test message"`. */
  lemma ExceptionTextOfStrings(lib: Library, code: string, message: string)
    ensures General(JString(code), JString(message)).Code() == JString(code)
    ensures General(JString(code), JString(message)).Message() == JString(message)
    ensures ExceptionText(lib, General(JString(code), JString(message))) == code + ": " + message
  {
  }
}
