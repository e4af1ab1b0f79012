/**
 * The `get-bank-accounts` tool of the MCP server (src/index.ts): it asks the
 * service for the list of bank accounts and turns the answer, or the error it
 * throws, into a content envelope of one or two text segments. It never lets
 * a failure escape.
 */
module Tools {
  import opened Wrappers
  import opened Decimal
  import opened Json
  import opened OrganizzeService
  import Text

  /** One `{ type, text }` element of an envelope's `content`. */
  datatype Content = Content(kind: string, text: string)

  function TextContent(text: string): Content {
    Content("text", text)
  }

  const NoneFoundText: string := "No bank accounts found"
  const FoundText: string := "Bank accounts found"
  const FailurePrefix: string := "Failed to query events: "
  const UnknownText: string := "An unknown error occurred"

  /** JavaScript's `!v` on a decoded JSON value: arrays and objects are always truthy. */
  predicate Falsy(v: Json)
    ensures Falsy(v) ==> !v.Arr? && !v.Obj?
    ensures v.Null? ==> Falsy(v)
    ensures v.Bool? ==> (Falsy(v) <==> !v.b)
    ensures v.Str? ==> (Falsy(v) <==> v.s == "")
    ensures v.Num? ==> (Falsy(v) <==> v.n == 0)
  {
    v == Null || v == Bool(false) || v == Num(0) || v == Str("")
  }

  /**
   * `v.length === 0`: an empty array or string, or an object whose own
   * `length` field is the number 0; any other value has no numeric length.
   */
  predicate LengthIsZero(v: Json)
    ensures LengthIsZero(v) ==> v.Arr? || v.Str? || v.Obj?
  {
    match v
    case Arr(items) => |items| == 0
    case Str(s) => |s| == 0
    case Obj(fields) => "length" in fields && fields["length"] == Num(0)
    case _ => false
  }

  /**
   * The handler's test `!response || response.length === 0`, kind by kind:
   * an array or an object counts as empty only through its length.
   */
  predicate NothingFound(v: Json)
    ensures v.Arr? ==> (NothingFound(v) <==> v.items == [])
    ensures v.Obj? ==> (NothingFound(v) <==> "length" in v.fields && v.fields["length"] == Num(0))
    ensures v.Str? ==> (NothingFound(v) <==> v.s == "")
    ensures v.Num? ==> (NothingFound(v) <==> v.n == 0)
    ensures v.Null? ==> NothingFound(v)
    ensures v.Bool? ==> (NothingFound(v) <==> !v.b)
  {
    Falsy(v) || LengthIsZero(v)
  }

  /**
   * The handler once the service call has returned or thrown; `stringify`
   * stands for `JSON.stringify(response, null, 2)`.
   */
  function HandleBankAccounts(result: ServiceResult, stringify: Json -> string): (content: seq<Content>)
    ensures 1 <= |content| <= 2
    ensures forall i :: 0 <= i < |content| ==> content[i].kind == "text"
    ensures |content| == 2 <==> result.Returned? && !NothingFound(result.value)
    ensures |content| == 2 ==> content[0].text == FoundText && content[1].text == stringify(result.value)
  {
    match result
    case Returned(response) =>
      if NothingFound(response) then [TextContent(NoneFoundText)]
      else [TextContent(FoundText), TextContent(stringify(response))]
    case Rejected(Error(message)) => [TextContent(FailurePrefix + message)]
    case Rejected(NonError) => [TextContent(UnknownText)]
  }

  /**
   * The tool: `getBankAccounts()` is called with no id, then the handler runs.
   * Through the service every failure arrives as an `Error`, so the envelope
   * always reads as one of the shapes and never as "An unknown error occurred".
   */
  function GetBankAccounts(c: Credentials, fetch: (string, string) -> Outcome, stringify: Json -> string): (content: seq<Content>)
    ensures ReadEnvelope(content).Some? && ReadEnvelope(content).value != Unknown
  {
    var result := Get(BankAccounts(0), c, fetch);
    ReadEnvelopeOfHandle(result, stringify);
    HandleBankAccounts(result, stringify)
  }

  // ---------------------------------------------------------------------------
  // The four envelope shapes

  datatype Shape = NoneFound | Found(payload: string) | Failed(message: string) | Unknown

  /** Which shape the handler owes a service result: exactly one of four. */
  function ShapeOf(result: ServiceResult, stringify: Json -> string): Shape {
    match result
    case Returned(v) => if NothingFound(v) then NoneFound else Found(stringify(v))
    case Rejected(t) => if t.Error? then Failed(t.message) else Unknown
  }

  /** How a host can tell the shapes apart from the texts alone. */
  function ReadEnvelope(content: seq<Content>): Option<Shape> {
    if |content| == 2 && content[0] == TextContent(FoundText) && content[1].kind == "text" then
      Some(Found(content[1].text))
    else if |content| != 1 || content[0].kind != "text" then None
    else if content[0].text == NoneFoundText then Some(NoneFound)
    else if content[0].text == UnknownText then Some(Unknown)
    else if FailurePrefix <= content[0].text then Some(Failed(content[0].text[|FailurePrefix|..]))
    else None
  }

  /**
   * The envelope determines which of the four shapes was produced, and with
   * it the payload or the error message.
   */
  lemma ReadEnvelopeOfHandle(result: ServiceResult, stringify: Json -> string)
    ensures ReadEnvelope(HandleBankAccounts(result, stringify)) == Some(ShapeOf(result, stringify))
  {
    match result
    case Returned(v) =>
    case Rejected(Error(message)) =>
      var text := FailurePrefix + message;
      assert text[0] == 'F';
      assert text[|FailurePrefix|..] == message;
    case Rejected(NonError) =>
  }

  /** Two results with the same shape give the same envelope, and only they do. */
  lemma HandleDistinguishesShapes(r1: ServiceResult, r2: ServiceResult, stringify: Json -> string)
    ensures HandleBankAccounts(r1, stringify) == HandleBankAccounts(r2, stringify) <==>
      ShapeOf(r1, stringify) == ShapeOf(r2, stringify)
  {
    ReadEnvelopeOfHandle(r1, stringify);
    ReadEnvelopeOfHandle(r2, stringify);
    if ShapeOf(r1, stringify) == ShapeOf(r2, stringify) {
      match ShapeOf(r1, stringify)
      case Failed(m) =>
        assert r1.thrown == Error(m) && r2.thrown == Error(m);
      case _ =>
    }
  }

  // ---------------------------------------------------------------------------
  // The tool composed with the service
  //
  // Expected messages are written as the literals they are assembled from
  // (the tool's prefix, the operation's prefix, the cause), so that each
  // proof only has to regroup a concatenation, never to split a long literal.

  /** The tool always requests the list path `/accounts`, whatever else `fetch` would answer. */
  lemma GetBankAccountsRequestsList(c: Credentials, fetch1: (string, string) -> Outcome,
                                    fetch2: (string, string) -> Outcome, stringify: Json -> string)
    requires IsLatin1(c.username) && IsLatin1(c.apiKey)
    requires fetch1(BaseUrl + "/accounts", BuildHeaders(c)) == fetch2(BaseUrl + "/accounts", BuildHeaders(c))
    ensures GetBankAccounts(c, fetch1, stringify) == GetBankAccounts(c, fetch2, stringify)
  {
    assert Url(BaseUrl, BankAccounts(0)) == BaseUrl + "/accounts";
  }

  /** A non-ok status N reaches the host as one segment carrying both labels and N. */
  lemma GetBankAccountsHttpFailure(c: Credentials, fetch: (string, string) -> Outcome,
                                   stringify: Json -> string, status: int, body: Body)
    requires IsLatin1(c.username) && IsLatin1(c.apiKey)
    requires fetch(BaseUrl + "/accounts", BuildHeaders(c)) == Responded(status, body)
    requires !HttpOk(status)
    ensures GetBankAccounts(c, fetch, stringify) ==
      [TextContent("Failed to query events: " + "Failed to get bank accounts: " + "HTTP error! status: " + IntToString(status))]
  {
    assert Url(BaseUrl, BankAccounts(0)) == BaseUrl + "/accounts";
    GetHttpFailure(BankAccounts(0), c, fetch, status, body);
    FailureText(IntToString(status));
  }

  /** Proof step for the lemma above: regrouping the two labels in front of the status text. */
  lemma FailureText(n: string)
    ensures FailurePrefix + ("Failed to get " + "bank accounts" + ": HTTP error! status: " + n) ==
      "Failed to query events: " + "Failed to get bank accounts: " + "HTTP error! status: " + n
  {
    var head := "Failed to get " + "bank accounts" + ": HTTP error! status: ";
    var labels := "Failed to query events: " + "Failed to get bank accounts: ";
    assert head == "Failed to get bank accounts: " + "HTTP error! status: ";
    assert FailurePrefix + head == labels + "HTTP error! status: ";
    Text.Assoc(FailurePrefix, head, n);
  }

  /**
   * A fetch that fails before any response is reported as a failure, never
   * as "nothing found": the tool keeps a network error and an empty answer apart.
   */
  lemma GetBankAccountsNetworkFailure(c: Credentials, fetch: (string, string) -> Outcome,
                                      stringify: Json -> string, t: Thrown)
    requires IsLatin1(c.username) && IsLatin1(c.apiKey)
    requires fetch(BaseUrl + "/accounts", BuildHeaders(c)) == Raised(t)
    ensures GetBankAccounts(c, fetch, stringify) ==
      if t.Error? then [TextContent("Failed to query events: " + "Failed to get bank accounts: " + t.message)]
      else [TextContent("Failed to query events: " + "Unknown error occurred")]
  {
    assert Url(BaseUrl, BankAccounts(0)) == BaseUrl + "/accounts";
    GetRaised(BankAccounts(0), c, fetch, t);
    if t.Error? {
      CauseText(t.message);
    }
  }

  /** Proof step for the lemma above: regrouping the two labels in front of the cause. */
  lemma CauseText(m: string)
    ensures FailurePrefix + ("Failed to get " + "bank accounts" + ": " + m) ==
      "Failed to query events: " + "Failed to get bank accounts: " + m
  {
    var head := "Failed to get " + "bank accounts" + ": ";
    assert head == "Failed to get bank accounts: ";
    Text.Assoc(FailurePrefix, head, m);
  }

  /** Credentials `btoa` rejects are reported like any other failure, before any request. */
  lemma GetBankAccountsInvalidCredentials(c: Credentials, fetch: (string, string) -> Outcome, stringify: Json -> string)
    requires !(IsLatin1(c.username) && IsLatin1(c.apiKey))
    ensures GetBankAccounts(c, fetch, stringify) ==
      [TextContent("Failed to query events: " + "Failed to get bank accounts: " + "Invalid character")]
  {
    var head := "Failed to get " + "bank accounts" + ": ";
    assert head == "Failed to get bank accounts: ";
    assert FailurePrefix + (head + InvalidCharacterMessage) == (FailurePrefix + head) + InvalidCharacterMessage;
  }

  /** Example: a 404 answer. */
  lemma GetBankAccountsNotFound(c: Credentials, fetch: (string, string) -> Outcome, stringify: Json -> string, body: Body)
    requires IsLatin1(c.username) && IsLatin1(c.apiKey)
    requires fetch(BaseUrl + "/accounts", BuildHeaders(c)) == Responded(404, body)
    ensures GetBankAccounts(c, fetch, stringify) ==
      [TextContent("Failed to query events: " + "Failed to get bank accounts: " + "HTTP error! status: 404")]
  {
    GetBankAccountsHttpFailure(c, fetch, stringify, 404, body);
    StatusText404("Failed to query events: " + "Failed to get bank accounts: ");
  }

  /** Proof step for the lemma above: 404 is printed as "404". */
  lemma StatusText404(pq: string)
    ensures pq + "HTTP error! status: " + IntToString(404) == pq + "HTTP error! status: 404"
  {
    assert NatToString(404) == NatToString(40) + [DigitChar(4)];
    assert NatToString(40) == NatToString(4) + [DigitChar(0)];
    assert IntToString(404) == "404";
    assert pq + "HTTP error! status: " + "404" == pq + ("HTTP error! status: " + "404");
    assert "HTTP error! status: " + "404" == "HTTP error! status: 404";
  }

  /** An ok answer is shown unchanged after the found label, unless it is empty. */
  lemma GetBankAccountsFound(c: Credentials, fetch: (string, string) -> Outcome,
                             stringify: Json -> string, status: int, v: Json)
    requires IsLatin1(c.username) && IsLatin1(c.apiKey)
    requires fetch(BaseUrl + "/accounts", BuildHeaders(c)) == Responded(status, Parsed(v))
    requires HttpOk(status)
    ensures GetBankAccounts(c, fetch, stringify) ==
      if NothingFound(v) then [TextContent(NoneFoundText)]
      else [TextContent(FoundText), TextContent(stringify(v))]
  {
    assert Url(BaseUrl, BankAccounts(0)) == BaseUrl + "/accounts";
  }

  /** An object whose `length` field is 0 is reported as no accounts at all. */
  lemma LengthFieldZeroIsEmpty(stringify: Json -> string)
    ensures HandleBankAccounts(Returned(Obj(map["length" := Num(0), "id" := Num(1)])), stringify) ==
      [TextContent(NoneFoundText)]
  {
  }
}
