/**
 * The upstream client of the Organizze REST API (class `OrganizzeService`):
 * how each `get*` operation builds its request URL and its Authorization
 * header, and how the outcome of the single GET it performs becomes either
 * the decoded body or a rethrown error.
 *
 * The network is abstracted: a fetch is a value of type `Outcome`. JavaScript
 * truthiness on optional arguments is modelled with sentinels: an id of 0 and
 * an empty year or month are "not given", exactly as `if (x)` treats them.
 */
module OrganizzeService {
  import opened Wrappers
  import opened Decimal
  import opened Json
  import Base64
  import Text

  const BaseUrl: string := "https://api.organizze.com.br/rest/v2"

  datatype DateRange = DateRange(startDate: string, endDate: string)

  datatype Credentials = Credentials(username: string, apiKey: string)

  // ---------------------------------------------------------------------------
  // Request construction

  /** `url += "/" + id` when the id is truthy, as the optional-id lookups do. */
  function WithOptionalId(collection: string, id: int): (url: string)
    ensures collection <= url
    ensures url == collection <==> id == 0
    ensures id != 0 ==> url[|collection|..] == "/" + IntToString(id)
  {
    if id != 0 then collection + ("/" + IntToString(id)) else collection
  }

  function BankAccountsUrl(base: string, accountId: int): (url: string)
    ensures url == base + "/accounts" <==> accountId == 0
    ensures accountId != 0 ==> url == base + "/accounts/" + IntToString(accountId)
  {
    WithOptionalId(base + "/accounts", accountId)
  }

  function CreditCardsUrl(base: string, creditCardId: int): (url: string)
    ensures url == base + "/credit_cards" <==> creditCardId == 0
    ensures creditCardId != 0 ==> url == base + "/credit_cards/" + IntToString(creditCardId)
  {
    WithOptionalId(base + "/credit_cards", creditCardId)
  }

  function CategoriesUrl(base: string, categoryId: int): (url: string)
    ensures url == base + "/categories" <==> categoryId == 0
    ensures categoryId != 0 ==> url == base + "/categories/" + IntToString(categoryId)
  {
    WithOptionalId(base + "/categories", categoryId)
  }

  /** What the account filter adds to the transactions query. */
  function AccountPart(accountId: int): string {
    if accountId != 0 then "account_id=" + IntToString(accountId) + "&" else ""
  }

  /** What the date filter adds to the transactions query; the dates are not percent-encoded. */
  function RangePart(range: Option<DateRange>): string {
    if range.Some? then "start_date=" + range.value.startDate + "&end_date=" + range.value.endDate + "&" else ""
  }

  /** The transactions query: the prefix, then the account filter, then the date filter. */
  function TransactionsUrl(base: string, accountId: int, range: Option<DateRange>): (url: string)
    ensures url == base + "/transactions?" + AccountPart(accountId) + RangePart(range)
  {
    var url := base + "/transactions?";
    var url := if accountId != 0 then url + ("account_id=" + IntToString(accountId) + "&") else url;
    var url := if range.Some? then
        url + ("start_date=" + range.value.startDate + "&end_date=" + range.value.endDate + "&")
      else url;
    url
  }

  /** Every filter given is closed by `&`, so the URL always ends in `?` or `&`. */
  lemma TransactionsUrlEndsOpen(base: string, accountId: int, range: Option<DateRange>)
    ensures var url := TransactionsUrl(base, accountId, range);
      base + "/transactions?" <= url && (url[|url| - 1] == '?' || url[|url| - 1] == '&')
  {
    var prefix, account, dates := base + "/transactions?", AccountPart(accountId), RangePart(range);
    var url := prefix + account + dates;
    assert url == prefix + (account + dates);
    if dates != "" {
      assert url[|url| - 1] == dates[|dates| - 1] == '&';
    } else if account != "" {
      assert url == prefix + account;
      assert url[|url| - 1] == account[|account| - 1] == '&';
    } else {
      assert url == prefix;
    }
  }

  /** The query is empty exactly when neither filter is given. */
  lemma TransactionsUrlUnfiltered(base: string, accountId: int, range: Option<DateRange>)
    ensures TransactionsUrl(base, accountId, range) == base + "/transactions?" <==>
      accountId == 0 && range.None?
  {
    var prefix, account, dates := base + "/transactions?", AccountPart(accountId), RangePart(range);
    assert |prefix + account + dates| == |prefix| + |account| + |dates|;
    if accountId == 0 && range.None? {
      assert prefix + account + dates == prefix;
    }
  }

  function TransactionUrl(base: string, transactionId: int): (url: string)
    ensures url == base + "/transactions/" + IntToString(transactionId)
    ensures ParseInt(url[|base + "/transactions/"|..]) == Some(transactionId)
  {
    IntToStringRoundTrip(transactionId);
    var prefix := base + "/transactions/";
    var url := prefix + IntToString(transactionId);
    assert url[|prefix|..] == IntToString(transactionId);
    url
  }

  function InvoicesPath(base: string, creditCardId: int): string {
    base + "/credit_cards/" + IntToString(creditCardId) + "/invoices"
  }

  /** A date range becomes a query without a trailing `&`; none, no query at all. */
  function InvoicesUrl(base: string, creditCardId: int, range: Option<DateRange>): (url: string)
    ensures InvoicesPath(base, creditCardId) <= url
    ensures url == InvoicesPath(base, creditCardId) <==> range.None?
    ensures range.Some? ==>
      url[|InvoicesPath(base, creditCardId)|..] ==
        "?start_date=" + range.value.startDate + "&end_date=" + range.value.endDate
  {
    var path := InvoicesPath(base, creditCardId);
    if range.Some? then
      var query := "?start_date=" + range.value.startDate + "&end_date=" + range.value.endDate;
      var url := path + query;
      assert url[|path|..] == query;
      assert |url| > |path|;
      url
    else path
  }

  function InvoiceDetailsUrl(base: string, creditCardId: int, invoiceId: int): (url: string)
    ensures url == InvoicesPath(base, creditCardId) + "/" + IntToString(invoiceId)
    ensures ParseInt(url[|InvoicesPath(base, creditCardId) + "/"|..]) == Some(invoiceId)
  {
    IntToStringRoundTrip(invoiceId);
    var path := InvoicesPath(base, creditCardId) + "/";
    var url := path + IntToString(invoiceId);
    assert url[|path|..] == IntToString(invoiceId);
    url
  }

  /** Year and month are each appended when non-empty, independently. */
  function BudgetsUrl(base: string, year: string, month: string): (url: string)
    ensures year == "" && month == "" ==> url == base + "/budgets"
    ensures year != "" && month == "" ==> url == base + "/budgets/" + year
    ensures year != "" && month != "" ==> url == base + "/budgets/" + year + "/" + month
    ensures year == "" && month != "" ==> url == base + "/budgets/" + month
  {
    var url := base + "/budgets";
    var url := if year != "" then url + ("/" + year) else url;
    var url := if month != "" then url + ("/" + month) else url;
    BudgetsSegmentsJoin(base, year, month);
    url
  }

  /** Appending `/` and a segment, as the budgets lookup does, in the shape its contract states. */
  lemma BudgetsSegmentsJoin(base: string, year: string, month: string)
    ensures base + "/budgets" + ("/" + year) == base + "/budgets/" + year
    ensures base + "/budgets" + ("/" + year) + ("/" + month) == base + "/budgets/" + year + "/" + month
    ensures base + "/budgets" + ("/" + month) == base + "/budgets/" + month
  {
    assert "/budgets" + "/" == "/budgets/";
    Text.Assoc(base, "/budgets", "/");
    Text.Assoc(base + "/budgets", "/", year);
    Text.Assoc(base + "/budgets", "/", month);
    Text.Assoc(base + "/budgets/" + year, "/", month);
  }

  /** One logical query: one of the eight `get*` operations with its arguments. */
  datatype Request =
    | BankAccounts(accountId: int)
    | Transactions(accountId: int, range: Option<DateRange>)
    | Transaction(transactionId: int)
    | CreditCards(creditCardId: int)
    | CreditCardInvoices(creditCardId: int, range: Option<DateRange>)
    | InvoiceDetails(creditCardId: int, invoiceId: int)
    | Budgets(year: string, month: string)
    | Categories(categoryId: int)

  /** The URL each operation requests. */
  function Url(base: string, r: Request): (url: string)
    ensures base + "/" <= url
  {
    match r
    case BankAccounts(id) =>
      Under(base, "/accounts", BankAccountsUrl(base, id));
      BankAccountsUrl(base, id)
    case Transactions(id, range) =>
      Text.Assoc(base + "/transactions?", AccountPart(id), RangePart(range));
      Under(base, "/transactions?", TransactionsUrl(base, id, range));
      TransactionsUrl(base, id, range)
    case Transaction(id) =>
      Under(base, "/transactions/", TransactionUrl(base, id));
      TransactionUrl(base, id)
    case CreditCards(id) =>
      Under(base, "/credit_cards", CreditCardsUrl(base, id));
      CreditCardsUrl(base, id)
    case CreditCardInvoices(id, range) =>
      InvoicesUnder(base, id, InvoicesUrl(base, id, range));
      InvoicesUrl(base, id, range)
    case InvoiceDetails(card, invoice) =>
      InvoicesUnder(base, card, InvoiceDetailsUrl(base, card, invoice));
      InvoiceDetailsUrl(base, card, invoice)
    case Budgets(year, month) =>
      Under(base, "/budgets", BudgetsUrl(base, year, month));
      BudgetsUrl(base, year, month)
    case Categories(id) =>
      Under(base, "/categories", CategoriesUrl(base, id));
      CategoriesUrl(base, id)
  }

  /** Proof step for `Url`: a URL that extends `base` by a `/`-led collection lies one segment below it. */
  lemma Under(base: string, head: string, url: string)
    requires |head| > 0 && head[0] == '/'
    requires base + head <= url
    ensures base + "/" <= url
  {
    assert (base + head)[|base|] == '/';
  }

  /** Proof step for `Url`: the same for URLs under a card's invoices path. */
  lemma InvoicesUnder(base: string, creditCardId: int, url: string)
    requires InvoicesPath(base, creditCardId) <= url
    ensures base + "/" <= url
  {
    Text.Assoc(base + "/credit_cards/", IntToString(creditCardId), "/invoices");
    Text.Assoc(base, "/credit_cards/", IntToString(creditCardId) + "/invoices");
    Under(base, "/credit_cards/" + (IntToString(creditCardId) + "/invoices"), InvoicesPath(base, creditCardId));
  }

  /** The noun each operation puts in its error message. */
  function Label(r: Request): (noun: string)
    ensures r.BankAccounts? <==> noun == "bank accounts"
    ensures r.Transactions? <==> noun == "transactions"
    ensures r.Transaction? <==> noun == "transaction"
    ensures r.CreditCards? <==> noun == "credit cards"
    ensures r.CreditCardInvoices? <==> noun == "credit cards invoices"
    ensures r.InvoiceDetails? <==> noun == "invoice details"
    ensures r.Budgets? <==> noun == "events"
    ensures r.Categories? <==> noun == "categories"
  {
    match r
    case BankAccounts(_) => "bank accounts"
    case Transactions(_, _) => "transactions"
    case Transaction(_) => "transaction"
    case CreditCards(_) => "credit cards"
    case CreditCardInvoices(_, _) => "credit cards invoices"
    case InvoiceDetails(_, _) => "invoice details"
    case Budgets(_, _) => "events"
    case Categories(_) => "categories"
  }

  // ---------------------------------------------------------------------------
  // Authorization header (the Basic scheme of RFC 7617, section 2)

  predicate IsLatin1(s: string) {
    forall i :: 0 <= i < |s| ==> s[i] as int < 256
  }

  /** The octets `btoa` encodes: one per character, for Latin-1 text. */
  function Latin1Bytes(s: string): (bytes: seq<Base64.Byte>)
    requires IsLatin1(s)
    ensures |bytes| == |s|
    ensures forall i :: 0 <= i < |s| ==> bytes[i] == s[i] as int
  {
    seq(|s|, i requires 0 <= i < |s| => s[i] as int)
  }

  function Latin1Text(bytes: seq<Base64.Byte>): (s: string)
    ensures IsLatin1(s) && |s| == |bytes|
  {
    seq(|bytes|, i requires 0 <= i < |bytes| => bytes[i] as char)
  }

  lemma Latin1RoundTrip(s: string)
    requires IsLatin1(s)
    ensures Latin1Text(Latin1Bytes(s)) == s
  {
  }

  lemma Latin1TextInjective(a: seq<Base64.Byte>, b: seq<Base64.Byte>)
    requires Latin1Text(a) == Latin1Text(b)
    ensures a == b
  {
    forall i | 0 <= i < |a| ensures a[i] == b[i] {
      assert Latin1Text(a)[i] == Latin1Text(b)[i];
    }
  }

  const BasicPrefix: string := "Basic "

  /** The `Authorization` value `buildHeaders` produces. */
  function BuildHeaders(c: Credentials): (value: string)
    requires IsLatin1(c.username) && IsLatin1(c.apiKey)
    ensures BasicPrefix <= value
    ensures var token := Base64.Decode(value[|BasicPrefix|..]);
      token.Some? && Latin1Text(token.value) == c.username + ":" + c.apiKey
    ensures Base64.Canonical(value[|BasicPrefix|..])
  {
    var userPass := c.username + ":" + c.apiKey;
    assert IsLatin1(userPass) by {
      forall i | 0 <= i < |userPass| ensures userPass[i] as int < 256 {
        if i > |c.username| {
          assert userPass[i] == c.apiKey[i - |c.username| - 1];
        }
      }
    }
    var token := Base64.Encode(Latin1Bytes(userPass));
    Base64.DecodeEncode(Latin1Bytes(userPass));
    Latin1RoundTrip(userPass);
    assert (BasicPrefix + token)[|BasicPrefix|..] == token;
    BasicPrefix + token
  }

  /**
   * The contract of `BuildHeaders` leaves no freedom: any value with the
   * prefix and a canonical token of the same user-pass is the header itself,
   * `Basic ` followed by the `btoa` of `<username>:<apiKey>`.
   */
  lemma BuildHeadersDetermined(c: Credentials, value: string)
    requires IsLatin1(c.username) && IsLatin1(c.apiKey)
    requires BasicPrefix <= value
    requires var token := Base64.Decode(value[|BasicPrefix|..]);
      token.Some? && Latin1Text(token.value) == c.username + ":" + c.apiKey
    requires Base64.Canonical(value[|BasicPrefix|..])
    ensures value == BuildHeaders(c)
  {
    var header := BuildHeaders(c);
    var t1, t2 := value[|BasicPrefix|..], header[|BasicPrefix|..];
    Latin1TextInjective(Base64.Decode(t1).value, Base64.Decode(t2).value);
    Base64.CanonicalIsUnique(t1, t2);
    assert value == BasicPrefix + t1;
    assert header == BasicPrefix + t2;
  }

  /**
   * How a receiver reads Basic credentials (RFC 7617, section 2): decode the
   * Base 64 token and split the user-pass at its first colon.
   */
  function ParseBasic(value: string): Option<Credentials> {
    if !(BasicPrefix <= value) then None
    else match Base64.Decode(value[|BasicPrefix|..])
      case None => None
      case Some(bytes) =>
        match Text.Cut(Latin1Text(bytes), ':')
        case (_, None) => None
        case (user, Some(key)) => Some(Credentials(user, key))
  }

  // ---------------------------------------------------------------------------
  // Outcomes

  /** A thrown JavaScript value: an `Error` with its message, or anything else. */
  datatype Thrown = Error(message: string) | NonError

  /** What `response.json()` did. */
  datatype Body = Parsed(value: Json) | Unparsable(thrown: Thrown)

  /**
   * What one GET came to: something was thrown before a response existed
   * (by `fetch` or by the header builder), or a response with its status
   * and the result of decoding its body.
   */
  datatype Outcome = Raised(thrown: Thrown) | Responded(status: int, body: Body)

  /** What a `get*` operation does for its caller: return a value or throw. */
  datatype ServiceResult = Returned(value: Json) | Rejected(thrown: Thrown)

  /** `response.ok`: a status in the range 200 to 299. */
  predicate HttpOk(status: int) {
    200 <= status <= 299
  }

  /** The message thrown for a response that is not ok; the status reads back from it. */
  function HttpErrorMessage(status: int): (message: string)
    ensures "HTTP error! status: " <= message
    ensures ParseInt(message[|"HTTP error! status: "|..]) == Some(status)
  {
    IntToStringRoundTrip(status);
    var message := "HTTP error! status: " + IntToString(status);
    assert message[|"HTTP error! status: "|..] == IntToString(status);
    message
  }

  const UnknownErrorMessage: string := "Unknown error occurred"

  /** The catch block: prefix an `Error`'s message with the noun; replace anything else. */
  function Rewrap(noun: string, t: Thrown): (e: Thrown)
    ensures e.Error?
    ensures t.Error? ==> e.message == "Failed to get " + noun + ": " + t.message
    ensures t.NonError? ==> e.message == UnknownErrorMessage
  {
    match t
    case Error(m) => Error("Failed to get " + noun + ": " + m)
    case NonError => Error(UnknownErrorMessage)
  }

  /** The try block and its catch, once the fetch has produced `outcome`. */
  function Complete(noun: string, outcome: Outcome): (r: ServiceResult)
    ensures r.Rejected? ==> r.thrown.Error?
    ensures r.Returned? <==> outcome.Responded? && HttpOk(outcome.status) && outcome.body.Parsed?
    ensures r.Returned? ==> r.value == outcome.body.value
    ensures outcome.Responded? && HttpOk(outcome.status) && outcome.body.Unparsable? ==>
      r == Rejected(Rewrap(noun, outcome.body.thrown))
  {
    match outcome
    case Raised(t) => Rejected(Rewrap(noun, t))
    case Responded(status, body) =>
      if !HttpOk(status) then Rejected(Rewrap(noun, Error(HttpErrorMessage(status))))
      else match body
        case Parsed(v) => Returned(v)
        case Unparsable(t) => Rejected(Rewrap(noun, t))
  }

  /** The message of the `InvalidCharacterError` that `btoa` throws on a character above U+00FF. */
  const InvalidCharacterMessage: string := "Invalid character"

  /**
   * One `get*` call: build the URL and header for `r`, let `fetch` answer,
   * and complete. `fetch` stands for the network. The header is built inside
   * the `try`, so credentials `btoa` rejects end in the operation's own error.
   */
  function Get(r: Request, c: Credentials, fetch: (string, string) -> Outcome): (result: ServiceResult)
    ensures result.Rejected? ==> result.thrown.Error?
    ensures !(IsLatin1(c.username) && IsLatin1(c.apiKey)) ==>
      result == Rejected(Error("Failed to get " + Label(r) + ": " + InvalidCharacterMessage))
  {
    if IsLatin1(c.username) && IsLatin1(c.apiKey) then
      Complete(Label(r), fetch(Url(BaseUrl, r), BuildHeaders(c)))
    else
      Complete(Label(r), Raised(Error(InvalidCharacterMessage)))
  }

  // ---------------------------------------------------------------------------
  // Properties

  /**
   * A receiver reads the header back as the same credentials, provided the
   * username holds no colon (RFC 7617 forbids one there).
   */
  lemma BuildHeadersRoundTrip(c: Credentials)
    requires IsLatin1(c.username) && IsLatin1(c.apiKey)
    requires ':' !in c.username
    ensures ParseBasic(BuildHeaders(c)) == Some(c)
  {
    Text.CutAt(c.username, ':', c.apiKey);
  }

  /** With a colon in the username, two different credentials send the same header. */
  lemma ColonInUsernameIsAmbiguous()
    ensures BuildHeaders(Credentials("a:b", "c")) == BuildHeaders(Credentials("a", "b:c"))
  {
    assert "a:b" + ":" + "c" == "a" + ":" + "b:c";
  }

  /**
   * A non-ok status surfaces as the operation's error, whose message names
   * the operation and ends in the decimal status, which reads back.
   */
  lemma HttpStatusFailure(noun: string, status: int, body: Body)
    requires !HttpOk(status)
    ensures Complete(noun, Responded(status, body)) ==
      Rejected(Error("Failed to get " + noun + ": HTTP error! status: " + IntToString(status)))
    ensures var prefix := "Failed to get " + noun + ": HTTP error! status: ";
      ParseInt(Complete(noun, Responded(status, body)).thrown.message[|prefix|..]) == Some(status)
  {
    var prefix := "Failed to get " + noun + ": HTTP error! status: ";
    StatusMessage("Failed to get " + noun, IntToString(status));
    IntToStringRoundTrip(status);
  }

  /** Proof step for the lemma above: regrouping the message around the status text. */
  lemma StatusMessage(head: string, n: string)
    ensures head + ": " + ("HTTP error! status: " + n) == head + ": HTTP error! status: " + n
    ensures (head + ": HTTP error! status: " + n)[|head + ": HTTP error! status: "|..] == n
  {
    assert ": " + "HTTP error! status: " == ": HTTP error! status: ";
    Text.Assoc(head + ": ", "HTTP error! status: ", n);
    Text.Assoc(head, ": ", "HTTP error! status: ");
  }

  /** Whatever was thrown, the operation rethrows an `Error` carrying the cause. */
  lemma ThrownIsRewrapped(noun: string, t: Thrown)
    ensures Complete(noun, Raised(t)) == Rejected(Error(
      if t.Error? then "Failed to get " + noun + ": " + t.message else "Unknown error occurred"))
  {
  }

  /**
   * Through `Get`: with credentials `btoa` accepts, every operation asks
   * `fetch` for its own URL with the Basic header, and an ok answer whose
   * body decodes is returned unchanged.
   */
  lemma GetReturnsBody(r: Request, c: Credentials, fetch: (string, string) -> Outcome, status: int, v: Json)
    requires IsLatin1(c.username) && IsLatin1(c.apiKey)
    requires fetch(Url(BaseUrl, r), BuildHeaders(c)) == Responded(status, Parsed(v))
    requires HttpOk(status)
    ensures Get(r, c, fetch) == Returned(v)
  {
  }

  /**
   * Through `Get`: a non-ok status answered to an operation's request becomes
   * that operation's labelled HTTP error; the budgets lookup's label is "events".
   */
  lemma GetHttpFailure(r: Request, c: Credentials, fetch: (string, string) -> Outcome, status: int, body: Body)
    requires IsLatin1(c.username) && IsLatin1(c.apiKey)
    requires fetch(Url(BaseUrl, r), BuildHeaders(c)) == Responded(status, body)
    requires !HttpOk(status)
    ensures Get(r, c, fetch) ==
      Rejected(Error("Failed to get " + Label(r) + ": HTTP error! status: " + IntToString(status)))
    ensures r.Budgets? ==> Label(r) == "events"
  {
    HttpStatusFailure(Label(r), status, body);
  }

  /**
   * Through `Get`: a fetch that rejects before any response (a network
   * failure) is rethrown with the operation's label, or as the unknown error
   * when what it threw is not an `Error`.
   */
  lemma GetRaised(r: Request, c: Credentials, fetch: (string, string) -> Outcome, t: Thrown)
    requires IsLatin1(c.username) && IsLatin1(c.apiKey)
    requires fetch(Url(BaseUrl, r), BuildHeaders(c)) == Raised(t)
    ensures Get(r, c, fetch) == Rejected(Error(
      if t.Error? then "Failed to get " + Label(r) + ": " + t.message else "Unknown error occurred"))
  {
    ThrownIsRewrapped(Label(r), t);
  }

  /** Through `Get`: an ok answer whose body does not decode is rethrown the same way. */
  lemma GetUndecodable(r: Request, c: Credentials, fetch: (string, string) -> Outcome, status: int, t: Thrown)
    requires IsLatin1(c.username) && IsLatin1(c.apiKey)
    requires fetch(Url(BaseUrl, r), BuildHeaders(c)) == Responded(status, Unparsable(t))
    requires HttpOk(status)
    ensures Get(r, c, fetch) == Rejected(Error(
      if t.Error? then "Failed to get " + Label(r) + ": " + t.message else "Unknown error occurred"))
  {
  }

  /** Example: budgets for March 2024, for 2024, and for no period. */
  lemma ExampleBudgets(base: string)
    ensures Url(base, Budgets("2024", "03")) == base + "/budgets/2024/03"
    ensures Url(base, Budgets("2024", "")) == base + "/budgets/2024"
    ensures Url(base, Budgets("", "")) == base + "/budgets"
  {
  }

  /** Example: transactions of account 7 in January 2024, and unfiltered. */
  lemma ExampleTransactions(base: string)
    ensures Url(base, Transactions(7, Some(DateRange("2024-01-01", "2024-01-31")))) ==
      base + "/transactions?" + "account_id=7&" + "start_date=2024-01-01&end_date=2024-01-31&"
    ensures Url(base, Transactions(0, None)) == base + "/transactions?"
  {
    ExampleAccountPart();
    ExampleRangePart();
  }

  lemma ExampleAccountPart()
    ensures AccountPart(7) == "account_id=7&"
  {
    assert IntToString(7) == "7";
  }

  lemma ExampleRangePart()
    ensures RangePart(Some(DateRange("2024-01-01", "2024-01-31"))) == "start_date=2024-01-01&end_date=2024-01-31&"
  {
  }

  /** Example: invoice 99 of credit card 3. */
  lemma ExampleInvoiceDetails(base: string)
    ensures Url(base, InvoiceDetails(3, 99)) == base + "/credit_cards/" + "3" + "/invoices/" + "99"
  {
    var path := base + "/credit_cards/" + "3";
    assert "/invoices" + "/" == "/invoices/";
    Text.Assoc(path, "/invoices", "/");
    assert IntToString(3) == "3";
    assert NatToString(99) == NatToString(9) + [DigitChar(9)];
    assert IntToString(99) == "99";
  }

  lemma ExampleSextets()
    ensures Base64.Sextets([97, 108, 105, 99, 101, 58, 107, 49]) ==
      [24, 22, 49, 41, 24, 54, 20, 58, 26, 51, 4, 64]
  {
    var bytes: seq<Base64.Byte> := [97, 108, 105, 99, 101, 58, 107, 49];
    assert bytes[3..] == [99, 101, 58, 107, 49];
    assert bytes[3..][3..] == [107, 49];
    assert Base64.Sextets([107, 49]) == [26, 51, 4, 64];
    assert Base64.Sextets(bytes[3..]) == [24, 54, 20, 58] + [26, 51, 4, 64];
  }

  lemma ExampleToken()
    ensures Base64.Encode([97, 108, 105, 99, 101, 58, 107, 49]) == "YWxpY2U6azE="
  {
    ExampleSextets();
    var t := Base64.Encode([97, 108, 105, 99, 101, 58, 107, 49]);
    assert |t| == 12;
    assert t[0] == 'Y' && t[1] == 'W' && t[2] == 'x' && t[3] == 'p';
    assert t[4] == 'Y' && t[5] == '2' && t[6] == 'U' && t[7] == '6';
    assert t[8] == 'a' && t[9] == 'z' && t[10] == 'E' && t[11] == '=';
  }

  lemma ExampleBytes()
    ensures "alice" + ":" + "k1" == "alice:k1"
    ensures Latin1Bytes("alice:k1") == [97, 108, 105, 99, 101, 58, 107, 49]
  {
  }

  /** Example: the header for user "alice" with key "k1". */
  lemma ExampleHeader()
    ensures BuildHeaders(Credentials("alice", "k1")) == "Basic YWxpY2U6azE="
  {
    ExampleBytes();
    ExampleToken();
  }
}
