/**
 * A reference reader for the request URLs, defined here as the partner of the
 * builders in `OrganizzeService`: it splits a URL into path segments, then
 * `key=value` pairs joined by `&`, and maps them back to a request. It does
 * not claim to be the Organizze API's own routing or a URL parser: it knows
 * nothing of fragments, percent-escapes, `+` as a space, backslashes, removed
 * or stripped whitespace and control characters, or dot segments, and
 * `Clean` keeps those characters out of the arguments it reads back.
 */
module Routes {
  import opened Wrappers
  import opened Decimal
  import opened Text
  import opened OrganizzeService

  /** `/s1/s2/.../sn`. */
  function Path(segments: seq<string>): string {
    if |segments| == 0 then "" else "/" + segments[0] + Path(segments[1..])
  }

  predicate PlainSegment(s: string) {
    '/' !in s && '?' !in s
  }

  /** The value of `key=value`, when `part` is that pair. */
  function Field(key: string, part: string): Option<string> {
    if key + "=" <= part then Some(part[|key| + 1..]) else None
  }

  function ParseRange(start: string, end: string): Option<DateRange> {
    match (Field("start_date", start), Field("end_date", end))
    case (Some(s), Some(e)) => Some(DateRange(s, e))
    case _ => None
  }

  function ParseAccountField(part: string): Option<int> {
    match Field("account_id", part)
    case None => None
    case Some(digits) => ParseInt(digits)
  }

  /** The transactions query: filters each closed by `&`. */
  function ParseTransactionsQuery(query: string): Option<Request> {
    var parts := Split(query, '&');
    if parts[|parts| - 1] != "" then None
    else
      var fields := parts[..|parts| - 1];
      if |fields| == 0 then Some(Transactions(0, None))
      else if |fields| == 1 then
        match ParseAccountField(fields[0])
        case Some(id) => Some(Transactions(id, None))
        case None => None
      else if |fields| == 2 then
        match ParseRange(fields[0], fields[1])
        case Some(d) => Some(Transactions(0, Some(d)))
        case None => None
      else if |fields| == 3 then
        match (ParseAccountField(fields[0]), ParseRange(fields[1], fields[2]))
        case (Some(id), Some(d)) => Some(Transactions(id, Some(d)))
        case _ => None
      else None
  }

  function ParseInvoicesQuery(creditCardId: int, query: Option<string>): Option<Request> {
    match query
    case None => Some(CreditCardInvoices(creditCardId, None))
    case Some(q) =>
      var parts := Split(q, '&');
      if |parts| != 2 then None
      else match ParseRange(parts[0], parts[1])
        case Some(d) => Some(CreditCardInvoices(creditCardId, Some(d)))
        case None => None
  }

  /** No id segment reads as 0, the id that is never sent. */
  function ParseOptionalId(ids: seq<string>): Option<int>
    requires |ids| <= 1
  {
    if |ids| == 0 then Some(0) else ParseInt(ids[0])
  }

  function ParseRoute(segments: seq<string>, query: Option<string>): Option<Request> {
    if |segments| == 0 then None
    else
      var kind, rest := segments[0], segments[1..];
      if query.None? && |rest| <= 1 && kind in {"accounts", "credit_cards", "categories"} then
        match ParseOptionalId(rest)
        case None => None
        case Some(id) =>
          Some(if kind == "accounts" then BankAccounts(id)
               else if kind == "credit_cards" then CreditCards(id)
               else Categories(id))
      else if kind == "credit_cards" && 2 <= |rest| <= 3 && rest[1] == "invoices" then
        match ParseInt(rest[0])
        case None => None
        case Some(card) =>
          if |rest| == 2 then ParseInvoicesQuery(card, query)
          else if query.Some? then None
          else match ParseInt(rest[2])
            case None => None
            case Some(invoice) => Some(InvoiceDetails(card, invoice))
      else if kind == "transactions" && |rest| == 0 && query.Some? then
        ParseTransactionsQuery(query.value)
      else if kind == "transactions" && |rest| == 1 && query.None? then
        match ParseInt(rest[0])
        case None => None
        case Some(id) => Some(Transaction(id))
      else if kind == "budgets" && query.None? && |rest| <= 2 then
        Some(Budgets(if |rest| > 0 then rest[0] else "", if |rest| > 1 then rest[1] else ""))
      else None
  }

  function ParseUrl(base: string, url: string): Option<Request> {
    if !(base <= url) then None
    else
      var (path, query) := Cut(url[|base|..], '?');
      var segments := Split(path, '/');
      if segments[0] != "" then None else ParseRoute(segments[1..], query)
  }

  // ---------------------------------------------------------------------------
  // Reading paths back

  lemma {:induction false} SplitJoined(segments: seq<string>)
    requires |segments| > 0
    requires forall i :: 0 <= i < |segments| ==> PlainSegment(segments[i])
    ensures Split(segments[0] + Path(segments[1..]), '/') == segments
  {
    if |segments| == 1 {
      assert segments[0] + Path(segments[1..]) == segments[0];
      SplitNone(segments[0], '/');
    } else {
      var rest := segments[1..];
      assert Path(rest) == "/" + rest[0] + Path(rest[1..]);
      assert segments[0] + Path(rest) == segments[0] + ['/'] + (rest[0] + Path(rest[1..]));
      SplitAt(segments[0], '/', rest[0] + Path(rest[1..]));
      SplitJoined(rest);
      assert [segments[0]] + rest == segments;
    }
  }

  lemma {:induction false} PathHasNoQuery(segments: seq<string>)
    requires forall i :: 0 <= i < |segments| ==> PlainSegment(segments[i])
    ensures '?' !in Path(segments)
  {
    if |segments| > 0 {
      PathHasNoQuery(segments[1..]);
    }
  }

  function WithQuery(path: string, query: Option<string>): string {
    match query
    case None => path
    case Some(q) => path + "?" + q
  }

  lemma CutOf(segments: seq<string>, query: Option<string>)
    requires forall i :: 0 <= i < |segments| ==> PlainSegment(segments[i])
    ensures Cut(WithQuery(Path(segments), query), '?') == (Path(segments), query)
  {
    PathHasNoQuery(segments);
    if query.Some? {
      CutAt(Path(segments), '?', query.value);
    }
  }

  lemma SplitOf(segments: seq<string>)
    requires |segments| > 0
    requires forall i :: 0 <= i < |segments| ==> PlainSegment(segments[i])
    ensures Split(Path(segments), '/') == [""] + segments
  {
    var tail := segments[0] + Path(segments[1..]);
    SplitJoined(segments);
    assert Path(segments) == ['/'] + tail;
    SplitLeading('/', tail);
  }

  /** A URL made of plain segments and an optional query is read segment by segment. */
  lemma ParseUrlOf(base: string, segments: seq<string>, query: Option<string>)
    requires |segments| > 0
    requires forall i :: 0 <= i < |segments| ==> PlainSegment(segments[i])
    ensures ParseUrl(base, base + WithQuery(Path(segments), query)) == ParseRoute(segments, query)
  {
    var url := base + WithQuery(Path(segments), query);
    assert url[|base|..] == WithQuery(Path(segments), query);
    CutOf(segments, query);
    SplitOf(segments);
    var parts := Split(Path(segments), '/');
    assert parts[0] == "" && parts[1..] == segments;
  }

  lemma IdSegment(id: int)
    ensures PlainSegment(IntToString(id))
    ensures ParseInt(IntToString(id)) == Some(id)
  {
    IntToStringHasNoDelimiter(id);
    IntToStringRoundTrip(id);
  }

  // ---------------------------------------------------------------------------
  // Round trips

  /**
   * Text a URL carries literally, whose meaning the reader above does not
   * need to model: no fragment mark `#`, no escape `%`, no `+` (a space in a
   * query), no backslash (a `/` in an https path), no space or C0 control
   * character (tab, line feed and carriage return are deleted, and trailing
   * ones stripped, by a URL parser), and not a dot segment.
   */
  predicate Literal(s: string) {
    '#' !in s && '%' !in s && '+' !in s && '\\' !in s &&
    (forall i :: 0 <= i < |s| ==> s[i] > ' ') &&
    s != "." && s != ".."
  }

  predicate CleanRange(range: Option<DateRange>) {
    range.Some? ==>
      '&' !in range.value.startDate && '&' !in range.value.endDate &&
      Literal(range.value.startDate) && Literal(range.value.endDate)
  }

  /**
   * The arguments that a URL can carry unambiguously: query values without
   * `&`, path segments without `/` or `?`, no month without a year, and all
   * of them literal.
   */
  predicate Clean(r: Request) {
    match r
    case Transactions(_, range) => CleanRange(range)
    case CreditCardInvoices(_, range) => CleanRange(range)
    case Budgets(year, month) =>
      PlainSegment(year) && PlainSegment(month) && (year == "" ==> month == "") &&
      Literal(year) && Literal(month)
    case _ => true
  }

  // Why each condition of `Clean` is needed: without it, two requests share a URL.

  /** A month without a year is sent as if it were a year. */
  lemma MonthWithoutYearReadsAsYear(base: string, month: string)
    ensures BudgetsUrl(base, "", month) == BudgetsUrl(base, month, "")
  {
  }

  /** A `/` inside the year is indistinguishable from a separate month. */
  lemma SlashInYearReadsAsMonth(base: string)
    ensures BudgetsUrl(base, "2024/03", "") == BudgetsUrl(base, "2024", "03")
  {
    var budgets := base + "/budgets";
    assert BudgetsUrl(base, "2024/03", "") == budgets + ("/" + "2024/03");
    assert BudgetsUrl(base, "2024", "03") == (budgets + ("/" + "2024")) + ("/" + "03");
    assert "/" + "2024/03" == ("/" + "2024") + ("/" + "03");
    Assoc(budgets, "/" + "2024", "/" + "03");
  }

  /** A `?` inside the year starts a query, which no budgets URL has: the request is not read back. */
  lemma QueryMarkInYearIsLost(base: string)
    ensures ParseUrl(base, BudgetsUrl(base, "2024?x", "")) == None
  {
    var segments := ["budgets", "2024"];
    assert BudgetsUrl(base, "2024?x", "") == base + WithQuery(Path(segments), Some("x")) by {
      Path2("budgets", "2024");
      assert "/budgets/" + "2024?x" == "/" + "budgets" + ("/" + "2024") + "?" + "x";
      Assoc(base, "/budgets/", "2024?x");
    }
    ParseUrlOf(base, segments, Some("x"));
  }

  /** Query values are not percent-encoded, so an `&` moves text between fields. */
  lemma UnencodedDatesCollide(base: string, accountId: int, a: string, b: string, c: string)
    ensures TransactionsUrl(base, accountId, Some(DateRange(a + "&end_date=" + b, c))) ==
      TransactionsUrl(base, accountId, Some(DateRange(a, b + "&end_date=" + c)))
  {
    var left := "start_date=" + (a + "&end_date=" + b) + "&end_date=" + c + "&";
    var right := "start_date=" + a + "&end_date=" + (b + "&end_date=" + c) + "&";
    assert left == right;
  }

  lemma PathCons(s: string, rest: seq<string>)
    ensures Path([s] + rest) == "/" + s + Path(rest)
  {
    assert ([s] + rest)[1..] == rest;
  }

  lemma FieldOf(key: string, value: string)
    ensures Field(key, key + "=" + value) == Some(value)
  {
    var part := key + "=" + value;
    assert (key + "=") <= part;
    assert part[|key| + 1..] == value;
  }

  lemma ParseRangeOf(d: DateRange)
    ensures ParseRange("start_date=" + d.startDate, "end_date=" + d.endDate) == Some(d)
  {
    FieldOf("start_date", d.startDate);
    FieldOf("end_date", d.endDate);
  }

  lemma AccountFieldOf(id: int)
    ensures ParseAccountField("account_id=" + IntToString(id)) == Some(id)
  {
    FieldOf("account_id", IntToString(id));
    IdSegment(id);
  }

  lemma RangePartsOf(d: DateRange, tail: string)
    requires CleanRange(Some(d))
    ensures Split("start_date=" + d.startDate + "&end_date=" + d.endDate + tail, '&') ==
      ["start_date=" + d.startDate] + Split("end_date=" + d.endDate + tail, '&')
  {
    var first := "start_date=" + d.startDate;
    assert '&' !in first;
    assert first + "&end_date=" + d.endDate + tail == first + ['&'] + ("end_date=" + d.endDate + tail);
    SplitAt(first, '&', "end_date=" + d.endDate + tail);
  }

  lemma InvoicesQueryRoundTrip(creditCardId: int, d: DateRange)
    requires CleanRange(Some(d))
    ensures ParseInvoicesQuery(creditCardId, Some("start_date=" + d.startDate + "&end_date=" + d.endDate)) ==
      Some(CreditCardInvoices(creditCardId, Some(d)))
  {
    var last := "end_date=" + d.endDate;
    assert "start_date=" + d.startDate + "&end_date=" + d.endDate + "" ==
      "start_date=" + d.startDate + "&end_date=" + d.endDate;
    RangePartsOf(d, "");
    assert last + "" == last;
    assert '&' !in last;
    SplitNone(last, '&');
    ParseRangeOf(d);
  }

  lemma RangeQueryParts(d: DateRange)
    requires CleanRange(Some(d))
    ensures Split("start_date=" + d.startDate + "&end_date=" + d.endDate + "&", '&') ==
      ["start_date=" + d.startDate, "end_date=" + d.endDate, ""]
  {
    var last := "end_date=" + d.endDate;
    RangePartsOf(d, "&");
    assert '&' !in last;
    assert last + "&" == last + ['&'] + "";
    SplitAt(last, '&', "");
    SplitNone("", '&');
  }

  lemma AccountQueryParts(id: int, rest: string)
    ensures Split("account_id=" + IntToString(id) + "&" + rest, '&') ==
      ["account_id=" + IntToString(id)] + Split(rest, '&')
  {
    var first := "account_id=" + IntToString(id);
    IdSegment(id);
    IntToStringHasNoDelimiter(id);
    assert '&' !in first;
    assert first + "&" + rest == first + ['&'] + rest;
    SplitAt(first, '&', rest);
  }

  lemma ParseAccountOnly(accountId: int)
    requires accountId != 0
    ensures ParseTransactionsQuery(AccountPart(accountId)) == Some(Transactions(accountId, None))
  {
    AccountFieldOf(accountId);
    AccountQueryParts(accountId, "");
    assert AccountPart(accountId) == "account_id=" + IntToString(accountId) + "&" + "";
    SplitNone("", '&');
  }

  lemma ParseRangeOnly(d: DateRange)
    requires CleanRange(Some(d))
    ensures ParseTransactionsQuery(RangePart(Some(d))) == Some(Transactions(0, Some(d)))
  {
    RangeQueryParts(d);
    ParseRangeOf(d);
  }

  lemma AccountAndRangeParts(accountId: int, d: DateRange)
    requires accountId != 0 && CleanRange(Some(d))
    ensures Split(AccountPart(accountId) + RangePart(Some(d)), '&') ==
      ["account_id=" + IntToString(accountId), "start_date=" + d.startDate, "end_date=" + d.endDate, ""]
  {
    AccountQueryParts(accountId, RangePart(Some(d)));
    RangeQueryParts(d);
  }

  lemma ParseAccountAndRange(accountId: int, d: DateRange)
    requires accountId != 0 && CleanRange(Some(d))
    ensures ParseTransactionsQuery(AccountPart(accountId) + RangePart(Some(d))) == Some(Transactions(accountId, Some(d)))
  {
    AccountAndRangeParts(accountId, d);
    AccountFieldOf(accountId);
    ParseRangeOf(d);
    ThreeFields(AccountPart(accountId) + RangePart(Some(d)),
      "account_id=" + IntToString(accountId), "start_date=" + d.startDate, "end_date=" + d.endDate);
  }

  /** A query of three closed fields is read as an account filter followed by a date filter. */
  lemma ThreeFields(query: string, f0: string, f1: string, f2: string)
    requires Split(query, '&') == [f0, f1, f2, ""]
    ensures ParseTransactionsQuery(query) ==
      match (ParseAccountField(f0), ParseRange(f1, f2))
      case (Some(id), Some(d)) => Some(Transactions(id, Some(d)))
      case _ => None
  {
    var parts := Split(query, '&');
    assert parts[..|parts| - 1] == [f0, f1, f2];
  }

  lemma TransactionsQueryRoundTrip(accountId: int, range: Option<DateRange>)
    requires CleanRange(range)
    ensures ParseTransactionsQuery(AccountPart(accountId) + RangePart(range)) == Some(Transactions(accountId, range))
  {
    if accountId == 0 && range.None? {
      assert AccountPart(accountId) + RangePart(range) == "";
      SplitNone("", '&');
    } else if accountId == 0 {
      assert AccountPart(accountId) + RangePart(range) == RangePart(range);
      ParseRangeOnly(range.value);
    } else if range.None? {
      assert AccountPart(accountId) + RangePart(range) == AccountPart(accountId);
      ParseAccountOnly(accountId);
    } else {
      ParseAccountAndRange(accountId, range.value);
    }
  }

  lemma Path1(a: string)
    ensures Path([a]) == "/" + a
  {
    PathCons(a, []);
  }

  lemma Path2(a: string, b: string)
    ensures Path([a, b]) == "/" + a + ("/" + b)
  {
    PathCons(a, [b]);
    Path1(b);
  }

  lemma Path3(a: string, b: string, c: string)
    ensures Path([a, b, c]) == "/" + a + ("/" + b + ("/" + c))
  {
    PathCons(a, [b, c]);
    Path2(b, c);
  }

  lemma Path4(a: string, b: string, c: string, d: string)
    ensures Path([a, b, c, d]) == "/" + a + ("/" + b + ("/" + c + ("/" + d)))
  {
    PathCons(a, [b, c, d]);
    Path3(b, c, d);
  }

  /** The segments of an optional-id lookup's path. */
  function OptionalIdSegments(kind: string, id: int): seq<string> {
    if id == 0 then [kind] else [kind, IntToString(id)]
  }

  lemma OptionalIdPath(base: string, kind: string, id: int)
    requires PlainSegment(kind)
    ensures WithOptionalId(base + ("/" + kind), id) == base + WithQuery(Path(OptionalIdSegments(kind, id)), None)
    ensures forall i :: 0 <= i < |OptionalIdSegments(kind, id)| ==> PlainSegment(OptionalIdSegments(kind, id)[i])
  {
    IdSegment(id);
    if id == 0 {
      Path1(kind);
    } else {
      var n := IntToString(id);
      Path2(kind, n);
      Assoc(base, "/" + kind, "/" + n);
    }
  }

  lemma OptionalIdRoundTrip(base: string, kind: string, id: int)
    requires kind in {"accounts", "credit_cards", "categories"}
    ensures ParseUrl(base, WithOptionalId(base + ("/" + kind), id)) ==
      Some(if kind == "accounts" then BankAccounts(id)
           else if kind == "credit_cards" then CreditCards(id)
           else Categories(id))
  {
    OptionalIdPath(base, kind, id);
    ParseUrlOf(base, OptionalIdSegments(kind, id), None);
    IdSegment(id);
  }

  lemma TransactionUrlAsPath(base: string, id: int)
    ensures TransactionUrl(base, id) == base + Path(["transactions", IntToString(id)])
  {
    var n := IntToString(id);
    var t := "/" + "transactions";
    Path2("transactions", n);
    assert "/transactions/" == t + "/";
    assert TransactionUrl(base, id) == base + (t + "/") + n;
    Assoc(base, t, "/");
    Assoc(base + t, "/", n);
    Assoc(base, t, "/" + n);
  }

  lemma TransactionRoundTrip(base: string, id: int)
    ensures ParseUrl(base, TransactionUrl(base, id)) == Some(Transaction(id))
  {
    var n := IntToString(id);
    IdSegment(id);
    TransactionUrlAsPath(base, id);
    assert WithQuery(Path(["transactions", n]), None) == Path(["transactions", n]);
    ParseUrlOf(base, ["transactions", n], None);
  }

  lemma TransactionsUrlAsPath(base: string, accountId: int, range: Option<DateRange>)
    ensures TransactionsUrl(base, accountId, range) ==
      base + WithQuery(Path(["transactions"]), Some(AccountPart(accountId) + RangePart(range)))
  {
    TransactionsQueryOnPath(base, AccountPart(accountId), RangePart(range));
  }

  lemma TransactionsQueryOnPath(base: string, a: string, d: string)
    ensures base + "/transactions?" + a + d == base + WithQuery(Path(["transactions"]), Some(a + d))
  {
    var t := ("/" + "transactions") + "?";
    Path1("transactions");
    assert "/transactions?" == t;
    Assoc(base + t, a, d);
    Assoc(base, t, a + d);
  }

  lemma TransactionsRoute(query: string)
    ensures ParseRoute(["transactions"], Some(query)) == ParseTransactionsQuery(query)
  {
    assert ["transactions"][1..] == [];
  }

  lemma TransactionsRoundTrip(base: string, accountId: int, range: Option<DateRange>)
    requires CleanRange(range)
    ensures ParseUrl(base, TransactionsUrl(base, accountId, range)) == Some(Transactions(accountId, range))
  {
    var q := AccountPart(accountId) + RangePart(range);
    TransactionsUrlAsPath(base, accountId, range);
    ParseUrlOf(base, ["transactions"], Some(q));
    TransactionsRoute(q);
    TransactionsQueryRoundTrip(accountId, range);
  }

  function InvoicesSegments(creditCardId: int): seq<string> {
    ["credit_cards", IntToString(creditCardId), "invoices"]
  }

  lemma InvoicesPathIsPath(base: string, creditCardId: int)
    ensures InvoicesPath(base, creditCardId) == base + Path(InvoicesSegments(creditCardId))
    ensures forall i :: 0 <= i < 3 ==> PlainSegment(InvoicesSegments(creditCardId)[i])
  {
    IdSegment(creditCardId);
    InvoicesPathShape(base, IntToString(creditCardId));
  }

  lemma InvoicesPathShape(base: string, n: string)
    ensures base + "/credit_cards/" + n + "/invoices" == base + Path(["credit_cards", n, "invoices"])
  {
    var c := "/" + "credit_cards";
    var i := "/" + "invoices";
    Path3("credit_cards", n, "invoices");
    assert "/credit_cards/" == c + "/";
    assert "/invoices" == i;
    Assoc(base, c + "/", n);
    Assoc(c, "/", n);
    Assoc(base, c + ("/" + n), i);
    Assoc(c, "/" + n, i);
  }

  lemma InvoicesRoundTrip(base: string, creditCardId: int, range: Option<DateRange>)
    requires CleanRange(range)
    ensures ParseUrl(base, InvoicesUrl(base, creditCardId, range)) == Some(CreditCardInvoices(creditCardId, range))
  {
    var segs := InvoicesSegments(creditCardId);
    InvoicesPathIsPath(base, creditCardId);
    IdSegment(creditCardId);
    InvoicesRoute(creditCardId, range);
    if range.Some? {
      var d := range.value;
      var q := "start_date=" + d.startDate + "&end_date=" + d.endDate;
      InvoicesUrlAsPath(base, creditCardId, d);
      ParseUrlOf(base, segs, Some(q));
    } else {
      ParseUrlOf(base, segs, None);
    }
  }

  lemma InvoicesUrlAsPath(base: string, creditCardId: int, d: DateRange)
    ensures var q := "start_date=" + d.startDate + "&end_date=" + d.endDate;
      InvoicesUrl(base, creditCardId, Some(d)) == base + WithQuery(Path(InvoicesSegments(creditCardId)), Some(q))
  {
    var p := Path(InvoicesSegments(creditCardId));
    var q := "start_date=" + d.startDate + "&end_date=" + d.endDate;
    InvoicesPathIsPath(base, creditCardId);
    var url := InvoicesUrl(base, creditCardId, Some(d));
    QueryAfter(InvoicesPath(base, creditCardId), url, d.startDate, d.endDate);
    Assoc(base, p, "?" + q);
    Assoc(p, "?", q);
  }

  lemma QueryAfter(path: string, url: string, s: string, e: string)
    requires path <= url && url[|path|..] == "?start_date=" + s + "&end_date=" + e
    ensures url == path + ("?" + ("start_date=" + s + "&end_date=" + e))
  {
    assert url == path + url[|path|..];
    assert "?start_date=" + s + "&end_date=" + e == "?" + ("start_date=" + s + "&end_date=" + e);
  }

  lemma InvoicesRoute(creditCardId: int, range: Option<DateRange>)
    requires CleanRange(range)
    ensures var q := if range.Some? then Some("start_date=" + range.value.startDate + "&end_date=" + range.value.endDate) else None;
      ParseRoute(InvoicesSegments(creditCardId), q) == Some(CreditCardInvoices(creditCardId, range))
  {
    IdSegment(creditCardId);
    if range.Some? {
      InvoicesQueryRoundTrip(creditCardId, range.value);
    }
  }

  lemma InvoiceDetailsRoundTrip(base: string, creditCardId: int, invoiceId: int)
    ensures ParseUrl(base, InvoiceDetailsUrl(base, creditCardId, invoiceId)) == Some(InvoiceDetails(creditCardId, invoiceId))
  {
    var n, m := IntToString(creditCardId), IntToString(invoiceId);
    var segs := ["credit_cards", n, "invoices", m];
    InvoicesPathIsPath(base, creditCardId);
    IdSegment(creditCardId);
    IdSegment(invoiceId);
    Path3("credit_cards", n, "invoices");
    Path4("credit_cards", n, "invoices", m);
    Assoc("/" + "invoices", "/", m);
    Assoc("/" + n, "/" + "invoices", "/" + m);
    Assoc("/" + "credit_cards", "/" + n + ("/" + "invoices"), "/" + m);
    Assoc(base, Path(InvoicesSegments(creditCardId)), "/" + m);
    Assoc(InvoicesPath(base, creditCardId), "/", m);
    assert InvoiceDetailsUrl(base, creditCardId, invoiceId) == base + WithQuery(Path(segs), None);
    ParseUrlOf(base, segs, None);
  }

  function BudgetsSegments(year: string, month: string): seq<string> {
    ["budgets"] + (if year != "" then [year] else []) + (if month != "" then [month] else [])
  }

  lemma BudgetsUrlAsPath(base: string, year: string, month: string)
    requires year == "" ==> month == ""
    ensures BudgetsUrl(base, year, month) == base + WithQuery(Path(BudgetsSegments(year, month)), None)
  {
    var segs := BudgetsSegments(year, month);
    assert "/budgets" == "/" + "budgets";
    if year == "" {
      assert segs == ["budgets"];
      Path1("budgets");
    } else if month == "" {
      assert segs == ["budgets", year];
      Path2("budgets", year);
      Assoc(base, "/budgets", "/" + year);
    } else {
      assert segs == ["budgets", year, month];
      Path3("budgets", year, month);
      Assoc(base, "/budgets", "/" + year);
      Assoc(base + "/budgets", "/" + year, "/" + month);
      Assoc(base, "/budgets", ("/" + year) + ("/" + month));
    }
  }

  lemma BudgetsRoute(year: string, month: string)
    requires Clean(Budgets(year, month))
    ensures forall i :: 0 <= i < |BudgetsSegments(year, month)| ==> PlainSegment(BudgetsSegments(year, month)[i])
    ensures ParseRoute(BudgetsSegments(year, month), None) == Some(Budgets(year, month))
  {
    var segs := BudgetsSegments(year, month);
    if year == "" {
      assert segs == ["budgets"];
    } else if month == "" {
      assert segs == ["budgets", year];
    } else {
      assert segs == ["budgets", year, month];
    }
  }

  lemma BudgetsRoundTrip(base: string, year: string, month: string)
    requires Clean(Budgets(year, month))
    ensures ParseUrl(base, BudgetsUrl(base, year, month)) == Some(Budgets(year, month))
  {
    BudgetsUrlAsPath(base, year, month);
    BudgetsRoute(year, month);
    ParseUrlOf(base, BudgetsSegments(year, month), None);
  }

  /**
   * Every request whose free-text arguments hold no delimiter is read back
   * from its URL as itself; in particular such requests never share a URL.
   */
  lemma UrlRoundTrip(base: string, r: Request)
    requires Clean(r)
    ensures ParseUrl(base, Url(base, r)) == Some(r)
  {
    match r
    case BankAccounts(id) =>
      assert "/accounts" == "/" + "accounts";
      OptionalIdRoundTrip(base, "accounts", id);
    case CreditCards(id) =>
      assert "/credit_cards" == "/" + "credit_cards";
      OptionalIdRoundTrip(base, "credit_cards", id);
    case Categories(id) =>
      assert "/categories" == "/" + "categories";
      OptionalIdRoundTrip(base, "categories", id);
    case Transaction(id) => TransactionRoundTrip(base, id);
    case Transactions(id, range) => TransactionsRoundTrip(base, id, range);
    case CreditCardInvoices(id, range) => InvoicesRoundTrip(base, id, range);
    case InvoiceDetails(card, invoice) => InvoiceDetailsRoundTrip(base, card, invoice);
    case Budgets(year, month) => BudgetsRoundTrip(base, year, month);
  }

  lemma UrlInjective(base: string, r1: Request, r2: Request)
    requires Clean(r1) && Clean(r2)
    requires Url(base, r1) == Url(base, r2)
    ensures r1 == r2
  {
    UrlRoundTrip(base, r1);
    UrlRoundTrip(base, r2);
  }
}
