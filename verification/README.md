# organizze-mcp: a verified model of the Organizze client core

organizze-mcp is an MCP server that exposes the Organizze personal-finance REST
API (`https://api.organizze.com.br/rest/v2`) as tools. Its core is the
`OrganizzeService` class. Each `get*` operation:

- builds the request URL for one resource (bank accounts, transactions, credit
  cards and their invoices, budgets, categories);
- attaches an HTTP Basic `Authorization` header;
- performs one GET and returns the decoded JSON body, or throws an `Error`.
  When the cause is itself an `Error`, the message names the operation and
  keeps the cause's message; any other cause becomes `Unknown error occurred`.

The `get-bank-accounts` tool turns that result, or the thrown error, into an
MCP content envelope of one or two text segments.

This Dafny project models that core as pure functions and proves what the
code promises about it.

| file | module | what it holds |
|---|---|---|
| `wrappers.dfy` | `Wrappers` | `Option` |
| `decimal.dfy` | `Decimal` | `${n}` for integers, in canonical form (no leading zeros), with its left inverse `ParseInt` |
| `text.dfy` | `Text` | `Cut` at the first separator and `Split`, the tools used to read URLs and headers |
| `base64.dfy` | `Base64` | Base 64 (RFC 4648, section 4) as `btoa` produces it, with a decoder |
| `json.dfy` | `Json` | decoded JSON values |
| `service.dfy` | `OrganizzeService` | URL builders, the Basic header, the outcome of a GET, error rewrapping |
| `routes.dfy` | `Routes` | an independent reader of request URLs; round trips and the collisions that limit them |
| `tools.dfy` | `Tools` | the `get-bank-accounts` handler and its four envelope shapes |

Modelling conventions:

- **Absent arguments.** The source tests optional arguments with JavaScript
  truthiness (`if (account_id)`, `if (year)`). An id of `0` and an empty year
  or month therefore stand for "not given", because the code treats them
  exactly like `undefined`.
- **The network.** A fetch is a function parameter `fetch: (url, header) -> Outcome`.
  An `Outcome` either raised a `Thrown` value before any response existed, or
  is a response with a status and the result of `response.json()`.
- **The base URL.** The URL builders and the route reader take the service's
  `baseUrl` field as a parameter `base`. `Get` passes the constant `BaseUrl`.
  The URL properties therefore hold for any base.
- **Serialisation.** `JSON.stringify(response, null, 2)` is the uninterpreted
  parameter `stringify`.

## Model

| member | source | states |
|---|---|---|
| `Decimal.IntToString` | src/services/organizze.service.ts:55 | `${id}` is a non-empty digit string, with a leading `-` exactly for negative ids, and canonical: it starts with `0` only for 0 itself, and `-` is never followed by `0` |
| `Decimal.IntToStringRoundTrip` | src/services/organizze.service.ts:111 | the printed id reads back as the same integer (`ParseInt` is a left inverse: it also accepts non-canonical text such as `007`), so distinct ids give distinct path segments |
| `Decimal.IntToStringHasNoDelimiter` | src/services/organizze.service.ts:187 | a printed id never contains `/`, `?` or `&`, so it cannot split a path or a query |
| `Base64.Encode` | src/services/organizze.service.ts:45 | `btoa` output always has a length that is a multiple of 4 (padded with `=`), and its pad bits are zero (canonical, section 3.5 of RFC 4648) |
| `Base64.DecodeEncode` | src/services/organizze.service.ts:45 | decoding a `btoa` token gives back exactly the encoded octets |
| `Base64.EncodeDecode` | src/services/organizze.service.ts:45 | conversely, a canonical token that decodes is exactly the `btoa` of what it decodes to |
| `Base64.CanonicalIsUnique` | src/services/organizze.service.ts:45 | two canonical tokens that decode to the same octets are the same token |
| `OrganizzeService.WithOptionalId` | src/services/organizze.service.ts:53-56 | `/id` is appended exactly when the id is truthy; otherwise the collection URL is unchanged |
| `OrganizzeService.BankAccountsUrl` | src/services/organizze.service.ts:53-56 | `.../accounts` exactly when no id is given, else `.../accounts/<id>` |
| `OrganizzeService.TransactionsUrl` | src/services/organizze.service.ts:81-89 | the URL built step by step is `.../transactions?`, then `account_id=<id>&` when an account is given, then `start_date=..&end_date=..&` when a range is given |
| `OrganizzeService.TransactionsUrlEndsOpen` | src/services/organizze.service.ts:81-89 | every transactions URL starts with `.../transactions?` and ends in `?` or `&`: the trailing separator is always kept |
| `OrganizzeService.TransactionsUrlUnfiltered` | src/services/organizze.service.ts:81-89 | the query is empty exactly when neither an account nor a range is given |
| `OrganizzeService.TransactionUrl` | src/services/organizze.service.ts:111 | exactly `.../transactions/` followed by the printed id, which reads back as the same integer |
| `OrganizzeService.CreditCardsUrl` | src/services/organizze.service.ts:135-139 | `.../credit_cards` exactly when no id is given, else `.../credit_cards/<id>` |
| `OrganizzeService.InvoicesUrl` | src/services/organizze.service.ts:161-165 | the invoices path, extended exactly when a range is given, and then by `?start_date=..&end_date=..` with no trailing `&` |
| `OrganizzeService.InvoiceDetailsUrl` | src/services/organizze.service.ts:187 | exactly the card's invoices path, then `/` and the printed invoice id, which reads back as the same integer |
| `OrganizzeService.BudgetsUrl` | src/services/organizze.service.ts:209-217 | case by case: `.../budgets` with neither; `.../budgets/<year>` with a year only; `.../budgets/<year>/<month>` with both; `.../budgets/<month>` with a month only |
| `OrganizzeService.CategoriesUrl` | src/services/organizze.service.ts:241-245 | `.../categories` exactly when no id is given, else `.../categories/<id>` |
| `OrganizzeService.Url` | src/services/organizze.service.ts:49-263 | every operation's request URL lies under the base URL, one path segment below it at least |
| `OrganizzeService.Label` | src/services/organizze.service.ts:69-258 | each operation has its own noun in `Failed to get <noun>:` (bank accounts, transactions, transaction, credit cards, credit cards invoices, invoice details, categories), and the budgets lookup's noun is `events` |
| `OrganizzeService.HttpErrorMessage` | src/services/organizze.service.ts:62-64 | a non-ok response throws `HTTP error! status: ` followed by the status, which reads back as the same integer |
| `OrganizzeService.Latin1Bytes` | src/services/organizze.service.ts:45 | `btoa` takes one octet per character, equal to the character's code |
| `OrganizzeService.BuildHeaders` | src/services/organizze.service.ts:40-47 | the header value is `Basic ` followed by a canonical Base 64 token that decodes to the Latin-1 octets of exactly `<username>:<apiKey>` |
| `OrganizzeService.BuildHeadersDetermined` | src/services/organizze.service.ts:40-47 | that contract leaves no freedom: any value meeting it is the header itself, `Basic ` and the `btoa` of `<username>:<apiKey>` |
| `OrganizzeService.BuildHeadersRoundTrip` | src/services/organizze.service.ts:40-47 | an RFC 7617 receiver decodes the header back to exactly the configured username and API key when the username has no colon |
| `OrganizzeService.ColonInUsernameIsAmbiguous` | src/services/organizze.service.ts:45 | with a colon in the username, two different credential pairs send the same header |
| `OrganizzeService.ExampleHeader` | src/services/organizze.service.ts:45 | user `alice` with key `k1` sends `Basic YWxpY2U6azE=` |
| `OrganizzeService.Rewrap` | src/services/organizze.service.ts:67-73 | the catch block always throws an `Error`: `Failed to get <noun>: <message>` for an `Error`, `Unknown error occurred` for anything else |
| `OrganizzeService.Complete` | src/services/organizze.service.ts:58-73 | an operation returns exactly when the response is ok (status 200 to 299) and its body decodes, and then returns the decoded body unchanged; every failure is rethrown as an `Error`, and a body that does not decode after an ok status is rethrown through the catch block with the operation's noun |
| `OrganizzeService.Get` | src/services/organizze.service.ts:40-73 | a `get*` call only ever throws an `Error`; credentials `btoa` rejects end in `Failed to get <noun>: Invalid character` |
| `OrganizzeService.GetReturnsBody` | src/services/organizze.service.ts:40-66 | for every operation, with credentials `btoa` accepts, an ok answer to the operation's own URL and Basic header whose body decodes is returned unchanged |
| `OrganizzeService.HttpStatusFailure` | src/services/organizze.service.ts:62-70 | a non-ok status N gives `Failed to get <noun>: HTTP error! status: N`, and N reads back from the message |
| `OrganizzeService.ThrownIsRewrapped` | src/services/organizze.service.ts:67-72 | a failure before any response keeps its message behind the operation's prefix; a non-`Error` becomes `Unknown error occurred` |
| `OrganizzeService.GetHttpFailure` | src/services/organizze.service.ts:223-231 | through `Get`, a non-ok status becomes the operation's labelled HTTP error, and the budgets lookup's label is `events` |
| `OrganizzeService.GetRaised` | src/services/organizze.service.ts:58-72 | through `Get`, a fetch that rejects before any response is rethrown as `Failed to get <noun>: <message>`, or as `Unknown error occurred` for a cause that is not an `Error` |
| `OrganizzeService.GetUndecodable` | src/services/organizze.service.ts:66-72 | through `Get`, an ok answer whose body does not decode is rethrown the same way |
| `OrganizzeService.ExampleBudgets` | src/services/organizze.service.ts:209-217 | budgets for 2024/03, for 2024 and for no period go to `/budgets/2024/03`, `/budgets/2024` and `/budgets` |
| `OrganizzeService.ExampleTransactions` | src/services/organizze.service.ts:81-89 | account 7 in January 2024 gives `/transactions?account_id=7&start_date=2024-01-01&end_date=2024-01-31&`; no filter gives `/transactions?` |
| `OrganizzeService.ExampleInvoiceDetails` | src/services/organizze.service.ts:187 | invoice 99 of card 3 is `/credit_cards/3/invoices/99` |
| `Routes.UrlRoundTrip` | src/services/organizze.service.ts:49-263 | for every operation, a URL whose free-text arguments hold no delimiter is read back by an independent route parser as exactly the request that built it |
| `Routes.UrlInjective` | src/services/organizze.service.ts:49-263 | two such requests never share a URL |
| `Routes.OptionalIdRoundTrip` | src/services/organizze.service.ts:135-139 | the optional-id collections (accounts, credit cards, categories) read back with their id, and with 0 for no id |
| `Routes.TransactionRoundTrip` | src/services/organizze.service.ts:111 | a single transaction's URL reads back as that transaction |
| `Routes.TransactionsRoundTrip` | src/services/organizze.service.ts:81-89 | the transactions query, trailing `&` included, reads back as the same account and range |
| `Routes.InvoicesRoundTrip` | src/services/organizze.service.ts:161-165 | the invoices URL reads back as the same card and range |
| `Routes.InvoiceDetailsRoundTrip` | src/services/organizze.service.ts:187 | the invoice-details URL reads back as the same card and invoice |
| `Routes.BudgetsRoundTrip` | src/services/organizze.service.ts:209-217 | a budgets URL reads back when year and month are plain, literal segments and no month is given without a year |
| `Routes.MonthWithoutYearReadsAsYear` | src/services/organizze.service.ts:211-217 | a month without a year is sent exactly as a year would be |
| `Routes.SlashInYearReadsAsMonth` | src/services/organizze.service.ts:211-217 | year `2024/03` alone and year `2024` with month `03` produce the same URL |
| `Routes.QueryMarkInYearIsLost` | src/services/organizze.service.ts:211-217 | a `?` inside the year starts a query, and the budgets URL is no longer read back at all |
| `Routes.UnencodedDatesCollide` | src/services/organizze.service.ts:87-89 | unencoded date values let an `&end_date=` move from one date to the other without changing the URL |
| `Tools.Falsy` | src/index.ts:15 | `!response`: arrays and objects are never falsy; `null` always is; a boolean exactly when `false`, a string exactly when empty, a number exactly when 0 |
| `Tools.LengthIsZero` | src/index.ts:15 | `response.length === 0` can hold only for an array, a string or an object |
| `Tools.NothingFound` | src/index.ts:15 | kind by kind: an array is "nothing found" exactly when empty, an object exactly when its own `length` field is 0, a string exactly when empty, a number exactly when 0, a boolean exactly when `false`, and `null` always |
| `Tools.HandleBankAccounts` | src/index.ts:11-59 | the envelope has one or two segments, all of type `text`; it has two exactly when a value came back that is neither falsy nor of length 0, and then they are `Bank accounts found` and the serialised value |
| `Tools.ReadEnvelopeOfHandle` | src/index.ts:15-57 | the envelope shows which of the four shapes was produced (none found, found, failed, unknown) and carries the payload or the error message behind `Failed to query events: ` |
| `Tools.HandleDistinguishesShapes` | src/index.ts:15-57 | two service results give the same envelope exactly when they have the same shape, payload and message |
| `Tools.GetBankAccountsRequestsList` | src/index.ts:13 | the tool depends only on the answer to `GET .../accounts` with the configured header: it always asks for the list, never one account |
| `Tools.GetBankAccounts` | src/index.ts:11-59 | the tool's envelope always reads as one of the shapes, and never as `An unknown error occurred`: through the service every failure is an `Error` |
| `Tools.GetBankAccountsHttpFailure` | src/index.ts:38-47 | a non-ok status N is reported as `Failed to query events: Failed to get bank accounts: HTTP error! status: N` |
| `Tools.GetBankAccountsNetworkFailure` | src/index.ts:38-57 | a fetch that fails before any response is reported as `Failed to query events: Failed to get bank accounts: <message>` (or with `Unknown error occurred`), never as no accounts found |
| `Tools.GetBankAccountsInvalidCredentials` | src/index.ts:38-47 | credentials `btoa` rejects are reported as `Failed to query events: Failed to get bank accounts: Invalid character` |
| `Tools.GetBankAccountsNotFound` | src/index.ts:44 | a 404 answer is reported as `Failed to query events: Failed to get bank accounts: HTTP error! status: 404` |
| `Tools.GetBankAccountsFound` | src/index.ts:15-37 | an ok answer is reported as not found when it is empty, and otherwise as found together with the serialised body |
| `Tools.LengthFieldZeroIsEmpty` | src/index.ts:15 | an object whose own `length` field is 0 counts as no accounts |

## Left out

- `fetch`, `response.json()` and `async`: the network is the `fetch` parameter. Its answer is an `Outcome`, with `response.ok` modelled as a status from 200 to 299. Timeouts, retries and concurrency are not modelled.
- The `yargs` command line (src/services/organizze.service.ts:27-38): the username and API key are the `Credentials` parameter. A missing option ends the process before any operation runs.
- `Get` takes the `btoa` failure message to be `Invalid character`, the message of the runtime's `InvalidCharacterError`. That exception is an `Error`, so the operation rewraps it.
- `OrganizzeService.BuildHeaders`: requires Latin-1 text, the domain of `btoa`. Credentials outside that domain are handled in `Get`.
- The exact text of `JSON.stringify(response, null, 2)`: it is an uninterpreted parameter, so the model says nothing about its format. A JSON object is a `map`, which has no key order, so two bodies that differ only in key order are the same value here although `JSON.stringify` prints them differently.
- JSON numbers are integers here. Fractional numbers, `NaN` and exponent-form ids are not modelled. A JSON number in the `length` test is compared as an integer.
- Ids are modelled only as safe integers, with an absolute value of at most 2^53 - 1, printed exactly in decimal. Above that bound a JavaScript number is not the exact integer, and `${n}` prints the shortest digits that read back to the same number, followed by zeros: `${2**60}` is `1152921504606847000`, whereas `IntToString(1152921504606846976)` gives `1152921504606846976`. From 10^21 on, JavaScript also switches to exponent form. Neither behaviour is modelled.
- `Routes.UrlRoundTrip`: proved only for requests whose dates hold no `&`, whose budget year and month hold no `/` or `?`, that give no month without a year, and whose dates, year and month are literal (`Routes.Literal`). `MonthWithoutYearReadsAsYear`, `SlashInYearReadsAsMonth`, `QueryMarkInYearIsLost` and `UnencodedDatesCollide` show what goes wrong without the first four conditions.
- `Routes.ParseUrl` is a reference reader, not the Organizze API's routing and not the WHATWG URL parser that `fetch` applies. `Routes.Literal` keeps out of the arguments the characters whose rewriting it does not model: a fragment mark `#`, a percent-escape `%`, `+` read as a space in a query, a backslash (read as `/` in an https path), space and the C0 controls (tab, line feed and carriage return are deleted, trailing ones stripped), and the dot segments `.` and `..`. What a real server does with a date such as `2024-01-01#x` or a year `2024\03` is not modelled. Other rewriting by the URL parser, such as percent-encoding of non-ASCII text in the path and query, is not modelled either.
- The MCP server object, its stdio transport and tool registration (src/index.ts:1-10, 61-62) are not modelled.
- The response type declarations in `src/models` are not modelled: they describe the API's JSON and carry no behaviour. They also constrain nothing at run time, so the body is a general `Json` value.
- `undefined` and an empty string are the same "not given" year or month, and `undefined` and 0 the same "not given" id, because the source tests them by truthiness. The model keeps only one of each pair.
