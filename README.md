# transferwisely: verified model of the rate-watch and rebooking job

The job watches a transfer booked with a money-transfer provider. On each run it lists the
transfers waiting for their incoming payment and picks the one with the best locked rate. It
fetches the live rate for that currency pair and compares the two against a configured margin.
When the live rate is better by at least the margin, it books the same transfer again at the new
rate: it asks for a new quote, creates a new transfer under it, and cancels the old transfer.

This project models that core of `transferwise.go` in Dafny and proves its contracts:

- `Records`: the transfer, quote, payment-option and request records.
- `Selection`: `findBestTransfer`, the first transfer of greatest rate.
- `PaymentOptions`: the loop that adopts the amount of the first enabled bank-transfer option.
- `Decision`: the rebook rule of `compareRates` and its error exits.
- `Config`: `getHost` (case-insensitive), `getEnv` (fallback only when unset) and the settings.
- `Paths`: the API paths, decimal formatting of ids, `strings.Replace(…, 1)` and the cancel path.
- `TransferApi`: the provider as an object. It holds the pending transfers by id, the quotes and
  the live rates, and a log of every request it receives. An endpoint can be marked failing, and
  it then answers every request with an error text.
- `Client`: the job's calls (`getBookedTransfer`, `getLiveRate`, `getDetailByQuoteId`,
  `generateQuote`, `createTransfer`, `cancelTransfer`, `compareRates`) and one run
  (`checkAndProcess`). Each method is tied to a specification function of the provider's state
  on entry, and lemmas state what those functions promise.

Two behaviours of the code that are easy to misread:

- `getLiveRate` does not reject a zero rate itself. It returns it, and `compareRates` turns a
  zero rate into the error `compareRates: <nil>` (transferwise.go:157-158).
- The expiry reminder does not stop on a lookup or parse error (transferwise.go:116-128). It is
  not part of this model.

The provider is a model of a remote service, not of code in the repository. Its behaviour rests on
these assumptions:

- It lists pending transfers in a fixed order. A new transfer is listed first.
- A new quote takes the first live rate for its currency pair and a fresh id `quote-<n>`.
- An unknown transfer or quote is answered with `404 : <nil>`. A quote for a pair without a rate
  is answered with `400 : <nil>`. The live-rate endpoint answers such a pair with an empty list.
- A failing endpoint changes nothing at the provider. In particular, a failed creation leaves no
  new transfer, so `TransferApi.Provider.CreateTransfer` and `Client.CreateTransfer` state that
  nothing was booked. The real service can act and still fail the call. A creation answered with
  200 whose body does not decode (transferwise.go:242-246) can leave a new transfer open. So can a
  timeout after the provider acted (transferwise.go:327-330). `createTransfer` then returns an
  error and sends no cancel, which leaves two transfers open.
- A transfer created from a quote takes the quote's currency pair, profile, rate and source
  amount (`TransferApi.TransferFromQuote`). The job itself sends only the target account, the
  quote id, the transaction id and the details (transferwise.go:228-233), and it sets the source
  amount afterwards (transferwise.go:247). The pair, profile and rate that
  `Client.RebookInherits` states hold because of this assumption.

## Model

| member | source | states |
|---|---|---|
| `Selection.BestIndex` | transferwise.go:342-346 | the candidate position after visiting n transfers is one of the first n |
| `Selection.BestIndexIsFirstBest` | transferwise.go:341-348 | that position holds a greatest rate, and every earlier transfer has a strictly smaller rate (ties keep the first) |
| `Selection.FirstBestIsUnique` | transferwise.go:343 | at most one position is a first maximum, so the strict `<` fully determines the choice |
| `Selection.FindBestTransfer` | transferwise.go:341-348 | for a non-empty list, returns the first transfer of greatest rate; for an empty list, the zero transfer |
| `PaymentOptions.FirstBankTransfer` | transferwise.go:309-310 | the first enabled `BANK_TRANSFER` option: every earlier option fails the test, and the result is \|opts\| when none passes |
| `PaymentOptions.SelectBankTransferOption` | transferwise.go:309-316 | the source amount becomes that of the first enabled bank-transfer option, or stays unchanged when none matches; no other quote field changes |
| `Decision.ShouldRebook` | transferwise.go:167 | a rebook is always a strict improvement of the rate, even with a negative margin |
| `Decision.Decide` | transferwise.go:149-172 | an error (false, empty transfer, rate 0, message prefixed `compareRates: `) iff the booked transfer failed or is empty, the live rate failed or is 0, or the margin does not parse; otherwise rebook iff live > booked and live - booked >= margin, with rate 0 when rebooking and the observed live rate when not |
| `Decision.NonPositiveMarginNeedsOnlyImprovement` | transferwise.go:167 | with a margin of at most 0, a rebook happens exactly on a strict improvement; equal rates never rebook |
| `Decision.PositiveMarginIsTheThreshold` | transferwise.go:167 | with a positive margin, a rebook happens exactly when the live rate beats the booked one by at least the margin |
| `Decision.RebookIsMonotone` | transferwise.go:167 | a higher live rate or a smaller margin keeps a rebook decision |
| `Decision.DecideExamples` | transferwise.go:166-171 | booked 1.10: live 1.10 with margin 0 and live 1.115 with margin 0.02 give no action; live 1.12 with margin 0.01 rebooks |
| `Config.ToLower` | transferwise.go:364 | lower-cases each character independently and keeps the length |
| `Config.ToLowerIsWord` | transferwise.go:364 | lowering gives a lower-case word exactly when the text spells that word in any mix of cases |
| `Config.GetHost` | transferwise.go:363-372 | any spelling of "sandbox" in any case gives the sandbox host, any spelling of "production" gives the production host, and everything else gives "" |
| `Config.GetHostIgnoresCase` | transferwise.go:363-372 | lowering ENV first does not change the host |
| `Config.GetEnv` | transferwise.go:374-380 | a set variable's value is returned even when it is empty; the fallback is used only when the variable is unset |
| `Config.LoadSettings` | transferwise.go:62-70 | ENV, API_TOKEN, MARGIN and INTERVAL take the environment's value whenever it is set; otherwise ENV and API_TOKEN are empty and MARGIN and INTERVAL are "0" and "1"; the host is the one ENV spells, and an unset ENV disables every call |
| `Paths.Decimal` | transferwise.go:258 | the base-10 text of an id is a non-empty run of digits without a leading zero |
| `Paths.DecimalRoundTrip` | transferwise.go:258 | reading the digits back gives the id |
| `Paths.ReplaceFirst` | transferwise.go:258 | replacing with count 1 either leaves the text unchanged or replaces exactly one occurrence: the length changes by the difference of replacement and pattern |
| `Paths.ReplaceFirstAt` | transferwise.go:258 | replacing with count 1 changes exactly the first occurrence of the pattern |
| `Paths.ReplaceFirstAbsent` | transferwise.go:258 | a text without the pattern is unchanged |
| `Paths.CancelPath` | transferwise.go:257-258 | the cancel path is exactly `v1/transfers/` + decimal(id) + `/cancel` |
| `Paths.CancelPathRoundTrip` | transferwise.go:257-260 | the cancel path names the transfer it was built for |
| `Paths.QuoteDetailPath` | transferwise.go:295 | the quote-detail path names the quote it was built for |
| `TransferApi.Provider.Listing` | transferwise.go:175-178 | the listing returns `limit` pending transfers, or all those after `offset` when fewer remain, taken in order from `offset` |
| `TransferApi.Provider.ListTransfers` | transferwise.go:175-178 | the listing call is recorded with its limit, offset and status; the answer is the endpoint's error or the page `Listing` gives |
| `TransferApi.Provider.GetLiveRate` | transferwise.go:205-208 | the live-rate call is recorded with its pair; the answer is the endpoint's error, the pair's rates, or an empty list for a pair without rates |
| `TransferApi.Provider.GetQuoteDetail` | transferwise.go:295-298 | the detail call is recorded with its path; the answer is the endpoint's error, the quote the path names, or `404 : <nil>` |
| `TransferApi.Provider.CreateQuote` | transferwise.go:277-291 | a successful quote is stored under an id no earlier quote has |
| `TransferApi.Provider.CreateTransfer` | transferwise.go:234-246 | a successful creation adds one pending transfer under a fresh id; a failed one changes nothing |
| `TransferApi.Provider.Cancel` | transferwise.go:260-264 | a successful cancel removes exactly the transfer named by the path; a failed one changes nothing |
| `Client.BookedTransferIsBest` | transferwise.go:189-201 | a booked transfer is the first listed transfer of greatest rate, with its source amount and profile replaced by those of its quote detail; a non-empty listing whose best transfer's quote is found always gives a booked transfer; an empty listing gives `ErrNoCurrentTransferFound`; a failed listing or detail lookup gives the prefixed error |
| `Client.ComparisonIsReadOnly` | transferwise.go:149-164 | comparing rates sends no quote, creation or cancel request, and an empty listing sends nothing after the listing |
| `Client.RebookInherits` | transferwise.go:222-247 | the new transfer keeps the old target account, details, currency pair, profile and source amount, and books at the new quote's rate; the pair, profile and rate come from the provider's assumed creation rule |
| `Client.RebookReplaces` | transferwise.go:222-255 | rebooking a pending transfer leaves the new transfer pending under a fresh id and listed first; the old transfer is gone exactly when the cancel endpoint does not fail; a failed rebook leaves the transfers and their order unchanged |
| `Client.CancelFollowsCreation` | transferwise.go:238-254 | a cancel is sent exactly when the creation succeeded, only once, last, and for the old transfer's id |
| `Client.GetDetailByQuoteId` | transferwise.go:294-317 | one quote-detail request; the result is the provider's quote with the bank-transfer amount adopted, or the prefixed error |
| `Client.GetBookedTransfer` | transferwise.go:174-202 | a listing request, plus a quote-detail request only for a non-empty listing; the result is the booked transfer of the provider's state |
| `Client.GetLiveRate` | transferwise.go:204-220 | one live-rate request; the first listed rate, or an error for a failed call or an empty list |
| `Client.CompareRates` | transferwise.go:149-172 | the requests sent and the comparison returned are those of the rule applied to the provider's answers, fetching the live rate only for a usable booked transfer |
| `Client.GenerateQuote` | transferwise.go:269-292 | one quote request carrying the pair, amount and profile; returns the new quote's id |
| `Client.CancelTransfer` | transferwise.go:257-267 | one request on the cancel path; true exactly when the provider accepted it, and then only that transfer is gone from the transfers and the listing order; otherwise both are unchanged |
| `Client.CreateTransfer` | transferwise.go:222-255 | quote, then creation with the old account, details and new quote id, then one cancel of the old id; the result carries the old source amount; a failed cancel leaves the new transfer and a successful result; a failed quote or creation sends no cancel; the provider's quotes, transfers and listing order become those of the rebook |
| `Client.CheckAndProcess` | transferwise.go:85-110 | without a host or a token no request is sent and nothing changes; otherwise the comparison decides: without a rebook only the comparison's requests are sent and the transfers, quotes and order stay; with a rebook the rebook's requests follow and the quotes, transfers and order become those of the rebook; the outcome is the error, the no-action report or the new transfer |

## Left out

- HTTP transport, request and header construction (including the bearer token), JSON and
  `mapstructure` decoding (transferwise.go:319-339). They are I/O and foreign library calls. A
  decoding failure is modelled as a failure of the endpoint. Its own message (`error decoding
  response: …`) is therefore not reproduced.
- `sendMail` and `sendExpiryReminderMail` (transferwise.go:113-147, 350-361). They need SMTP, the
  wall clock, RFC 3339 parsing and a floating-point hour count.
- The customer transaction id comes from `uuid.New()`, which is random. It is a parameter
  (`txId`) of `Client.CreateTransfer`.
- `strconv.ParseFloat`: its outcome is the parameter `parseFloat`.
- float64 rounding in rates, amounts and the margin test. They are `real`.
- Decision.Decide and Client.CompareRates: a margin that `strconv.ParseFloat` reads as NaN or
  infinity ("NaN", "Inf", "+Infinity" and so on, in any case) is outside the model, since the
  parsed margin is a `real`. In the code the test at transferwise.go:167 is then always false for
  NaN and +Inf, so the job never rebooks and reports no action. With -Inf it acts like any
  margin of zero or less and rebooks on any strict improvement.
- `getLiveRate` on an empty rate list: the code panics on `liveRate[0]`. The model returns the
  explicit error `ErrEmptyLiveRate` instead.
- uint64 width of transfer ids, profiles and accounts. They are `nat`, and no arithmetic is done
  on them.
- Config.ToLower: the model leaves every rune other than A-Z, U+0130 and U+212A unchanged. Go's
  `strings.ToLower` lowers some of them (for example 'Ä' to 'ä'), but always to runes outside
  ASCII, so `getHost` compares the same way.
- Log output. A run's log line is the `RunOutcome` value. The "Error deleting old transfer" line is
  not represented: the cancel's result is discarded, as in the code.
- The 10-second client timeout and the process-wide `Client` variable (transferwise.go:72-83).
- The `!result` test at transferwise.go:103 is always false at that point, so the model omits it.
