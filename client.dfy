/**
 * The job's side of every provider call, and the run that ties them together
 * (transferwise.go:85-110, 149-317). Each method is tied to a specification function of the
 * provider's state on entry: what it returns (`...Of`) and which requests it sends (`...Requests`).
 */
module Client {
  import opened Results
  import opened Records
  import opened Paths
  import opened Selection
  import opened PaymentOptions
  import opened Decision
  import opened Config
  import opened TransferApi

  /** The query of the transfer listing. */
  const ListLimit := 3
  const ListOffset := 0
  const PendingStatus := "incoming_payment_waiting"

  const ListError := "error GET transfer list API: "
  const LiveRateError := "error GET live rate API: "
  const QuoteError := "error POST quote API: "
  const DetailError := "error GET quote detail API: "
  const CreateError := "error POST create transfer API: "
  const CancelError := "error PUT cancel transfer API: "
  const BookedPrefix := "getBookedTransfer: "
  const CreatePrefix := "createTransfer: "
  /** Stands for the index-out-of-range panic on an empty live-rate list. */
  const ErrEmptyLiveRate := "error: empty live rate response"

  const ListRequest := ListTransfersRequest(ListLimit, ListOffset, PendingStatus)

  // ---------------------------------------------------------------------------------------------
  // Specification functions over the provider's state

  ghost function QuoteDetailOf(p: Provider, quoteUuid: string): Result<QuoteDetail>
    reads p`quotes, p`failing
  {
    match p.QuoteDetailAnswer(QuoteDetailPath(quoteUuid))
    case Err(m) => Err(DetailError + m)
    case Ok(d) => Ok(WithBankTransferAmount(d))
  }

  /** The listed transfers `getBookedTransfer` chooses among. */
  ghost function Listed(p: Provider): Result<seq<Transfer>>
    reads p`transfers, p`order, p`nextId, p`quotes, p`nextQuote, p`failing
    requires p.Valid()
  {
    p.ListAnswer(ListLimit, ListOffset)
  }

  ghost function BookedTransferOf(p: Provider): Result<Transfer>
    reads p`transfers, p`order, p`nextId, p`quotes, p`nextQuote, p`failing
    requires p.Valid()
  {
    match Listed(p)
    case Err(m) => Err(ListError + m)
    case Ok(ts) =>
      if ts == [] then Err(ErrNoCurrentTransferFound)
      else
        var best := ts[BestIndex(ts, |ts|)];
        match QuoteDetailOf(p, best.quoteUuid)
        case Err(m) => Err(BookedPrefix + m)
        case Ok(d) => Ok(best.(sourceAmount := d.sourceAmount, profile := d.profile))
  }

  ghost function BookedTransferRequests(p: Provider): seq<Request>
    reads p`transfers, p`order, p`nextId, p`quotes, p`nextQuote, p`failing
    requires p.Valid()
  {
    match Listed(p)
    case Ok(ts) =>
      if ts == [] then [ListRequest]
      else [ListRequest, QuoteDetailRequest(QuoteDetailPath(ts[BestIndex(ts, |ts|)].quoteUuid))]
    case Err(_) => [ListRequest]
  }

  ghost function LiveRateOf(p: Provider, source: string, target: string): Result<real>
    reads p`rates, p`failing
  {
    match p.LiveRateAnswer(source, target)
    case Err(m) => Err(LiveRateError + m)
    case Ok(rs) => if rs == [] then Err(ErrEmptyLiveRate) else Ok(rs[0].rate)
  }

  /** Whether the live rate is fetched at all: only for a usable booked transfer. */
  predicate Usable(booked: Result<Transfer>) {
    booked.Ok? && booked.value != EmptyTransfer
  }

  ghost function ComparisonOf(p: Provider, margin: string, parseFloat: string -> Result<real>): Comparison
    reads p`transfers, p`order, p`nextId, p`quotes, p`nextQuote, p`rates, p`failing
    requires p.Valid()
  {
    var booked := BookedTransferOf(p);
    var live := if Usable(booked)
      then LiveRateOf(p, booked.value.sourceCurrency, booked.value.targetCurrency)
      else Err(NilError);
    Decide(booked, live, parseFloat(margin))
  }

  ghost function ComparisonRequests(p: Provider): seq<Request>
    reads p`transfers, p`order, p`nextId, p`quotes, p`nextQuote, p`failing
    requires p.Valid()
  {
    var booked := BookedTransferOf(p);
    BookedTransferRequests(p) +
      if Usable(booked) then [LiveRateRequest(booked.value.sourceCurrency, booked.value.targetCurrency)] else []
  }

  /** The quote request for rebooking a transfer: same pair, amount and profile. */
  function QuoteRequestFor(t: Transfer): CreateQuoteRequest {
    CreateQuoteRequest(t.sourceCurrency, t.targetCurrency, t.sourceAmount, t.profile)
  }

  /** The creation request for rebooking a transfer under a new quote. */
  function TransferRequestFor(t: Transfer, quoteId: string, txId: string): CreateTransferRequest {
    CreateTransferRequest(t.targetAccount, quoteId, txId, t.details)
  }

  ghost function RebookOf(p: Provider, previous: Transfer, txId: string): Result<Transfer>
    reads p`nextId, p`nextQuote, p`rates, p`failing
  {
    match p.QuoteAnswer(QuoteRequestFor(previous))
    case Err(m) => Err(CreatePrefix + QuoteError + m)
    case Ok(q) =>
      if CreateTransferEndpoint in p.failing then Err(CreateError + p.failing[CreateTransferEndpoint])
      else
        var created := TransferFromQuote(p.nextId, q, TransferRequestFor(previous, q.id, txId));
        Ok(created.(sourceAmount := previous.sourceAmount))
  }

  ghost function RebookRequests(p: Provider, previous: Transfer, txId: string): seq<Request>
    reads p`nextQuote, p`rates, p`failing
  {
    var quote := QuoteRequest(QuoteRequestFor(previous));
    match p.QuoteAnswer(QuoteRequestFor(previous))
    case Err(_) => [quote]
    case Ok(q) =>
      [quote, TransferRequest(TransferRequestFor(previous, q.id, txId))] +
        if CreateTransferEndpoint in p.failing then [] else [CancelRequest(CancelPath(previous.id))]
  }

  /** The transfer the provider books when rebooking `previous`, if it books one. */
  ghost function RebookCreated(p: Provider, previous: Transfer, txId: string): Option<Transfer>
    reads p`nextId, p`nextQuote, p`rates, p`failing
  {
    match p.QuoteAnswer(QuoteRequestFor(previous))
    case Err(_) => None
    case Ok(q) =>
      if CreateTransferEndpoint in p.failing then None
      else Some(TransferFromQuote(p.nextId, q, TransferRequestFor(previous, q.id, txId)))
  }

  /** Whether the cancel of `oldId` that follows the creation of `created` is accepted. */
  predicate CancelAccepted(transfers: map<nat, Transfer>, created: Option<Transfer>, cancelFails: bool, oldId: nat) {
    created.Some? && !cancelFails && oldId in transfers[created.value.id := created.value]
  }

  /** The provider's quotes after a quote request answered with `quote`. */
  function QuotesAfterRebook(quotes: map<string, QuoteDetail>, quote: Result<QuoteDetail>): map<string, QuoteDetail> {
    if quote.Ok? then quotes[quote.value.id := quote.value] else quotes
  }

  /** The pending transfers after booking `created`, if any, and then cancelling `oldId`. */
  function TransfersAfterRebook(transfers: map<nat, Transfer>, created: Option<Transfer>, cancelFails: bool, oldId: nat)
    : map<nat, Transfer>
  {
    match created
    case None => transfers
    case Some(t) =>
      var booked := transfers[t.id := t];
      if CancelAccepted(transfers, created, cancelFails, oldId) then booked - {oldId} else booked
  }

  /** The listing order after booking `created`, if any, and then cancelling `oldId`. */
  function OrderAfterRebook(order: seq<nat>, transfers: map<nat, Transfer>, created: Option<Transfer>,
                            cancelFails: bool, oldId: nat): seq<nat>
  {
    match created
    case None => order
    case Some(t) =>
      if CancelAccepted(transfers, created, cancelFails, oldId) then Without([t.id] + order, oldId) else [t.id] + order
  }

  // ---------------------------------------------------------------------------------------------
  // Properties of the specification functions

  /**
   * A booked transfer is the first listed transfer of greatest rate, with its source amount and
   * profile taken from its quote; it is booked whenever the listing is non-empty and that quote is
   * found, and an empty listing is the dedicated error.
   */
  lemma BookedTransferIsBest(p: Provider)
    requires p.Valid()
    ensures BookedTransferOf(p).Ok? ==>
      && Listed(p).Ok? && Listed(p).value != []
      && (forall t :: t in Listed(p).value ==> t.rate <= BookedTransferOf(p).value.rate)
      && exists k :: IsFirstBest(Listed(p).value, k) && QuoteDetailOf(p, Listed(p).value[k].quoteUuid).Ok? &&
           var d := QuoteDetailOf(p, Listed(p).value[k].quoteUuid).value;
           BookedTransferOf(p).value == Listed(p).value[k].(sourceAmount := d.sourceAmount, profile := d.profile)
    ensures forall k ::
      Listed(p).Ok? && IsFirstBest(Listed(p).value, k) && QuoteDetailOf(p, Listed(p).value[k].quoteUuid).Ok?
      ==> BookedTransferOf(p).Ok?
    ensures Listed(p) == Ok([]) ==> BookedTransferOf(p) == Err(ErrNoCurrentTransferFound)
    ensures Listed(p).Err? ==> BookedTransferOf(p).Err? && ListError <= BookedTransferOf(p).msg
    ensures Listed(p).Ok? && Listed(p).value != [] && BookedTransferOf(p).Err? ==>
      BookedPrefix + DetailError <= BookedTransferOf(p).msg
  {
    match Listed(p)
    case Err(m) =>
    case Ok(ts) =>
      if ts != [] {
        var k := BestIndex(ts, |ts|);
        BestIndexIsFirstBest(ts, |ts|);
        assert ts[..|ts|] == ts;
        forall k' | IsFirstBest(ts, k')
          ensures k' == k
        {
          FirstBestIsUnique(ts, k', k);
        }
        match QuoteDetailOf(p, ts[k].quoteUuid)
        case Err(m) =>
        case Ok(d) =>
          assert IsFirstBest(ts, k);
      }
  }

  /** Comparing rates only reads: it sends no quote, creation or cancel request. */
  lemma ComparisonIsReadOnly(p: Provider)
    requires p.Valid()
    ensures ReadOnly(ComparisonRequests(p))
    ensures Listed(p) == Ok([]) ==> ComparisonRequests(p) == [ListRequest]
  {
  }

  /**
   * Rebooking keeps the old transfer's account, details, currency pair, profile and source
   * amount, and books at the rate of the new quote.
   */
  lemma RebookInherits(p: Provider, previous: Transfer, txId: string)
    requires RebookOf(p, previous, txId).Ok?
    ensures var t := RebookOf(p, previous, txId).value;
      && t.targetAccount == previous.targetAccount && t.details == previous.details
      && t.sourceCurrency == previous.sourceCurrency && t.targetCurrency == previous.targetCurrency
      && t.profile == previous.profile && t.sourceAmount == previous.sourceAmount
      && t.id == p.nextId
      && t.quoteUuid == QuoteId(p.nextQuote)
      && t.rate == p.rates[(previous.sourceCurrency, previous.targetCurrency)][0].rate
  {
  }

  /**
   * Rebooking a pending transfer leaves the new transfer pending and listed first. The old
   * transfer is gone when the cancel is accepted and still pending when it is not, and a failed
   * rebook books nothing.
   */
  lemma RebookReplaces(p: Provider, previous: Transfer, txId: string)
    requires p.Valid() && previous.id in p.transfers
    ensures var created := RebookCreated(p, previous, txId);
      var fails := CancelTransferEndpoint in p.failing;
      var transfers := TransfersAfterRebook(p.transfers, created, fails, previous.id);
      var order := OrderAfterRebook(p.order, p.transfers, created, fails, previous.id);
      && (RebookOf(p, previous, txId).Ok? <==> created.Some?)
      && (RebookOf(p, previous, txId).Ok? ==>
            var t := RebookOf(p, previous, txId).value;
            && t.id !in p.transfers && t.id in transfers && transfers[t.id] == t
            && order != [] && order[0] == t.id
            && (previous.id in transfers <==> fails))
      && (RebookOf(p, previous, txId).Err? ==> transfers == p.transfers && order == p.order)
  {
    var created := RebookCreated(p, previous, txId);
    var fails := CancelTransferEndpoint in p.failing;
    match created
    case None =>
    case Some(t) =>
      assert t.id == p.nextId && previous.id < p.nextId;
      if CancelAccepted(p.transfers, created, fails, previous.id) {
        assert Without([t.id] + p.order, previous.id) == [t.id] + Without(p.order, previous.id);
      }
  }

  /**
   * A cancel is sent exactly when the new transfer was created, then exactly once, last, and for
   * the old transfer's id.
   */
  lemma CancelFollowsCreation(p: Provider, previous: Transfer, txId: string)
    ensures var rs := RebookRequests(p, previous, txId);
      RebookOf(p, previous, txId).Ok? <==> rs[|rs| - 1] == CancelRequest(CancelPath(previous.id))
    ensures var rs := RebookRequests(p, previous, txId);
      forall i :: 0 <= i < |rs| - 1 ==> !rs[i].CancelRequest?
    ensures var rs := RebookRequests(p, previous, txId);
      forall i :: 0 <= i < |rs| && rs[i].CancelRequest? ==> ParseCancelPath(rs[i].path) == Some(previous.id)
  {
    CancelPathRoundTrip(previous.id);
  }

  /** Three requests appended one at a time form one block of three. */
  lemma AppendThree(log: seq<Request>, a: Request, b: Request, c: Request)
    ensures log + [a] + [b] + [c] == log + [a, b, c]
  {
  }

  // ---------------------------------------------------------------------------------------------
  // The job's calls

  method GetDetailByQuoteId(p: Provider, quoteUuid: string) returns (r: Result<QuoteDetail>)
    modifies p`requests
    ensures p.requests == old(p.requests) + [QuoteDetailRequest(QuoteDetailPath(quoteUuid))]
    ensures r == old(QuoteDetailOf(p, quoteUuid))
  {
    var answer := p.GetQuoteDetail(QuoteDetailPath(quoteUuid));
    if answer.Err? {
      return Err(DetailError + answer.msg);
    }
    var quoteDetail := SelectBankTransferOption(answer.value);
    return Ok(quoteDetail);
  }

  method GetBookedTransfer(p: Provider) returns (r: Result<Transfer>)
    requires p.Valid()
    modifies p`requests
    ensures p.requests == old(p.requests + BookedTransferRequests(p))
    ensures r == old(BookedTransferOf(p))
  {
    var listing := p.ListTransfers(ListLimit, ListOffset, PendingStatus);
    if listing.Err? {
      return Err(ListError + listing.msg);
    }
    var transfersList := listing.value;
    if |transfersList| == 0 {
      return Err(ErrNoCurrentTransferFound);
    }
    var bookedTransfer := FindBestTransfer(transfersList);
    var quoteDetail := GetDetailByQuoteId(p, bookedTransfer.quoteUuid);
    if quoteDetail.Err? {
      return Err(BookedPrefix + quoteDetail.msg);
    }
    bookedTransfer := bookedTransfer.(sourceAmount := quoteDetail.value.sourceAmount);
    bookedTransfer := bookedTransfer.(profile := quoteDetail.value.profile);
    return Ok(bookedTransfer);
  }

  method GetLiveRate(p: Provider, source: string, target: string) returns (r: Result<real>)
    modifies p`requests
    ensures p.requests == old(p.requests) + [LiveRateRequest(source, target)]
    ensures r == old(LiveRateOf(p, source, target))
  {
    var answer := p.GetLiveRate(source, target);
    if answer.Err? {
      return Err(LiveRateError + answer.msg);
    }
    if answer.value == [] {
      return Err(ErrEmptyLiveRate);
    }
    return Ok(answer.value[0].rate);
  }

  /** `parseFloat` stands for `strconv.ParseFloat(margin, 64)`. */
  method CompareRates(p: Provider, margin: string, parseFloat: string -> Result<real>) returns (c: Comparison)
    requires p.Valid()
    modifies p`requests
    ensures p.requests == old(p.requests + ComparisonRequests(p))
    ensures c == old(ComparisonOf(p, margin, parseFloat))
  {
    ghost var expected := ComparisonOf(p, margin, parseFloat);
    ghost var requests0, bookedRequests := p.requests, BookedTransferRequests(p);
    ghost var expectedRequests := ComparisonRequests(p);
    var bookedTransfer := GetBookedTransfer(p);
    if !Usable(bookedTransfer) {
      assert expectedRequests == bookedRequests + [];
      assert bookedRequests + [] == bookedRequests;
    }
    if bookedTransfer.Err? {
      assert expected == CompareFailure(bookedTransfer.msg);
      return CompareFailure(bookedTransfer.msg);
    }
    if bookedTransfer.value == EmptyTransfer {
      assert expected == CompareFailure(NilError);
      return CompareFailure(NilError);
    }
    var booked := bookedTransfer.value;
    var liveRate := GetLiveRate(p, booked.sourceCurrency, booked.targetCurrency);
    ghost var liveRequest := LiveRateRequest(booked.sourceCurrency, booked.targetCurrency);
    assert expectedRequests == bookedRequests + [liveRequest];
    assert p.requests == requests0 + (bookedRequests + [liveRequest]);
    assert expected == Decide(bookedTransfer, liveRate, parseFloat(margin));
    if liveRate.Err? {
      assert expected == CompareFailure(liveRate.msg);
      return CompareFailure(liveRate.msg);
    }
    if liveRate.value == 0.0 {
      assert expected == CompareFailure(NilError);
      return CompareFailure(NilError);
    }
    var marginRate := parseFloat(margin);
    if marginRate.Err? {
      assert expected == CompareFailure(marginRate.msg);
      return CompareFailure(marginRate.msg);
    }
    if ShouldRebook(booked.rate, liveRate.value, marginRate.value) {
      return Comparison(true, booked, 0.0, None);
    }
    return Comparison(false, booked, liveRate.value, None);
  }

  method GenerateQuote(p: Provider, source: string, target: string, sourceAmount: real, profile: nat)
    returns (r: Result<string>)
    requires p.Valid()
    modifies p`requests, p`quotes, p`nextQuote
    ensures p.Valid()
    ensures var req := CreateQuoteRequest(source, target, sourceAmount, profile);
      && p.requests == old(p.requests) + [QuoteRequest(req)]
      && (old(p.QuoteAnswer(req)).Err? ==> r == Err(QuoteError + old(p.QuoteAnswer(req)).msg) && p.quotes == old(p.quotes))
      && (old(p.QuoteAnswer(req)).Ok? ==>
            var q := old(p.QuoteAnswer(req)).value;
            r == Ok(q.id) && q.id !in old(p.quotes) && p.quotes == old(p.quotes)[q.id := q])
  {
    var quoteRequest := CreateQuoteRequest(source, target, sourceAmount, profile);
    var quote := p.CreateQuote(quoteRequest);
    if quote.Err? {
      return Err(QuoteError + quote.msg);
    }
    return Ok(quote.value.id);
  }

  /** Cancelled exactly when the provider accepted the cancel (status 200). */
  method CancelTransfer(p: Provider, transferId: nat) returns (cancelled: bool, err: Option<string>)
    requires p.Valid()
    modifies p`requests, p`transfers, p`order
    ensures p.Valid()
    ensures p.requests == old(p.requests) + [CancelRequest(CancelPath(transferId))]
    ensures cancelled <==> CancelTransferEndpoint !in p.failing && transferId in old(p.transfers)
    ensures cancelled ==> err == None && p.transfers == old(p.transfers) - {transferId}
                          && p.order == Without(old(p.order), transferId)
    ensures !cancelled ==> err.Some? && CancelError <= err.value
                           && p.transfers == old(p.transfers) && p.order == old(p.order)
  {
    var path := ReplaceFirst(CancelTransferApiPath, TransferIdPlaceholder, Decimal(transferId));
    CancelPathRoundTrip(transferId);
    var answer := p.Cancel(path);
    if answer.Err? {
      return false, Some(CancelError + answer.msg);
    }
    return true, None;
  }

  /**
   * Rebooks `previous`: a new quote for the same pair, amount and profile, a new transfer under it,
   * then a cancel of the old transfer whose failure is only logged. `txId` is the fresh random
   * customer transaction id.
   */
  method CreateTransfer(p: Provider, previous: Transfer, txId: string) returns (r: Result<Transfer>)
    requires p.Valid()
    modifies p`requests, p`quotes, p`nextQuote, p`transfers, p`order, p`nextId
    ensures p.Valid()
    ensures r == old(RebookOf(p, previous, txId))
    ensures p.requests == old(p.requests + RebookRequests(p, previous, txId))
    ensures p.quotes == old(QuotesAfterRebook(p.quotes, p.QuoteAnswer(QuoteRequestFor(previous))))
    ensures p.transfers ==
      TransfersAfterRebook(old(p.transfers), old(RebookCreated(p, previous, txId)), CancelTransferEndpoint in p.failing,
                           previous.id)
    ensures p.order ==
      OrderAfterRebook(old(p.order), old(p.transfers), old(RebookCreated(p, previous, txId)),
                       CancelTransferEndpoint in p.failing, previous.id)
  {
    ghost var created := RebookCreated(p, previous, txId);
    ghost var transfers0, requests0 := p.transfers, p.requests;
    ghost var rebookRequests := RebookRequests(p, previous, txId);
    ghost var quote := p.QuoteAnswer(QuoteRequestFor(previous));
    assert QuoteRequestFor(previous) ==
      CreateQuoteRequest(previous.sourceCurrency, previous.targetCurrency, previous.sourceAmount, previous.profile);
    ghost var quotesAfter := QuotesAfterRebook(p.quotes, quote);
    var quoteId := GenerateQuote(p, previous.sourceCurrency, previous.targetCurrency,
                                 previous.sourceAmount, previous.profile);
    assert p.quotes == quotesAfter;
    if quoteId.Err? {
      return Err(CreatePrefix + quoteId.msg);
    }
    var createRequest := CreateTransferRequest(previous.targetAccount, quoteId.value, txId, previous.details);
    assert createRequest == TransferRequestFor(previous, quoteId.value, txId);
    var response := p.CreateTransfer(createRequest);
    assert p.quotes == quotesAfter;
    assert p.requests == requests0 + [QuoteRequest(QuoteRequestFor(previous))] + [TransferRequest(createRequest)];
    if response.Err? {
      assert created.None?;
      return Err(CreateError + response.msg);
    }
    var newTransfer := response.value.(sourceAmount := previous.sourceAmount);
    var cancelResult, err := CancelTransfer(p, previous.id);
    assert p.quotes == quotesAfter;
    AppendThree(requests0, QuoteRequest(QuoteRequestFor(previous)), TransferRequest(createRequest),
                CancelRequest(CancelPath(previous.id)));
    assert p.requests == requests0 + rebookRequests;
    assert cancelResult == CancelAccepted(transfers0, created, CancelTransferEndpoint in p.failing, previous.id);
    return Ok(newTransfer);
  }

  /** What one run logs. */
  datatype RunOutcome =
    | RunFailed(msg: string)
    | NoActionNeeded(liveRate: real, transfer: Transfer)
    | NewTransferBooked(transfer: Transfer)

  /**
   * One run: without a host or a token nothing is sent; otherwise the rates are compared and the
   * transfer is rebooked only on a positive decision.
   */
  method CheckAndProcess(p: Provider, settings: Settings, parseFloat: string -> Result<real>, txId: string)
    returns (out: RunOutcome)
    requires p.Valid()
    modifies p`requests, p`quotes, p`nextQuote, p`transfers, p`order, p`nextId
    ensures p.Valid()
    ensures settings.host == "" || settings.apiToken == "" ==>
      out == RunFailed(ErrEnvVarMissingOrInvalid) && p.requests == old(p.requests)
      && p.transfers == old(p.transfers) && p.quotes == old(p.quotes) && p.order == old(p.order)
    ensures settings.host != "" && settings.apiToken != "" ==>
      var c := old(ComparisonOf(p, settings.margin, parseFloat));
      && (c.err.Some? ==> out == RunFailed(c.err.value))
      && (c.err.None? && !c.rebook ==> out == NoActionNeeded(c.liveRate, c.transfer))
    ensures settings.host != "" && settings.apiToken != "" ==>
      var c := old(ComparisonOf(p, settings.margin, parseFloat));
      !c.rebook ==>
        && p.requests == old(p.requests) + old(ComparisonRequests(p))
        && p.transfers == old(p.transfers) && p.quotes == old(p.quotes) && p.order == old(p.order)
    ensures settings.host != "" && settings.apiToken != "" ==>
      var c := old(ComparisonOf(p, settings.margin, parseFloat));
      c.rebook ==>
        && p.requests == old(p.requests) + old(ComparisonRequests(p)) + old(RebookRequests(p, c.transfer, txId))
        && out == match old(RebookOf(p, c.transfer, txId))
                  case Ok(t) => NewTransferBooked(t)
                  case Err(m) => RunFailed(m)
    ensures settings.host != "" && settings.apiToken != "" ==>
      var c := old(ComparisonOf(p, settings.margin, parseFloat));
      c.rebook ==>
        && p.quotes == QuotesAfterRebook(old(p.quotes), old(p.QuoteAnswer(QuoteRequestFor(c.transfer))))
        && var created := old(RebookCreated(p, c.transfer, txId));
           var fails := CancelTransferEndpoint in p.failing;
           && p.transfers == TransfersAfterRebook(old(p.transfers), created, fails, c.transfer.id)
           && p.order == OrderAfterRebook(old(p.order), old(p.transfers), created, fails, c.transfer.id)
  {
    if settings.host == "" || settings.apiToken == "" {
      return RunFailed(ErrEnvVarMissingOrInvalid);
    }
    var comparison := CompareRates(p, settings.margin, parseFloat);
    if comparison.err.Some? {
      return RunFailed(comparison.err.value);
    }
    if !comparison.rebook {
      return NoActionNeeded(comparison.liveRate, comparison.transfer);
    }
    var newTransfer := CreateTransfer(p, comparison.transfer, txId);
    if newTransfer.Err? {
      return RunFailed(newTransfer.msg);
    }
    return NewTransferBooked(newTransfer.value);
  }
}
