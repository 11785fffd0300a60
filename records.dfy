/**
 * The records exchanged with the transfer provider (transferwise.go:382-433).
 * Go's float64 amounts and rates are `real` here; uint64 identifiers are `nat`.
 */
module Records {

  datatype TransferDetails = TransferDetails(reference: string, transferPurpose: string, sourceOfFunds: string)

  /** A booked transfer waiting for the incoming payment. */
  datatype Transfer = Transfer(
    id: nat,
    profile: nat,
    targetAccount: nat,
    sourceAmount: real,
    rate: real,
    quoteUuid: string,
    sourceCurrency: string,
    targetCurrency: string,
    details: TransferDetails)

  /** Go's zero value `Transfer{}`. */
  const EmptyTransfer := Transfer(0, 0, 0, 0.0, 0.0, "", "", "", TransferDetails("", "", ""))

  datatype PaymentOption = PaymentOption(disabled: bool, payOut: string, sourceAmount: real)

  datatype QuoteDetail = QuoteDetail(
    id: string,
    rate: real,
    sourceAmount: real,
    sourceCurrency: string,
    targetCurrency: string,
    profile: nat,
    rateExpirationTime: string,
    paymentOptions: seq<PaymentOption>)

  datatype LiveRate = LiveRate(rate: real)

  datatype CreateTransferRequest = CreateTransferRequest(
    targetAccount: nat,
    quoteUuid: string,
    customerTransactionId: string,
    details: TransferDetails)

  datatype CreateQuoteRequest = CreateQuoteRequest(
    sourceCurrency: string,
    targetCurrency: string,
    sourceAmount: real,
    profile: nat)

  const ErrNoCurrentTransferFound := "error: no current transfer found, please create a transfer before proceeding"
  const ErrEnvVarMissingOrInvalid := "error: make sure env variables ENV, API_TOKEN are both provided and are valid"
}
