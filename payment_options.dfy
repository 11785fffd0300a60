/**
 * The payment-option loop of `getDetailByQuoteId` (transferwise.go:309-314): the quote adopts the
 * source amount of its first enabled bank-transfer option.
 */
module PaymentOptions {
  import opened Records

  const BankTransfer := "BANK_TRANSFER"

  predicate IsBankTransfer(o: PaymentOption) {
    !o.disabled && o.payOut == BankTransfer
  }

  /** Position of the first enabled bank-transfer option, or |opts| when there is none. */
  function FirstBankTransfer(opts: seq<PaymentOption>): (k: nat)
    ensures k <= |opts|
    ensures forall j :: 0 <= j < k ==> !IsBankTransfer(opts[j])
    ensures k < |opts| ==> IsBankTransfer(opts[k])
  {
    if |opts| == 0 then 0
    else if IsBankTransfer(opts[0]) then 0
    else 1 + FirstBankTransfer(opts[1..])
  }

  /** The quote as `getDetailByQuoteId` hands it on. */
  function WithBankTransferAmount(q: QuoteDetail): QuoteDetail {
    var k := FirstBankTransfer(q.paymentOptions);
    if k < |q.paymentOptions| then q.(sourceAmount := q.paymentOptions[k].sourceAmount) else q
  }

  /**
   * The loop itself: scan the options in order, overwrite the source amount at the first match
   * and stop. Only the source amount can change.
   */
  method SelectBankTransferOption(q: QuoteDetail) returns (r: QuoteDetail)
    ensures r == WithBankTransferAmount(q)
    ensures r == q.(sourceAmount := r.sourceAmount)
    ensures forall i :: 0 <= i < |q.paymentOptions| && IsBankTransfer(q.paymentOptions[i]) &&
                        (forall j :: 0 <= j < i ==> !IsBankTransfer(q.paymentOptions[j])) ==>
                          r.sourceAmount == q.paymentOptions[i].sourceAmount
    ensures (forall i :: 0 <= i < |q.paymentOptions| ==> !IsBankTransfer(q.paymentOptions[i])) ==> r == q
  {
    r := q;
    for i := 0 to |q.paymentOptions|
      invariant r == q
      invariant forall j :: 0 <= j < i ==> !IsBankTransfer(q.paymentOptions[j])
    {
      var option := q.paymentOptions[i];
      if !option.disabled && option.payOut == BankTransfer {
        r := r.(sourceAmount := option.sourceAmount);
        break;
      }
    }
  }
}
