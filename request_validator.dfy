/**
 * The check the payment client runs on every request-to-pay before it is
 * sent: six rules in a fixed order, and the message of the first broken one.
 */
module RequestValidator {
  import opened Wrappers
  import opened Rules

  /** The party that pays: its identifier and the kind of identifier it is. */
  datatype Party = Party(partyId: Option<string>, partyIdType: Option<string>)

  /** The fields of a request-to-pay that the check looks at. */
  datatype PaymentRequest = PaymentRequest(amount: Option<string>, currency: Option<string>, payer: Option<Party>)

  const AMOUNT_REQUIRED := "amount is required"
  const AMOUNT_NOT_NUMBER := "amount must be a number"
  const CURRENCY_REQUIRED := "currency is required"
  const PAYER_REQUIRED := "payer is required"
  const PARTY_ID_REQUIRED := "payer.partyId is required"
  const PARTY_ID_TYPE_REQUIRED := "payer.partyIdType is required"

  /**
   * Whether the amount text is a number, kept conservative: a non-empty
   * string of decimal digits. It rejects "alphabetic" and accepts "1000".
   */
  predicate IsNumeric(amount: string) {
    |amount| > 0 && forall i :: 0 <= i < |amount| ==> '0' <= amount[i] <= '9'
  }

  /** The amount is set and is a number. */
  predicate IsNumericAmount(amount: Option<string>) {
    amount.Some? && IsNumeric(amount.value)
  }

  /** The rules, in the order they are checked. */
  function RequestToPayRules(request: PaymentRequest): seq<Rule> {
    [ Rule(Present(request.amount), AMOUNT_REQUIRED),
      Rule(IsNumericAmount(request.amount), AMOUNT_NOT_NUMBER),
      Rule(Present(request.currency), CURRENCY_REQUIRED),
      Rule(request.payer.Some?, PAYER_REQUIRED),
      Rule(request.payer.Some? && Present(request.payer.value.partyId), PARTY_ID_REQUIRED),
      Rule(request.payer.Some? && Present(request.payer.value.partyIdType), PARTY_ID_TYPE_REQUIRED) ]
  }

  /**
   * The request check. The client receives its outcome as a promise that
   * resolves or rejects; the check itself never waits on anything.
   */
  function ValidateRequestToPay(request: PaymentRequest): (r: Result)
    ensures r == FirstFailure(RequestToPayRules(request))
  {
    var rules := RequestToPayRules(request);
    if !Present(request.amount) then Err(AMOUNT_REQUIRED)
    else if !IsNumeric(request.amount.value) then Err(AMOUNT_NOT_NUMBER)
    else if !Present(request.currency) then
      FirstFailureReportsFirstBroken(rules, 2);
      Err(CURRENCY_REQUIRED)
    else if request.payer.None? then
      FirstFailureReportsFirstBroken(rules, 3);
      Err(PAYER_REQUIRED)
    else if !Present(request.payer.value.partyId) then
      FirstFailureReportsFirstBroken(rules, 4);
      Err(PARTY_ID_REQUIRED)
    else if !Present(request.payer.value.partyIdType) then
      FirstFailureReportsFirstBroken(rules, 5);
      Err(PARTY_ID_TYPE_REQUIRED)
    else Ok
  }

  /** A request passes exactly when every field the check looks at is given and the amount is a number. */
  lemma RequestToPayAccepts(request: PaymentRequest)
    ensures ValidateRequestToPay(request) == Ok <==>
      && Present(request.amount) && IsNumeric(request.amount.value)
      && Present(request.currency)
      && request.payer.Some?
      && Present(request.payer.value.partyId) && Present(request.payer.value.partyIdType)
  {
  }

  /** Once a rule is broken, no later rule's message is reported. */
  lemma RequestToPayNeverReportsLater(request: PaymentRequest, i: int, j: int)
    requires 0 <= i < j < 6 && !RequestToPayRules(request)[i].holds
    ensures ValidateRequestToPay(request) != Err(RequestToPayRules(request)[j].message)
  {
    FirstFailureNeverReportsLater(RequestToPayRules(request), i, j);
  }

  /** A missing payer is reported as such, never as a missing field of the payer. */
  lemma MissingPayerReportedAsPayer(request: PaymentRequest)
    requires Present(request.amount) && IsNumeric(request.amount.value) && Present(request.currency)
    requires request.payer.None?
    ensures ValidateRequestToPay(request) == Err(PAYER_REQUIRED)
  {
  }
}
