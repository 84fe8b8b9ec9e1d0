/**
 * types/offer.ts: the offer status enum, the response, create and
 * status-update schemas, and the accept/decline response type.
 */
module OfferTypes {

  import opened Wrappers
  import opened JsValue
  import opened Zod

  const OfferStatus: map<string, string> :=
    map["ACTIVE" := "active", "EXPIRED" := "expired", "ACCEPTED" := "accepted", "DECLINED" := "declined"]

  const StatusEnum: set<string> := {"active", "expired", "accepted", "declined"}

  /**
   * An object offered to `loanOfferSchema` (a server response). The
   * nullable `acceptedAt` holds `None` for `null`.
   */
  datatype LoanOfferRecord = LoanOfferRecord(
    id: Prop<string>,
    loanApplicationId: Prop<string>,
    offeredAmount: Prop<real>,
    interestRate: Prop<real>,
    loanTerm: Prop<real>,
    monthlyPayment: Prop<real>,
    totalPayable: Prop<real>,
    status: Prop<string>,
    expiresAt: Prop<string>,
    acceptedAt: Prop<Option<string>>,
    createdAt: Prop<string>,
    updatedAt: Prop<string>)

  /** An object offered to `offerCreateSchema`. */
  datatype OfferCreateInput = OfferCreateInput(
    loanApplicationId: Prop<string>,
    interestRate: Prop<real>,
    loanTerm: Prop<real>,
    offeredAmount: Prop<real>,
    expirationHours: Prop<real>)

  /** An object offered to `offerStatusUpdateSchema`. */
  datatype OfferStatusUpdate = OfferStatusUpdate(status: Prop<string>, reason: Prop<string>)

  datatype OfferAction = Accept | Decline

  /** The legacy `LoanOfferResponse` type. */
  datatype LoanOfferResponse = LoanOfferResponse(offerId: string, action: OfferAction, signature: Option<string>)

  /** The interest-rate rule shared by the response and create schemas. */
  predicate RateRule(rate: real) {
    5.0 <= rate <= 30.0
  }

  /** The loan-term rule shared by the response and create schemas. */
  predicate TermRule(term: real) {
    IsInt(term) && 12.0 <= term <= 84.0
  }

  /** `loanOfferSchema`. */
  predicate LoanOfferSchema(r: LoanOfferRecord, f: Formats) {
    && r.id.Present? && f.uuid(r.id.value)
    && r.loanApplicationId.Present? && f.uuid(r.loanApplicationId.value)
    && r.offeredAmount.Present? && r.offeredAmount.value > 0.0
    && r.interestRate.Present? && RateRule(r.interestRate.value)
    && r.loanTerm.Present? && TermRule(r.loanTerm.value)
    && r.monthlyPayment.Present? && r.monthlyPayment.value > 0.0
    && r.totalPayable.Present? && r.totalPayable.value > 0.0
    && r.status.Present? && r.status.value in StatusEnum
    && r.expiresAt.Present? && f.datetime(r.expiresAt.value)
    && (r.acceptedAt.Present? && r.acceptedAt.value.Some? ==> f.datetime(r.acceptedAt.value.value))
    && r.createdAt.Present? && f.datetime(r.createdAt.value)
    && r.updatedAt.Present? && f.datetime(r.updatedAt.value)
  }

  /** `offerCreateSchema`; the last three keys are optional. */
  predicate OfferCreateSchema(c: OfferCreateInput, f: Formats) {
    && c.loanApplicationId.Present? && f.uuid(c.loanApplicationId.value)
    && c.interestRate.Present? && RateRule(c.interestRate.value)
    && (c.loanTerm.Present? ==> TermRule(c.loanTerm.value))
    && (c.offeredAmount.Present? ==> c.offeredAmount.value >= 100000.0)
    && (c.expirationHours.Present? ==>
          IsInt(c.expirationHours.value) && 24.0 <= c.expirationHours.value <= 720.0)
  }

  /** `offerStatusUpdateSchema`. */
  predicate OfferStatusUpdateSchema(u: OfferStatusUpdate) {
    u.status.Present? && u.status.value in StatusEnum
  }

  /**
   * The smallest create request, an application id and a rate, is valid
   * exactly when the id is a uuid and the rate lies in [5, 30]; leaving
   * out or passing `undefined` for the optional keys never invalidates it.
   */
  lemma MinimalCreateRequest(id: string, rate: real, term: Prop<real>, amount: Prop<real>, hours: Prop<real>, f: Formats)
    requires !term.Present? && !amount.Present? && !hours.Present?
    ensures OfferCreateSchema(OfferCreateInput(Present(id), Present(rate), term, amount, hours), f) <==>
      f.uuid(id) && 5.0 <= rate <= 30.0
  {
  }

  /**
   * Applying a status update that passes its schema to a valid offer
   * leaves a valid offer, whatever the update's reason; an update whose
   * status is outside the enum is refused whatever else it carries.
   */
  lemma StatusUpdateKeepsOfferValid(r: LoanOfferRecord, u: OfferStatusUpdate, f: Formats)
    requires LoanOfferSchema(r, f)
    ensures OfferStatusUpdateSchema(u) <==> LoanOfferSchema(r.(status := u.status), f)
  {
  }

  /**
   * The response schema does not relate its amounts: it accepts a total
   * payable smaller than the amount offered.
   */
  lemma ResponseAllowsTotalBelowAmount(r: LoanOfferRecord, f: Formats)
    requires LoanOfferSchema(r, f)
    ensures LoanOfferSchema(r.(offeredAmount := Present(r.totalPayable.value + 1.0)), f)
    ensures r.(offeredAmount := Present(r.totalPayable.value + 1.0)).offeredAmount.value > r.totalPayable.value
  {
  }

  /** The status enum is exactly the set of values of `OfferStatus`. */
  lemma StatusEnumIsConstantValues()
    ensures StatusEnum == OfferStatus.Values
  {
    assert OfferStatus["ACTIVE"] == "active" && OfferStatus["EXPIRED"] == "expired";
    assert OfferStatus["ACCEPTED"] == "accepted" && OfferStatus["DECLINED"] == "declined";
  }
}
