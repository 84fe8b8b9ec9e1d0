/**
 * app/dashboard/offers/new/page.tsx: the new-offer form's schema, its
 * default values and the expiration choices of its select. The page hands
 * the parsed form data unchanged to the create-offer mutation, whose
 * request body the API checks against `OfferTypes.OfferCreateSchema`.
 */
module OfferForm {

  import opened Wrappers
  import opened JsValue
  import opened Zod
  import OfferTypes

  /** The form's data; `expirationHours` is the optional key. */
  datatype OfferFormData = OfferFormData(
    loanApplicationId: string,
    interestRate: real,
    loanTerm: real,
    offeredAmount: real,
    expirationHours: Option<real>)

  /** `offerSchema` of the page. */
  predicate OfferFormSchema(d: OfferFormData) {
    && 1 <= |d.loanApplicationId|
    && 5.0 <= d.interestRate <= 30.0
    && IsInt(d.loanTerm) && 12.0 <= d.loanTerm <= 84.0
    && d.offeredAmount >= 1000.0
    && (d.expirationHours.Some? ==> ExpirationRule(d.expirationHours.value))
  }

  /** The bound on `expirationHours`: an integer number of hours in [24, 720]. */
  predicate ExpirationRule(h: real) {
    IsInt(h) && 24.0 <= h <= 720.0
  }

  /** The form's `defaultValues`. */
  const DefaultValues: OfferFormData := OfferFormData("", 5.0, 36.0, 0.0, Some(720.0))

  /** The values of the expiration select, each parsed with `parseInt`. */
  const ExpirationOptions: seq<real> := [24.0, 72.0, 168.0, 336.0, 720.0]

  /** The body the create mutation sends: the form data as it is. */
  function ToCreateInput(d: OfferFormData): OfferTypes.OfferCreateInput {
    OfferTypes.OfferCreateInput(
      Present(d.loanApplicationId), Present(d.interestRate), Present(d.loanTerm),
      Present(d.offeredAmount),
      if d.expirationHours.Some? then Present(d.expirationHours.value) else Absent)
  }

  /**
   * The defaults fail the schema, and only through the empty application
   * id and the zero amount: the default rate, term and expiration satisfy
   * their bounds, so choosing an application and an amount of at least
   * 1000 is exactly what makes the defaults valid.
   */
  lemma DefaultsFailOnIdAndAmount(id: string, amount: real)
    ensures !OfferFormSchema(DefaultValues)
    ensures 5.0 <= DefaultValues.interestRate <= 30.0
    ensures IsInt(DefaultValues.loanTerm) && 12.0 <= DefaultValues.loanTerm <= 84.0
    ensures ExpirationRule(DefaultValues.expirationHours.value)
    ensures OfferFormSchema(DefaultValues.(loanApplicationId := id, offeredAmount := amount)) <==>
      1 <= |id| && amount >= 1000.0
  {
    assert (36.0).Floor == 36;
    assert (720.0).Floor == 720;
  }

  /** Every selectable expiration satisfies the schema's bound. */
  lemma ExpirationOptionsInBounds(d: OfferFormData)
    ensures forall k :: 0 <= k < |ExpirationOptions| ==> ExpirationRule(ExpirationOptions[k])
    ensures forall k :: 0 <= k < |ExpirationOptions| ==>
      (OfferFormSchema(d.(expirationHours := Some(ExpirationOptions[k]))) <==>
       OfferFormSchema(d.(expirationHours := None)))
  {
    assert (24.0).Floor == 24 && (72.0).Floor == 72 && (168.0).Floor == 168;
    assert (336.0).Floor == 336 && (720.0).Floor == 720;
  }

  /**
   * The page and the API disagree on the minimum amount (1000 against
   * 100000): a form that passes the page's schema passes the create schema
   * exactly when its id is a uuid and its amount is at least 100000.
   */
  lemma FormAgainstCreateSchema(d: OfferFormData, f: Formats)
    requires OfferFormSchema(d)
    ensures OfferTypes.OfferCreateSchema(ToCreateInput(d), f) <==>
      f.uuid(d.loanApplicationId) && d.offeredAmount >= 100000.0
  {
  }

  /** So a form the page accepts, for 1000, is refused by the API whatever the id. */
  lemma MinimumAmountRefused(id: string, f: Formats)
    requires 1 <= |id|
    ensures var d := DefaultValues.(loanApplicationId := id, offeredAmount := 1000.0);
      OfferFormSchema(d) && !OfferTypes.OfferCreateSchema(ToCreateInput(d), f)
  {
    DefaultsFailOnIdAndAmount(id, 1000.0);
  }
}
