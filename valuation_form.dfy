/**
 * app/dashboard/valuations/new/page.tsx: the new-valuation form's schema
 * and default values.
 */
module ValuationForm {

  import opened Wrappers

  /** The form's data; `notes` is the optional key. */
  datatype ValuationFormData = ValuationFormData(
    vehicleId: string,
    valuationAmount: real,
    marketValue: real,
    depreciationRate: real,
    notes: Option<string>)

  /** `valuationSchema` of the page. */
  predicate ValuationFormSchema(d: ValuationFormData) {
    && 1 <= |d.vehicleId|
    && d.valuationAmount >= 0.0
    && d.marketValue >= 0.0
    && 0.0 <= d.depreciationRate <= 1.0
  }

  /** The form's `defaultValues`. */
  const DefaultValues: ValuationFormData := ValuationFormData("", 0.0, 0.0, 0.0, Some(""))

  /** The notes, present or not, never decide validity. */
  lemma NotesNeverMatter(d: ValuationFormData, notes: Option<string>)
    ensures ValuationFormSchema(d.(notes := notes)) <==> ValuationFormSchema(d)
  {
  }

  /**
   * The defaults meet every numeric bound; only the empty vehicle id fails,
   * so choosing a vehicle makes them valid.
   */
  lemma DefaultsFailOnlyOnVehicle(id: string)
    ensures !ValuationFormSchema(DefaultValues)
    ensures ValuationFormSchema(DefaultValues.(vehicleId := id)) <==> 1 <= |id|
  {
  }

  /** A depreciation rate of 1 (100%) is accepted and anything above it refused. */
  lemma DepreciationUpperBound(d: ValuationFormData, rate: real)
    requires ValuationFormSchema(d)
    ensures ValuationFormSchema(d.(depreciationRate := 1.0))
    ensures rate > 1.0 ==> !ValuationFormSchema(d.(depreciationRate := rate))
    ensures 0.0 <= rate <= 1.0 ==> ValuationFormSchema(d.(depreciationRate := rate))
  {
  }
}
