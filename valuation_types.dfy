/**
 * types/valuation.ts: the valuation source enum and the response, create
 * and generate schemas. A response may embed the valued vehicle, which
 * must then pass the vehicle schema.
 */
module ValuationTypes {

  import opened JsValue
  import opened Zod
  import VehicleTypes

  const ValuationSource: map<string, string> := map[
    "KBB" := "kbb",
    "EDMUNDS" := "edmunds",
    "NADA" := "nada",
    "MANUAL" := "manual",
    "EXTERNAL_API" := "external_api"
  ]

  const SourceEnum: set<string> := {"kbb", "edmunds", "nada", "manual", "external_api"}

  /** An object offered to `valuationSchema` (a server response). */
  datatype ValuationRecord = ValuationRecord(
    id: Prop<string>,
    vehicleId: Prop<string>,
    estimatedValue: Prop<real>,
    minValue: Prop<real>,
    maxValue: Prop<real>,
    source: Prop<string>,
    valuationDate: Prop<string>,
    metadata: Prop<string>,
    createdAt: Prop<string>,
    vehicle: Prop<VehicleTypes.VehicleRecord>)

  /** An object offered to `valuationCreateSchema`. */
  datatype ValuationInput = ValuationInput(
    vehicleId: Prop<string>,
    estimatedValue: Prop<real>,
    minValue: Prop<real>,
    maxValue: Prop<real>,
    source: Prop<string>,
    metadata: Prop<string>)

  /** An object offered to `valuationGenerateSchema`. */
  datatype ValuationGenerate = ValuationGenerate(vehicleId: Prop<string>, source: Prop<string>)

  /** `valuationSchema`. */
  predicate ValuationSchema(r: ValuationRecord, f: Formats) {
    && r.id.Present? && f.uuid(r.id.value)
    && r.vehicleId.Present? && f.uuid(r.vehicleId.value)
    && r.estimatedValue.Present? && r.estimatedValue.value >= 0.0
    && r.minValue.Present? && r.minValue.value >= 0.0
    && r.maxValue.Present? && r.maxValue.value >= 0.0
    && r.source.Present? && r.source.value in SourceEnum
    && r.valuationDate.Present? && f.datetime(r.valuationDate.value)
    && r.createdAt.Present? && f.datetime(r.createdAt.value)
    && (r.vehicle.Present? ==> VehicleTypes.VehicleSchema(r.vehicle.value, f))
  }

  /** `valuationCreateSchema`. */
  predicate ValuationCreateSchema(c: ValuationInput, f: Formats) {
    && c.vehicleId.Present? && f.uuid(c.vehicleId.value)
    && c.estimatedValue.Present? && c.estimatedValue.value >= 0.0
    && c.minValue.Present? && c.minValue.value >= 0.0
    && c.maxValue.Present? && c.maxValue.value >= 0.0
    && c.source.Present? && c.source.value in SourceEnum
  }

  /** `valuationGenerateSchema`. */
  predicate ValuationGenerateSchema(g: ValuationGenerate, f: Formats) {
    && g.vehicleId.Present? && f.uuid(g.vehicleId.value)
    && (g.source.Present? ==> g.source.value in SourceEnum)
  }

  /**
   * The schemas do not order the three values: an estimate outside
   * [min, max], or a minimum above the maximum, is accepted as long as
   * each value is non-negative.
   */
  lemma CreateDoesNotOrderValues(c: ValuationInput, f: Formats)
    requires c.vehicleId.Present? && f.uuid(c.vehicleId.value)
    requires c.source.Present? && c.source.value in SourceEnum
    ensures ValuationCreateSchema(c.(estimatedValue := Present(0.0), minValue := Present(2.0), maxValue := Present(1.0)), f)
  {
  }

  /**
   * Every create request that passes yields a generate request (its
   * vehicle and source) that passes, and the generate request needs only
   * the vehicle id.
   */
  lemma CreateYieldsGenerate(c: ValuationInput, f: Formats)
    ensures ValuationCreateSchema(c, f) ==> ValuationGenerateSchema(ValuationGenerate(c.vehicleId, c.source), f)
    ensures ValuationGenerateSchema(ValuationGenerate(c.vehicleId, Absent), f) <==>
      c.vehicleId.Present? && f.uuid(c.vehicleId.value)
  {
  }

  /** An embedded vehicle counts only when it is there: one that fails the vehicle schema fails the valuation. */
  lemma EmbeddedVehicleChecked(r: ValuationRecord, v: VehicleTypes.VehicleRecord, f: Formats)
    requires ValuationSchema(r, f)
    ensures ValuationSchema(r.(vehicle := Absent), f)
    ensures ValuationSchema(r.(vehicle := Present(v)), f) <==> VehicleTypes.VehicleSchema(v, f)
  {
  }

  /** The source enum is exactly the set of values of `ValuationSource`. */
  lemma SourceEnumIsConstantValues()
    ensures SourceEnum == ValuationSource.Values
  {
    assert ValuationSource["KBB"] == "kbb" && ValuationSource["EDMUNDS"] == "edmunds";
    assert ValuationSource["NADA"] == "nada" && ValuationSource["MANUAL"] == "manual";
    assert ValuationSource["EXTERNAL_API"] == "external_api";
  }
}
