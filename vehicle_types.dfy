/**
 * types/vehicle.ts: the condition, transmission and fuel enums and the
 * response, search and create schemas for vehicles. The VIN rule of all
 * three schemas (length 17 and the case-insensitive VIN alphabet) is the
 * one `Utils.IsValidVin` states.
 */
module VehicleTypes {

  import opened JsValue
  import opened Zod
  import Utils

  const VehicleCondition: map<string, string> :=
    map["EXCELLENT" := "excellent", "GOOD" := "good", "FAIR" := "fair", "POOR" := "poor"]

  const TransmissionType: map<string, string> :=
    map["MANUAL" := "manual", "AUTOMATIC" := "automatic", "CVT" := "cvt", "SEMI_AUTOMATIC" := "semi_automatic"]

  const FuelType: map<string, string> := map[
    "GASOLINE" := "gasoline",
    "DIESEL" := "diesel",
    "ELECTRIC" := "electric",
    "HYBRID" := "hybrid",
    "PLUGIN_HYBRID" := "plugin_hybrid",
    "HYDROGEN" := "hydrogen"
  ]

  const ConditionEnum: set<string> := {"excellent", "good", "fair", "poor"}
  const TransmissionEnum: set<string> := {"manual", "automatic", "cvt", "semi_automatic"}
  const FuelTypeEnum: set<string> := {"gasoline", "diesel", "electric", "hybrid", "plugin_hybrid", "hydrogen"}

  /** An object offered to `vehicleSchema` (a server response). */
  datatype VehicleRecord = VehicleRecord(
    id: Prop<string>,
    vin: Prop<string>,
    make: Prop<string>,
    model: Prop<string>,
    year: Prop<real>,
    mileage: Prop<real>,
    condition: Prop<string>,
    transmission: Prop<string>,
    fuelType: Prop<string>,
    color: Prop<string>,
    createdAt: Prop<string>,
    updatedAt: Prop<string>)

  /** An object offered to `vehicleCreateSchema`. */
  datatype VehicleInput = VehicleInput(
    vin: Prop<string>,
    make: Prop<string>,
    model: Prop<string>,
    year: Prop<real>,
    mileage: Prop<real>,
    condition: Prop<string>,
    transmission: Prop<string>,
    fuelType: Prop<string>,
    color: Prop<string>)

  /** The VIN field rule: `z.string().length(17).regex(/^[A-HJ-NPR-Z0-9]{17}$/i)`. */
  predicate VinField(vin: Prop<string>) {
    vin.Present? && |vin.value| == 17 && Utils.IsValidVin(vin.value)
  }

  /** `vehicleSchema`. */
  predicate VehicleSchema(r: VehicleRecord, f: Formats) {
    && r.id.Present? && f.uuid(r.id.value)
    && VinField(r.vin)
    && r.make.Present? && 1 <= |r.make.value|
    && r.model.Present? && 1 <= |r.model.value|
    && r.year.Present? && IsInt(r.year.value) && 1900.0 <= r.year.value <= 2030.0
    && r.mileage.Present? && IsInt(r.mileage.value) && r.mileage.value >= 0.0
    && r.condition.Present? && r.condition.value in ConditionEnum
    && r.transmission.Present? && r.transmission.value in TransmissionEnum
    && r.fuelType.Present? && r.fuelType.value in FuelTypeEnum
    && r.color.Present? && 1 <= |r.color.value|
    && r.createdAt.Present? && f.datetime(r.createdAt.value)
    && r.updatedAt.Present? && f.datetime(r.updatedAt.value)
  }

  /** `vehicleSearchSchema`, on the `vin` key of the searched object. */
  predicate VehicleSearchSchema(vin: Prop<string>) {
    VinField(vin)
  }

  /** `vehicleCreateSchema`. */
  predicate VehicleCreateSchema(c: VehicleInput) {
    && VinField(c.vin)
    && c.make.Present? && 1 <= |c.make.value| <= 100
    && c.model.Present? && 1 <= |c.model.value| <= 100
    && c.year.Present? && IsInt(c.year.value) && 1900.0 <= c.year.value <= 2030.0
    && c.mileage.Present? && IsInt(c.mileage.value) && c.mileage.value >= 0.0
    && c.condition.Present? && c.condition.value in ConditionEnum
    && c.transmission.Present? && c.transmission.value in TransmissionEnum
    && c.fuelType.Present? && c.fuelType.value in FuelTypeEnum
    && c.color.Present? && 1 <= |c.color.value| <= 50
  }

  /** A created vehicle as the server returns it: the input plus id and timestamps. */
  function WithServerFields(c: VehicleInput, id: string, createdAt: string, updatedAt: string): VehicleRecord {
    VehicleRecord(Present(id), c.vin, c.make, c.model, c.year, c.mileage, c.condition,
      c.transmission, c.fuelType, c.color, Present(createdAt), Present(updatedAt))
  }

  /** The search schema accepts a VIN exactly when the `isValidVIN` utility does. */
  lemma SearchIsValidVin(vin: string)
    ensures VehicleSearchSchema(Present(vin)) <==> Utils.IsValidVin(vin)
    ensures !VehicleSearchSchema(Absent) && !VehicleSearchSchema(Undefined)
  {
  }

  /**
   * Everything the create schema accepts, returned with a valid id and
   * timestamps, passes the response schema; the create schema also
   * implies the search schema on its VIN.
   */
  lemma CreateImpliesResponse(c: VehicleInput, id: string, createdAt: string, updatedAt: string, f: Formats)
    requires VehicleCreateSchema(c)
    requires f.uuid(id) && f.datetime(createdAt) && f.datetime(updatedAt)
    ensures VehicleSchema(WithServerFields(c, id, createdAt, updatedAt), f)
    ensures VehicleSearchSchema(c.vin)
  {
  }

  /**
   * The converse fails: the response schema has no upper bound on the
   * make's length, so a response with a 101-character make is accepted
   * while the same input is refused by the create schema.
   */
  lemma ResponseAcceptsLongerMake(c: VehicleInput, id: string, createdAt: string, updatedAt: string, f: Formats)
    requires VehicleCreateSchema(c)
    requires f.uuid(id) && f.datetime(createdAt) && f.datetime(updatedAt)
    ensures var long := c.(make := Present(seq(101, _ => 'A')));
      VehicleSchema(WithServerFields(long, id, createdAt, updatedAt), f) && !VehicleCreateSchema(long)
  {
  }

  /** Each enum of the schemas is exactly the set of values of its constant object. */
  lemma EnumsAreConstantValues()
    ensures ConditionEnum == VehicleCondition.Values
    ensures TransmissionEnum == TransmissionType.Values
    ensures FuelTypeEnum == FuelType.Values
  {
    assert VehicleCondition["EXCELLENT"] == "excellent" && VehicleCondition["GOOD"] == "good";
    assert VehicleCondition["FAIR"] == "fair" && VehicleCondition["POOR"] == "poor";
    assert TransmissionType["MANUAL"] == "manual" && TransmissionType["AUTOMATIC"] == "automatic";
    assert TransmissionType["CVT"] == "cvt" && TransmissionType["SEMI_AUTOMATIC"] == "semi_automatic";
    assert FuelType["GASOLINE"] == "gasoline" && FuelType["DIESEL"] == "diesel";
    assert FuelType["ELECTRIC"] == "electric" && FuelType["HYBRID"] == "hybrid";
    assert FuelType["PLUGIN_HYBRID"] == "plugin_hybrid" && FuelType["HYDROGEN"] == "hydrogen";
  }
}
