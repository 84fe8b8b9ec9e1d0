/**
 * hooks/use-vehicle.ts: the `vehicleKeys` factory, the `enabled` rules
 * of the by-id and search queries, and the cache actions of each
 * mutation's `onSuccess`.
 */
module VehicleHooks {

  import opened QueryKeys
  import opened JsValue
  import Utils

  const Resource := "vehicles"

  /** `vehicleKeys.search(vin)`. */
  function Search(vin: string): QueryKey {
    Tagged(Resource, "search", [Str(vin)])
  }

  /** `useVehicleById` runs only for a non-empty id. */
  predicate ByIdEnabled(id: string) { Truthy(id) }

  /** `useVehicleSearch`: `!!vin && vin.length === 17`. */
  predicate SearchEnabled(vin: string) {
    Truthy(vin) && |vin| == 17
  }

  datatype VehicleMutation =
    | CreateVehicle
    | UpdateVehicle(id: string)
    | DeleteVehicle(id: string)
    | UploadImages(id: string)

  /**
   * The key update writes to: `vehicleKeys.detail(data.data.id)`. The
   * mutation receives the raw axios response, whose `data` is the
   * `{ success, data, message, timestamp }` envelope, so `data.data.id`
   * is `undefined` whichever vehicle was updated.
   */
  function UpdatedKeyAsWritten(): QueryKey {
    Details(Resource) + [KeyPart.Undefined]
  }

  /** The cache actions of each mutation's `onSuccess`. */
  function OnSuccess(m: VehicleMutation): seq<CacheAction> {
    match m
    case CreateVehicle => [Invalidate(Lists(Resource))]
    case UpdateVehicle(_) => [SetData(UpdatedKeyAsWritten()), Invalidate(Lists(Resource))]
    case DeleteVehicle(id) => [Remove(Detail(Resource, id)), Invalidate(Lists(Resource))]
    case UploadImages(id) => [Invalidate(Detail(Resource, id))]
  }

  /**
   * The search runs exactly for 17-character input, so every VIN the
   * `isValidVIN` utility accepts is searched; the converse fails, since
   * 17 characters outside the VIN alphabet are searched too.
   */
  lemma SearchGate(vin: string)
    ensures SearchEnabled(vin) <==> |vin| == 17
    ensures Utils.IsValidVin(vin) ==> SearchEnabled(vin)
    ensures SearchEnabled(seq(17, _ => 'I')) && !Utils.IsValidVin(seq(17, _ => 'I'))
  {
    var bad := seq(17, _ => 'I');
    assert !Utils.IsVinChar(bad[0]);
  }

  /** Search keys are under `all` but outside `lists()`: no vehicle mutation refreshes a search. */
  lemma SearchNeverRefreshed(vin: string, m: VehicleMutation)
    ensures Matches(All(Resource), Search(vin)) && !Matches(Lists(Resource), Search(vin))
    ensures !Refreshed(OnSuccess(m), Search(vin)) && !Removed(OnSuccess(m), Search(vin))
  {
    TaggedMatches(Resource, "list", Resource, "search", [Str(vin)]);
    TaggedMatches(Resource, "detail", Resource, "search", [Str(vin)]);
    match m
    case CreateVehicle =>
    case UpdateVehicle(_) =>
    case DeleteVehicle(id) =>
      assert Detail(Resource, id)[..2] == Tagged(Resource, "detail", []);
    case UploadImages(id) =>
      assert Detail(Resource, id)[..2] == Tagged(Resource, "detail", []);
  }

  /**
   * As written, updating a vehicle writes the response under the
   * `undefined` detail key and refreshes the lists, but never writes,
   * refreshes or removes the detail query of any vehicle, the updated one
   * included.
   */
  lemma UpdateMissesDetail(id: string, id': string, filters: string)
    ensures Written(OnSuccess(UpdateVehicle(id)), UpdatedKeyAsWritten())
    ensures Refreshed(OnSuccess(UpdateVehicle(id)), List(Resource, filters))
    ensures !Written(OnSuccess(UpdateVehicle(id)), Detail(Resource, id'))
    ensures !Refreshed(OnSuccess(UpdateVehicle(id)), Detail(Resource, id'))
    ensures !Removed(OnSuccess(UpdateVehicle(id)), Detail(Resource, id'))
  {
    var acts := OnSuccess(UpdateVehicle(id));
    assert acts[0].key == UpdatedKeyAsWritten();
    assert Matches(acts[1].key, List(Resource, filters));
    assert Detail(Resource, id')[2] == Str(id') != UpdatedKeyAsWritten()[2];
    FactoryPrefixes(Resource, filters, id, id');
  }

  /**
   * The intended `onSuccess` of update: the vehicle is one level further
   * down, at `data.data.data`, as the valuation hooks read it.
   */
  function CorrectedUpdateOnSuccess(returnedId: string): (acts: seq<CacheAction>)
    ensures |acts| == 2 && acts[1..] == OnSuccess(UpdateVehicle(returnedId))[1..]
  {
    [SetData(Detail(Resource, returnedId)), Invalidate(Lists(Resource))]
  }

  /**
   * The corrected update writes the detail of the returned vehicle and of
   * no other, and still refreshes every list.
   */
  lemma CorrectedUpdateWritesDetail(returnedId: string, id': string, filters: string)
    ensures Written(CorrectedUpdateOnSuccess(returnedId), Detail(Resource, id')) <==> id' == returnedId
    ensures Refreshed(CorrectedUpdateOnSuccess(returnedId), List(Resource, filters))
    ensures !Written(CorrectedUpdateOnSuccess(returnedId), UpdatedKeyAsWritten())
  {
    var acts := CorrectedUpdateOnSuccess(returnedId);
    assert acts[0].key == Detail(Resource, returnedId);
    assert Matches(acts[1].key, List(Resource, filters));
    if id' != returnedId {
      assert Detail(Resource, id')[2] != Detail(Resource, returnedId)[2];
    }
    assert UpdatedKeyAsWritten()[2] != Detail(Resource, returnedId)[2];
  }

  /**
   * Deleting a vehicle drops its detail query, and only its own, from the
   * cache and refreshes every list query.
   */
  lemma DeleteDropsDetail(id: string, id': string, filters: string)
    ensures Removed(OnSuccess(DeleteVehicle(id)), Detail(Resource, id')) <==> id' == id
    ensures Refreshed(OnSuccess(DeleteVehicle(id)), List(Resource, filters))
    ensures !Refreshed(OnSuccess(DeleteVehicle(id)), Detail(Resource, id'))
  {
    var acts := OnSuccess(DeleteVehicle(id));
    FactoryPrefixes(Resource, filters, id, id');
    if id' == id {
      assert Matches(acts[0].key, Detail(Resource, id'));
    }
    assert Matches(acts[1].key, List(Resource, filters));
  }
}
