/**
 * hooks/use-valuation.ts: the `valuationKeys` factory, the `enabled`
 * gates of the by-id and by-vehicle queries, and the cache actions of
 * each mutation's `onSuccess`. Generate and update write the returned
 * valuation into the cache under the detail key of its own id.
 */
module ValuationHooks {

  import opened QueryKeys
  import opened JsValue

  const Resource := "valuations"

  /** `valuationKeys.byVehicle(vehicleId)`. */
  function ByVehicle(vehicleId: string): QueryKey {
    Tagged(Resource, "vehicle", [Str(vehicleId)])
  }

  /** `useValuationById` and `useValuationsByVehicle` run only for a non-empty argument. */
  predicate ByIdEnabled(id: string) { Truthy(id) }
  predicate ByVehicleEnabled(vehicleId: string) { Truthy(vehicleId) }

  /**
   * The mutations; for generate and update, `returnedId` is the id of the
   * valuation in the response (`data.data.data.id`).
   */
  datatype ValuationMutation =
    | RequestValuation(vehicleId: string)
    | GenerateValuation(vehicleId: string, returnedId: string)
    | DeleteValuation(id: string)
    | UpdateValuation(id: string, returnedId: string)

  /** The cache actions of each mutation's `onSuccess`. */
  function OnSuccess(m: ValuationMutation): seq<CacheAction> {
    match m
    case RequestValuation(v) => [Invalidate(ByVehicle(v)), Invalidate(Lists(Resource))]
    case GenerateValuation(_, rid) => [SetData(Detail(Resource, rid)), Invalidate(Lists(Resource))]
    case DeleteValuation(_) => [Invalidate(Lists(Resource))]
    case UpdateValuation(_, rid) => [SetData(Detail(Resource, rid)), Invalidate(Lists(Resource))]
  }

  /**
   * `byVehicle` keys are outside `lists()`, so requesting a valuation
   * refreshes the vehicle's valuations and the lists separately, and only
   * that vehicle's.
   */
  lemma RequestRefreshesVehicleAndLists(v: string, other: string, filters: string)
    requires other != v
    ensures !Matches(Lists(Resource), ByVehicle(v))
    ensures Refreshed(OnSuccess(RequestValuation(v)), ByVehicle(v))
    ensures Refreshed(OnSuccess(RequestValuation(v)), List(Resource, filters))
    ensures !Refreshed(OnSuccess(RequestValuation(v)), ByVehicle(other))
  {
    var acts := OnSuccess(RequestValuation(v));
    TaggedMatches(Resource, "list", Resource, "vehicle", [Str(v)]);
    TaggedMatches(Resource, "list", Resource, "vehicle", [Str(other)]);
    FactoryPrefixes(Resource, filters, "", "");
    assert Matches(acts[0].key, ByVehicle(v));
    assert Matches(acts[1].key, List(Resource, filters));
    assert ByVehicle(other)[2] == Str(other) && ByVehicle(v)[2] == Str(v);
  }

  /**
   * Generating and updating put the response into the cache entry that
   * `useValuationById` reads for the returned id, and refresh the lists;
   * neither refreshes the vehicle's valuations, so after a generate the
   * `byVehicle` query of that vehicle is not refetched.
   */
  lemma WriteLandsOnReturnedDetail(m: ValuationMutation, filters: string)
    requires m.GenerateValuation? || m.UpdateValuation?
    ensures Written(OnSuccess(m), Detail(Resource, m.returnedId))
    ensures Refreshed(OnSuccess(m), List(Resource, filters))
    ensures m.GenerateValuation? ==> !Refreshed(OnSuccess(m), ByVehicle(m.vehicleId))
  {
    var acts := OnSuccess(m);
    assert acts[0].key == Detail(Resource, m.returnedId);
    FactoryPrefixes(Resource, filters, "", "");
    assert Matches(acts[1].key, List(Resource, filters));
    if m.GenerateValuation? {
      TaggedMatches(Resource, "list", Resource, "vehicle", [Str(m.vehicleId)]);
    }
  }
}
