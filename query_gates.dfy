/**
 * The `enabled` gates of the four hooks files, read against the keys the
 * gated queries are cached under: a gated query runs exactly when its
 * key ends in a non-empty argument (and, for the VIN search, the VIN has
 * 17 characters), so no request is ever made for an empty id, status or
 * VIN.
 */
module QueryGates {

  import opened QueryKeys
  import OfferHooks
  import LoanHooks
  import ValuationHooks
  import VehicleHooks

  /** Each gate holds iff the key of its query ends in a non-empty argument. */
  lemma GatedKeysCarryArgument(arg: string)
    ensures OfferHooks.ByIdEnabled(arg) <==> EndsInArgument(Detail(OfferHooks.Resource, arg))
    ensures OfferHooks.ByStatusEnabled(arg) <==> EndsInArgument(OfferHooks.ByStatus(arg))
    ensures OfferHooks.ByLoanEnabled(arg) <==> EndsInArgument(OfferHooks.ByLoan(arg))
    ensures LoanHooks.ByIdEnabled(arg) <==> EndsInArgument(Detail(LoanHooks.Resource, arg))
    ensures ValuationHooks.ByIdEnabled(arg) <==> EndsInArgument(Detail(ValuationHooks.Resource, arg))
    ensures ValuationHooks.ByVehicleEnabled(arg) <==> EndsInArgument(ValuationHooks.ByVehicle(arg))
    ensures VehicleHooks.ByIdEnabled(arg) <==> EndsInArgument(Detail(VehicleHooks.Resource, arg))
    ensures VehicleHooks.SearchEnabled(arg) <==> EndsInArgument(VehicleHooks.Search(arg)) && |arg| == 17
  {
  }
}
