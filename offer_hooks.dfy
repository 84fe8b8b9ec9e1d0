/**
 * hooks/use-offer.ts: the `offerKeys` factory, the `enabled` gates of the
 * offer queries, and the cache actions of each mutation's `onSuccess`.
 */
module OfferHooks {

  import opened QueryKeys
  import opened JsValue

  const Resource := "offers"

  /** `offerKeys.byStatus(status)`. */
  function ByStatus(status: string): QueryKey {
    Tagged(Resource, "status", [Str(status)])
  }

  /** `offerKeys.byLoan(loanId)`. */
  function ByLoan(loanId: string): QueryKey {
    Tagged(Resource, "loan", [Str(loanId)])
  }

  /** `useOfferById`, `useOffersByStatus` and `useOffersByLoanApplication` run only for a non-empty argument. */
  predicate ByIdEnabled(id: string) { Truthy(id) }
  predicate ByStatusEnabled(status: string) { Truthy(status) }
  predicate ByLoanEnabled(loanId: string) { Truthy(loanId) }

  datatype OfferMutation =
    | CreateOffer(loanApplicationId: string)
    | DeleteOffer(id: string)
    | UpdateOffer(offerId: string)
    | AcceptOffer(id: string)
    | DeclineOffer(id: string)

  /** The cache actions of each mutation's `onSuccess`. */
  function OnSuccess(m: OfferMutation): seq<CacheAction> {
    match m
    case CreateOffer(loanId) => [Invalidate(Lists(Resource)), Invalidate(ByLoan(loanId))]
    case DeleteOffer(_) => [Invalidate(Lists(Resource))]
    case UpdateOffer(id) => [Invalidate(Lists(Resource)), Invalidate(Detail(Resource, id))]
    case AcceptOffer(id) => [Invalidate(Lists(Resource)), Invalidate(Detail(Resource, id))]
    case DeclineOffer(id) => [Invalidate(Lists(Resource)), Invalidate(Detail(Resource, id))]
  }

  /**
   * `byStatus` and `byLoan` keys sit beside `lists()`, not under it, which
   * is why creating an offer invalidates the application's `byLoan` key on
   * its own; every offer key is still under `all`.
   */
  lemma GroupedKeysOutsideLists(status: string, loanId: string)
    ensures !Matches(Lists(Resource), ByStatus(status)) && !Matches(Lists(Resource), ByLoan(loanId))
    ensures Matches(All(Resource), ByStatus(status)) && Matches(All(Resource), ByLoan(loanId))
  {
    TaggedMatches(Resource, "list", Resource, "status", [Str(status)]);
    TaggedMatches(Resource, "list", Resource, "loan", [Str(loanId)]);
  }

  /**
   * Creating an offer refreshes every list query and the offers of that
   * application, and neither the offers of another application nor any
   * status group nor any single offer.
   */
  lemma CreateRefreshes(loanId: string, other: string, filters: string, status: string, id: string)
    requires other != loanId
    ensures Refreshed(OnSuccess(CreateOffer(loanId)), List(Resource, filters))
    ensures Refreshed(OnSuccess(CreateOffer(loanId)), ByLoan(loanId))
    ensures !Refreshed(OnSuccess(CreateOffer(loanId)), ByLoan(other))
    ensures !Refreshed(OnSuccess(CreateOffer(loanId)), ByStatus(status))
    ensures !Refreshed(OnSuccess(CreateOffer(loanId)), Detail(Resource, id))
  {
    var acts := OnSuccess(CreateOffer(loanId));
    FactoryPrefixes(Resource, filters, id, id);
    assert Matches(acts[0].key, List(Resource, filters));
    assert Matches(acts[1].key, ByLoan(loanId));
    assert ByLoan(other)[2] == Str(other) && ByLoan(loanId)[2] == Str(loanId);
    assert !Matches(acts[1].key, ByLoan(other));
    TaggedMatches(Resource, "list", Resource, "loan", [Str(other)]);
    TaggedMatches(Resource, "list", Resource, "status", [Str(status)]);
    TaggedMatches(Resource, "list", Resource, "detail", [Str(id)]);
    TaggedMatches(Resource, "loan", Resource, "status", [Str(status)]);
    TaggedMatches(Resource, "loan", Resource, "detail", [Str(id)]);
    assert Detail(Resource, id) == Tagged(Resource, "detail", [Str(id)]);
    assert acts[1].key == Tagged(Resource, "loan", [Str(loanId)]);
    assert acts[1].key[..2] == Tagged(Resource, "loan", []);
  }

  /**
   * Accepting or declining an offer refreshes the lists and that offer,
   * but not the status groups, though the offer's status is what changed:
   * a `useOffersByStatus` query keeps showing it under its old status
   * until it is refetched for another reason.
   */
  lemma StatusChangeLeavesStatusGroups(id: string, status: string, accept: bool)
    ensures var acts := OnSuccess(if accept then AcceptOffer(id) else DeclineOffer(id));
      Refreshed(acts, Detail(Resource, id)) && !Refreshed(acts, ByStatus(status))
  {
    var acts := OnSuccess(if accept then AcceptOffer(id) else DeclineOffer(id));
    assert Matches(acts[1].key, Detail(Resource, id));
    TaggedMatches(Resource, "list", Resource, "status", [Str(status)]);
    TaggedMatches(Resource, "detail", Resource, "status", [Str(status)]);
    assert acts[1].key == Tagged(Resource, "detail", [Str(id)]);
    assert acts[1].key[..2] == Tagged(Resource, "detail", []);
  }
}
