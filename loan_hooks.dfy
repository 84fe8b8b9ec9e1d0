/**
 * hooks/use-loan.ts: the `loanKeys` factory, the `enabled` gate of
 * `useLoanById`, and the cache actions of each mutation's `onSuccess`.
 */
module LoanHooks {

  import opened QueryKeys
  import opened JsValue

  const Resource := "loans"

  /** `useLoanById` runs only for a non-empty id. */
  predicate ByIdEnabled(id: string) { Truthy(id) }

  datatype LoanMutation =
    | CreateLoan
    | UpdateLoan(id: string)
    | DeleteLoan(id: string)
    | UpdateLoanStatus(id: string)
    | ApproveLoan(id: string)
    | RejectLoan(id: string)

  /** The cache actions of each mutation's `onSuccess`. */
  function OnSuccess(m: LoanMutation): seq<CacheAction> {
    match m
    case CreateLoan => [Invalidate(Lists(Resource))]
    case DeleteLoan(_) => [Invalidate(Lists(Resource))]
    case UpdateLoan(id) => [Invalidate(Lists(Resource)), Invalidate(Detail(Resource, id))]
    case UpdateLoanStatus(id) => [Invalidate(Lists(Resource)), Invalidate(Detail(Resource, id))]
    case ApproveLoan(id) => [Invalidate(Lists(Resource)), Invalidate(Detail(Resource, id))]
    case RejectLoan(id) => [Invalidate(Lists(Resource)), Invalidate(Detail(Resource, id))]
  }

  /**
   * Update, status change, approval and rejection refresh exactly the list
   * queries and that application's detail: a list or detail key is
   * refreshed iff it is a list key or the detail of the same id.
   */
  lemma ChangeRefreshesListsAndDetail(m: LoanMutation, filters: string, id': string)
    requires m.UpdateLoan? || m.UpdateLoanStatus? || m.ApproveLoan? || m.RejectLoan?
    ensures Refreshed(OnSuccess(m), List(Resource, filters))
    ensures Refreshed(OnSuccess(m), Detail(Resource, id')) <==> id' == m.id
  {
    var acts := OnSuccess(m);
    FactoryPrefixes(Resource, filters, m.id, id');
    assert Matches(acts[0].key, List(Resource, filters));
    if id' == m.id {
      assert Matches(acts[1].key, Detail(Resource, id'));
    }
  }

  /**
   * Creating and deleting refresh only the lists: no detail query is
   * touched, so a deleted application's detail stays cached.
   */
  lemma CreateAndDeleteRefreshOnlyLists(m: LoanMutation, filters: string, id: string)
    requires m.CreateLoan? || m.DeleteLoan?
    ensures Refreshed(OnSuccess(m), List(Resource, filters))
    ensures !Refreshed(OnSuccess(m), Detail(Resource, id))
  {
    FactoryPrefixes(Resource, filters, id, id);
    assert Matches(OnSuccess(m)[0].key, List(Resource, filters));
  }
}
