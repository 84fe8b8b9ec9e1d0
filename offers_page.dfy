/**
 * app/dashboard/offers/page.tsx: the badge colour and label of each
 * offer status, and the list and total read from the list query.
 */
module OffersPage {

  import opened Wrappers
  import opened JsString
  import ListResponse
  import OfferTypes

  const Yellow := "bg-yellow-100 text-yellow-800"
  const Green := "bg-green-100 text-green-800"
  const Red := "bg-red-100 text-red-800"
  const Gray := "bg-gray-100 text-gray-800"

  /** `getStatusColor`; "withdrawn" has a case of its own that gives the default colour. */
  function StatusColor(status: string): string {
    match status
    case "pending" => Yellow
    case "accepted" => Green
    case "rejected" => Red
    case "withdrawn" => Gray
    case _ => Gray
  }

  /**
   * The switch names statuses the offer schema does not have: of the four
   * statuses an offer can carry, "accepted" alone is coloured and "active",
   * "expired" and "declined" all show gray, while the yellow and red cases
   * are reached by no schema status.
   */
  lemma SchemaStatusColors(s: string)
    requires s in OfferTypes.StatusEnum
    ensures StatusColor(s) == (if s == "accepted" then Green else Gray)
    ensures "pending" !in OfferTypes.StatusEnum && "rejected" !in OfferTypes.StatusEnum
    ensures "withdrawn" !in OfferTypes.StatusEnum
  {
  }

  /** The label: the first character upper-cased, the rest unchanged. */
  function StatusLabel(status: string): (r: string)
    ensures |r| == |status|
    ensures |status| > 0 ==> r[0] == UpperChar(status[0]) && r[1..] == status[1..]
    ensures status == "" ==> r == ""
  {
    UpperFirstForms(status);
    UpperCharAt(status)
  }

  /**
   * The label of "active" is "Active", and the loans page's regular
   * expression would give every offer status the same label.
   */
  lemma ActiveLabel(s: string)
    ensures StatusLabel("active") == "Active"
    ensures StatusLabel(s) == UpperFirstMatch(s)
  {
    assert UpperChar('a') == 'A';
    assert "active"[1..] == "ctive";
    UpperFirstForms(s);
  }

  /** The table rows: `offersData?.data?.data?.data ?? []`. */
  function Offers<T>(q: Option<ListResponse.Response<T>>): seq<T> {
    ListResponse.Rows(q)
  }

  /** The title count: `offersData?.data?.data?.total ?? 0`. */
  function OfferTotal<T>(q: Option<ListResponse.Response<T>>): int {
    ListResponse.Total(q)
  }

  /** Before the query answers, the page shows no rows and a total of 0. */
  lemma MissingResponseShowsNothing<T>(q: Option<ListResponse.Response<T>>)
    requires q.None? || q.value.data.None? || q.value.data.value.data.None?
    ensures Offers(q) == [] && OfferTotal(q) == 0
  {
  }
}
