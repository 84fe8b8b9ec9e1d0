/**
 * app/dashboard/loans/page.tsx: the badge colour of each status, the
 * status and employment labels, and the list and total read from the
 * list query.
 */
module LoansPage {

  import opened Wrappers
  import opened JsString
  import ListResponse
  import LoanTypes

  const Yellow := "bg-yellow-100 text-yellow-800"
  const Green := "bg-green-100 text-green-800"
  const Red := "bg-red-100 text-red-800"
  const Blue := "bg-blue-100 text-blue-800"
  const Gray := "bg-gray-100 text-gray-800"

  /** `getStatusColor`. */
  function StatusColor(status: string): string {
    match status
    case "pending" => Yellow
    case "approved" => Green
    case "rejected" => Red
    case "in_review" => Blue
    case "under_review" => Blue
    case _ => Gray
  }

  /**
   * Each status the schema allows gets its colour; only "cancelled" falls
   * to the default gray. The "in_review" case, coloured like
   * "under_review", is never a status the schema allows.
   */
  lemma StatusColorsOfSchemaStatuses(s: string)
    requires s in LoanTypes.StatusEnum
    ensures StatusColor(s) == Gray <==> s == "cancelled"
    ensures StatusColor("in_review") == StatusColor("under_review") == Blue
    ensures "in_review" !in LoanTypes.StatusEnum
  {
  }

  /** Everything outside the five matched strings is gray, and only it. */
  lemma StatusColorDefault(s: string)
    ensures StatusColor(s) == Gray <==>
      s !in {"pending", "approved", "rejected", "in_review", "under_review"}
  {
  }

  /** The status label: the first "_" becomes a space, then the first character is upper-cased. */
  function StatusLabel(status: string): string {
    UpperFirstMatch(ReplaceFirst(status, "_", " "))
  }

  /**
   * The label has the status's length and differs from it at two places
   * at most: the first underscore, which becomes a space, and the first
   * character, which is upper-cased.
   */
  lemma StatusLabelShape(status: string)
    ensures |StatusLabel(status)| == |status|
    ensures forall k :: 0 < k < |status| && IndexOf(status, "_") != Some(k) ==>
      StatusLabel(status)[k] == status[k]
    ensures IndexOf(status, "_").Some? && IndexOf(status, "_").value > 0 ==>
      StatusLabel(status)[IndexOf(status, "_").value] == ' '
    ensures |status| > 0 && status[0] != '_' ==> StatusLabel(status)[0] == UpperChar(status[0])
  {
    ReplaceFirstChar(status, '_', ' ');
    UpperFirstForms(ReplaceFirst(status, "_", " "));
  }

  /**
   * For a status `a + "_" + b` whose part `a` holds no underscore, the
   * label is `a` capitalised, a space, and `b` as it is: later underscores
   * stay ("under_review" is shown as "Under review", "a_b_c" as "A b_c").
   */
  lemma StatusLabelOfSnakeCase(a: string, b: string)
    requires '_' !in a && a != [] && !IsLineTerminator(a[0])
    ensures StatusLabel(a + "_" + b) == [UpperChar(a[0])] + a[1..] + " " + b
  {
    ReplaceFirstCharSplit(a, '_', b, ' ');
    var t := a + " " + b;
    assert t[0] == a[0] && t[1..] == a[1..] + " " + b;
  }

  /** The employment label: lower-cased, then the first "_" becomes a space. */
  function EmploymentLabel(status: string): (r: string)
    ensures |r| == |status|
    ensures forall k :: 0 <= k < |r| ==> !('A' <= r[k] <= 'Z')
  {
    ReplaceFirstChar(ToLower(status), '_', ' ');
    ReplaceFirst(ToLower(status), "_", " ")
  }

  /**
   * For an employment status `a + "_" + b` whose part `a` holds no
   * underscore, the label is both parts lower-cased around a space
   * ("SELF_EMPLOYED" is shown as "self employed").
   */
  lemma EmploymentLabelOfSnakeCase(a: string, b: string)
    requires '_' !in a
    ensures EmploymentLabel(a + "_" + b) == ToLower(a) + " " + ToLower(b)
  {
    var s := a + "_" + b;
    assert ToLower(s) == ToLower(a) + "_" + ToLower(b);
    forall k | 0 <= k < |a| ensures ToLower(a)[k] != '_' {
      assert a[k] in a;
    }
    ReplaceFirstCharSplit(ToLower(a), '_', ToLower(b), ' ');
  }

  /** The table rows: `loansData?.data?.data?.data ?? []`. */
  function Loans<T>(q: Option<ListResponse.Response<T>>): seq<T> {
    ListResponse.Rows(q)
  }

  /** The title count: `loansData?.data?.data?.total ?? 0`. */
  function LoanTotal<T>(q: Option<ListResponse.Response<T>>): int {
    ListResponse.Total(q)
  }

  /** Before the query answers, the page shows no rows and a total of 0. */
  lemma MissingResponseShowsNothing<T>(q: Option<ListResponse.Response<T>>)
    requires q.None? || q.value.data.None? || q.value.data.value.data.None?
    ensures Loans(q) == [] && LoanTotal(q) == 0
  {
  }
}
