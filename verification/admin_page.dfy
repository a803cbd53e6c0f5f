/**
 * The admin table's page and selection state: page changes within range,
 * the pagination buttons, and the delete flow, which asks for confirmation
 * and after a successful delete steps back from a page it emptied.
 */
module AdminPage {
  import opened Js
  import opened QueryCache
  import opened Pagination

  /** `data?.data?.surveys || []` */
  function SurveysOf(data: Option<QueryData>): (r: seq<Record>)
    ensures data.None? || data.value.data.None? || data.value.data.value.surveys.None? ==> r == []
    ensures data.Some? && data.value.data.Some? && data.value.data.value.surveys.Some? ==>
              r == data.value.data.value.surveys.value
  {
    if data.Some? && data.value.data.Some? && data.value.data.value.surveys.Some?
    then data.value.data.value.surveys.value
    else []
  }

  /** `data?.data?.totalPages || 1`: an absent or zero count reads as one page. */
  function TotalPagesOf(data: Option<QueryData>): (r: int)
    ensures r != 0
    ensures data.None? || data.value.data.None? || data.value.data.value.totalPages.None? ==> r == 1
    ensures data.Some? && data.value.data.Some? && data.value.data.value.totalPages.Some? ==>
              r == (if data.value.data.value.totalPages.value != 0 then data.value.data.value.totalPages.value else 1)
  {
    if data.Some? && data.value.data.Some? && data.value.data.value.totalPages.Some?
       && data.value.data.value.totalPages.value != 0
    then data.value.data.value.totalPages.value
    else 1
  }

  /** `Array.from({ length: totalPages }, (_, i) => i + 1)`: a negative length gives no buttons. */
  function PageButtons(totalPages: int): (r: seq<int>)
    ensures |r| == if totalPages > 0 then totalPages else 0
    ensures forall i :: 0 <= i < |r| ==> r[i] == i + 1
  {
    if totalPages <= 0 then [] else seq(totalPages, i requires 0 <= i < totalPages => i + 1)
  }

  /** Every page button names a page `handlePageChange` accepts, and every such page has a button. */
  lemma PageButtonsAreExactlyTheValidPages(current: int, totalPages: int)
    ensures forall p :: p in PageButtons(totalPages) <==> 1 <= p <= totalPages
    ensures forall p :: p in PageButtons(totalPages) ==> PageAfterChange(current, p, totalPages) == p
  {
    var buttons := PageButtons(totalPages);
    forall p | 1 <= p <= totalPages ensures p in buttons {
      assert buttons[p - 1] == p;
    }
  }

  predicate PrevDisabled(currentPage: int) {
    currentPage == 1
  }

  predicate NextDisabled(currentPage: int, totalPages: int) {
    currentPage == totalPages
  }

  /** On a page within range, an enabled prev or next button always moves the page by one. */
  lemma EnabledNeighbourButtonsMove(currentPage: int, totalPages: int)
    requires 1 <= currentPage <= totalPages
    ensures !PrevDisabled(currentPage) ==> PageAfterChange(currentPage, currentPage - 1, totalPages) == currentPage - 1
    ensures !NextDisabled(currentPage, totalPages) ==> PageAfterChange(currentPage, currentPage + 1, totalPages) == currentPage + 1
    ensures PrevDisabled(currentPage) ==> PageAfterChange(currentPage, currentPage - 1, totalPages) == currentPage
    ensures NextDisabled(currentPage, totalPages) ==> PageAfterChange(currentPage, currentPage + 1, totalPages) == currentPage
  {
  }

  /** The delete `onSuccess` page rule: step back only from a page that held one survey. */
  function PageAfterDelete(currentPage: int, rowsOnPage: nat): (r: int)
    ensures rowsOnPage == 1 && currentPage > 1 ==> r == currentPage - 1
    ensures !(rowsOnPage == 1 && currentPage > 1) ==> r == currentPage
    ensures currentPage >= 1 ==> r >= 1
    ensures r <= currentPage
  {
    if rowsOnPage == 1 && currentPage > 1 then currentPage - 1 else currentPage
  }

  class AdminPanel {
    var currentPage: int
    var selected: Option<Record>
    /** The `_id`s handed to `deleteSurvey`, in order. */
    var deleteRequests: seq<JsValue>

    constructor ()
      ensures currentPage == 1 && selected.None? && deleteRequests == []
    {
      currentPage := 1;
      selected := None;
      deleteRequests := [];
    }

    /** `handlePageChange(newPage)` against the total of the page being shown. */
    method HandlePageChange(newPage: int, data: Option<QueryData>)
      modifies this
      ensures currentPage == PageAfterChange(old(currentPage), newPage, TotalPagesOf(data))
      ensures selected == old(selected) && deleteRequests == old(deleteRequests)
    {
      var totalPages := TotalPagesOf(data);
      if newPage >= 1 && newPage <= totalPages {
        currentPage := newPage;
      }
    }

    /** The row's view button (확인), which shows the survey in the detail panel. */
    method Select(row: Record)
      modifies this
      ensures selected == Some(row)
      ensures currentPage == old(currentPage) && deleteRequests == old(deleteRequests)
    {
      selected := Some(row);
    }

    /**
     * `onDelete(row)`: the user's answer to the confirmation is `confirmed`,
     * the server's answer is `succeeded`. Declining sends nothing; a success
     * clears the selection and applies the page rule to the rows shown.
     */
    method OnDelete(row: Record, data: Option<QueryData>, confirmed: bool, succeeded: bool)
      modifies this
      ensures !confirmed ==>
                deleteRequests == old(deleteRequests) && currentPage == old(currentPage) && selected == old(selected)
      ensures confirmed ==> deleteRequests == old(deleteRequests) + [Get(row, "_id")]
      ensures confirmed && succeeded ==>
                currentPage == PageAfterDelete(old(currentPage), |SurveysOf(data)|) && selected.None?
      ensures confirmed && !succeeded ==> currentPage == old(currentPage) && selected == old(selected)
    {
      if !confirmed {
        return;
      }
      deleteRequests := deleteRequests + [Get(row, "_id")];
      if succeeded {
        var surveys := SurveysOf(data);
        if |surveys| == 1 && currentPage > 1 {
          currentPage := currentPage - 1;
        }
        selected := None;
      }
    }
  }
}
