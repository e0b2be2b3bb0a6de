/**
 * The geometry table: the stored locations sorted by id (newest first),
 * shown ten to a page, with inline editing and an add form.
 */
module GeometryTable {
  import opened Wrappers
  import opened Seqs
  import opened JsMath
  import opened Backend

  const ItemsPerPage: nat := 10
  const MaxNameLength: nat := 50
  const WktPreviewLength: nat := 100

  /** A stored location as the table receives it. */
  datatype Row = Row(id: int, name: string, wkt: string)

  /** The text of the name and WKT inputs. */
  datatype Form = Form(name: string, wkt: string)

  /** The alerts the handlers raise. */
  datatype Alert = FillAllFields | NameTooLong | UpdateFailed | DeleteFailed | AddFailed

  /** The outcome of `getData()`: a failure, or a response whose `data` may be missing. */
  datatype FetchResponse = FetchFailed | Fetched(data: Option<seq<Row>>)

  // ---------------------------------------------------------------------
  // Sorting by id, largest first

  predicate SortedByIdDesc(rows: seq<Row>) {
    forall i, j :: 0 <= i < j < |rows| ==> rows[i].id >= rows[j].id
  }

  /** Inserts `x` after every row whose id is at least its own. */
  function InsertByIdDesc(x: Row, rows: seq<Row>): (r: seq<Row>)
    requires SortedByIdDesc(rows)
    ensures SortedByIdDesc(r)
    ensures |r| == |rows| + 1
    ensures forall y :: y in r <==> y in rows || y == x
    decreases |rows|
  {
    if rows == [] then [x]
    else if rows[0].id >= x.id then
      var tail := InsertByIdDesc(x, rows[1..]);
      assert forall y :: y in rows <==> y == rows[0] || y in rows[1..] by {
        assert rows == [rows[0]] + rows[1..];
      }
      assert forall i :: 0 <= i < |tail| ==> tail[i].id <= rows[0].id by {
        forall i | 0 <= i < |tail| ensures tail[i].id <= rows[0].id {
          assert tail[i] in tail;
        }
      }
      [rows[0]] + tail
    else [x] + rows
  }

  /** Inserting adds exactly `x` to the rows. */
  lemma {:induction false} InsertAddsOneRow(x: Row, rows: seq<Row>)
    requires SortedByIdDesc(rows)
    ensures multiset(InsertByIdDesc(x, rows)) == multiset(rows) + multiset{x}
    decreases |rows|
  {
    if rows != [] && rows[0].id >= x.id {
      InsertAddsOneRow(x, rows[1..]);
      assert rows == [rows[0]] + rows[1..];
    }
  }

  /**
   * `rows.sort((a, b) => b.id - a.id)`: a stable sort, largest id first.
   * The result is sorted and has as many rows as the input.
   */
  function SortByIdDesc(rows: seq<Row>): (r: seq<Row>)
    ensures SortedByIdDesc(r)
    ensures |r| == |rows|
    decreases |rows|
  {
    if rows == [] then []
    else InsertByIdDesc(rows[|rows| - 1], SortByIdDesc(rows[..|rows| - 1]))
  }

  /** The sort is a permutation: it holds exactly the input rows. */
  lemma {:induction false} SortIsPermutation(rows: seq<Row>)
    ensures multiset(SortByIdDesc(rows)) == multiset(rows)
    decreases |rows|
  {
    if rows != [] {
      var init, last := rows[..|rows| - 1], rows[|rows| - 1];
      assert rows == init + [last];
      SortIsPermutation(init);
      InsertAddsOneRow(last, SortByIdDesc(init));
    }
  }

  function HasId(k: int): Row -> bool {
    (row: Row) => row.id == k
  }

  /** Inserting into a sorted sequence puts `x` after every row with the same id. */
  lemma {:induction false} InsertKeepsOrderOfEqualIds(x: Row, rows: seq<Row>, k: int)
    requires SortedByIdDesc(rows)
    ensures Filter(InsertByIdDesc(x, rows), HasId(k))
         == Filter(rows, HasId(k)) + (if x.id == k then [x] else [])
    decreases |rows|
  {
    var keep := HasId(k);
    if rows == [] {
      assert Filter([x], keep) == (if keep(x) then [x] else []) + Filter([], keep);
    } else if rows[0].id >= x.id {
      var r, tail := InsertByIdDesc(x, rows), InsertByIdDesc(x, rows[1..]);
      assert r == [rows[0]] + tail;
      assert r[0] == rows[0] && r[1..] == tail;
      InsertKeepsOrderOfEqualIds(x, rows[1..], k);
      calc {
        Filter(r, keep);
        (if keep(rows[0]) then [rows[0]] else []) + Filter(tail, keep);
        (if keep(rows[0]) then [rows[0]] else []) + (Filter(rows[1..], keep) + (if x.id == k then [x] else []));
        Filter(rows, keep) + (if x.id == k then [x] else []);
      }
    } else {
      var r := [x] + rows;
      assert r[0] == x && r[1..] == rows;
      assert Filter(r, keep) == (if keep(x) then [x] else []) + Filter(rows, keep);
      if x.id == k {
        // every row is below x.id, so none has id k
        forall i | 0 <= i < |rows| ensures rows[i].id < k {
          assert rows[0].id >= rows[i].id || i == 0;
        }
        FilterNone(rows, k);
      }
    }
  }

  lemma {:induction false} FilterNone(rows: seq<Row>, k: int)
    requires forall i :: 0 <= i < |rows| ==> rows[i].id < k
    ensures Filter(rows, HasId(k)) == []
    decreases |rows|
  {
    if rows != [] {
      FilterNone(rows[1..], k);
    }
  }

  /** The sort is stable: rows that share an id keep their original order. */
  lemma {:induction false} SortIsStable(rows: seq<Row>, k: int)
    ensures Filter(SortByIdDesc(rows), HasId(k)) == Filter(rows, HasId(k))
    decreases |rows|
  {
    if rows != [] {
      var init, last := rows[..|rows| - 1], rows[|rows| - 1];
      assert rows == init + [last];
      var keep := HasId(k);
      var extra := if last.id == k then [last] else [];
      calc {
        Filter(SortByIdDesc(rows), keep);
        Filter(InsertByIdDesc(last, SortByIdDesc(init)), keep);
        { InsertKeepsOrderOfEqualIds(last, SortByIdDesc(init), k); }
        Filter(SortByIdDesc(init), keep) + extra;
        { SortIsStable(init, k); }
        Filter(init, keep) + extra;
        { assert Filter([last], keep) == extra + Filter([], keep); }
        Filter(init, keep) + Filter([last], keep);
        { FilterAppend(init, [last], keep); }
        Filter(rows, keep);
      }
    }
  }

  /** The rows `fetchData` stores: the sorted `data`, or nothing when it is missing or the call fails. */
  function FetchedRows(response: FetchResponse): (r: seq<Row>)
    ensures SortedByIdDesc(r)
    ensures response.Fetched? && response.data.Some? ==> multiset(r) == multiset(response.data.value)
    ensures !(response.Fetched? && response.data.Some?) ==> r == []
  {
    match response
    case Fetched(Some(rows)) => SortIsPermutation(rows); SortByIdDesc(rows)
    case _ => []
  }

  // ---------------------------------------------------------------------
  // Pagination

  /** `Math.ceil(length / itemsPerPage)`: the least page count that holds every row. */
  function TotalPages(length: nat): (pages: nat)
    ensures pages * ItemsPerPage >= length
    ensures (pages - 1) * ItemsPerPage < length || pages == 0
  {
    CeilQuotientIsLeastSufficient(length as real, ItemsPerPage as real);
    Ceil(length as real / ItemsPerPage as real)
  }

  /** `data.slice(page * 10 - 10, page * 10)`: the rows of page `page`. */
  function CurrentItems(data: seq<Row>, page: nat): (items: seq<Row>)
    requires page >= 1
    ensures |items| <= ItemsPerPage
    ensures var first := (page - 1) * ItemsPerPage;
      first <= |data| ==> items == data[first..if page * ItemsPerPage <= |data| then page * ItemsPerPage else |data|]
    ensures (page - 1) * ItemsPerPage >= |data| ==> items == []
  {
    Slice(data, page * ItemsPerPage - ItemsPerPage, page * ItemsPerPage)
  }

  /** Every page from the first to the last is non-empty, and pages past the last are empty. */
  lemma PageEmptyIffPastLast(data: seq<Row>, page: nat)
    requires page >= 1
    ensures CurrentItems(data, page) == [] <==> page > TotalPages(|data|)
  {
    var total := TotalPages(|data|);
    if page <= total {
      assert (page - 1) * ItemsPerPage <= (total - 1) * ItemsPerPage;
    }
  }

  /** The first `k` pages, one after another. */
  function FirstPages(data: seq<Row>, k: nat): seq<Row> {
    if k == 0 then [] else FirstPages(data, k - 1) + CurrentItems(data, k)
  }

  /** Reading the pages in order from 1 to `totalPages` shows every row exactly once, in order. */
  lemma PagesCoverData(data: seq<Row>)
    ensures FirstPages(data, TotalPages(|data|)) == data
  {
    FirstPagesArePrefix(data, TotalPages(|data|));
  }

  lemma {:induction false} FirstPagesArePrefix(data: seq<Row>, k: nat)
    ensures FirstPages(data, k) == data[..if k * ItemsPerPage <= |data| then k * ItemsPerPage else |data|]
    decreases k
  {
    if k > 0 {
      FirstPagesArePrefix(data, k - 1);
    }
  }

  /** "Previous" is disabled on the first page. */
  predicate PreviousDisabled(currentPage: int) {
    currentPage == 1
  }

  /** "Next" is disabled on the last page and when there are no pages. */
  predicate NextDisabled(currentPage: int, totalPages: nat) {
    currentPage == totalPages || totalPages == 0
  }

  /** From a page within range, the enabled buttons only lead to pages within range. */
  lemma NavigationStaysInRange(currentPage: int, totalPages: nat)
    requires 1 <= currentPage <= totalPages
    ensures !PreviousDisabled(currentPage) ==> 1 <= currentPage - 1
    ensures !NextDisabled(currentPage, totalPages) ==> currentPage + 1 <= totalPages
    ensures NextDisabled(currentPage, totalPages) <==> currentPage == totalPages
  {
  }

  /**
   * The "Next" guard tests equality only: on a page past the last one
   * (left there when rows disappear), the page is empty and "Next" stays
   * enabled.
   */
  lemma NextEnabledPastLastPage(data: seq<Row>, currentPage: nat)
    requires currentPage > TotalPages(|data|) >= 1
    ensures CurrentItems(data, currentPage) == []
    ensures !NextDisabled(currentPage, TotalPages(|data|))
  {
    PageEmptyIffPastLast(data, currentPage);
  }

  // ---------------------------------------------------------------------
  // Display

  /** The WKT cell: the first 100 characters and "..." for a longer text, the text itself otherwise. */
  function WktCell(wkt: string): (cell: string)
    ensures |wkt| <= WktPreviewLength ==> cell == wkt
    ensures |wkt| > WktPreviewLength ==>
      |cell| == WktPreviewLength + 3 && cell[..WktPreviewLength] == wkt[..WktPreviewLength]
      && cell[WktPreviewLength..] == "..."
  {
    if |wkt| > WktPreviewLength then wkt[..WktPreviewLength] + "..." else wkt
  }

  /** A cell never exceeds 103 characters and always begins with the start of the WKT. */
  lemma WktCellBounded(wkt: string)
    ensures |WktCell(wkt)| <= WktPreviewLength + 3
    ensures var n := if |wkt| <= WktPreviewLength then |wkt| else WktPreviewLength;
      WktCell(wkt)[..n] == wkt[..n]
  {
  }

  // ---------------------------------------------------------------------
  // Validation

  /** `handleAdd`'s checks, in order: both fields filled, then the name at most 50 characters. */
  function AddRejection(item: Form): (alert: Option<Alert>)
    ensures alert.None? <==> item.name != "" && item.wkt != "" && |item.name| <= MaxNameLength
    ensures alert.Some? ==> alert.value in {FillAllFields, NameTooLong}
  {
    if item.name == "" || item.wkt == "" then Some(FillAllFields)
    else if |item.name| > MaxNameLength then Some(NameTooLong)
    else None
  }

  // ---------------------------------------------------------------------
  // Component state

  class GeometryTable {
    var data: seq<Row>
    var editingId: Option<int>
    var formData: Form
    var newItem: Form
    var showAddForm: bool
    var currentPage: int
    /** The backend requests issued so far, oldest first. */
    var requests: seq<Request>

    ghost predicate Valid()
      reads this
    {
      currentPage >= 1
    }

    constructor()
      ensures Valid()
      ensures data == [] && editingId == None && formData == Form("", "") && newItem == Form("", "")
      ensures !showAddForm && currentPage == 1 && requests == []
    {
      data := [];
      editingId := None;
      formData := Form("", "");
      newItem := Form("", "");
      showAddForm := false;
      currentPage := 1;
      requests := [];
    }

    /** The rows on the current page. */
    function CurrentPageRows(): seq<Row>
      reads this
      requires Valid()
    {
      CurrentItems(data, currentPage)
    }

    /** `fetchData`: one `getData` request; the rows become the sorted response, or nothing. */
    method FetchData(response: FetchResponse)
      modifies this
      ensures requests == old(requests) + [GetAll]
      ensures data == FetchedRows(response)
      ensures editingId == old(editingId) && formData == old(formData) && newItem == old(newItem)
      ensures showAddForm == old(showAddForm) && currentPage == old(currentPage)
    {
      requests := requests + [GetAll];
      match response {
        case Fetched(Some(rows)) =>
          data := SortByIdDesc(rows);
        case _ =>
          data := [];
      }
    }

    /** `handleEdit`: starts editing `item`, copying its name and WKT into the form. */
    method HandleEdit(item: Row)
      modifies this
      ensures editingId == Some(item.id) && formData == Form(item.name, item.wkt)
      ensures data == old(data) && newItem == old(newItem) && showAddForm == old(showAddForm)
      ensures currentPage == old(currentPage) && requests == old(requests)
    {
      editingId := Some(item.id);
      formData := Form(item.name, item.wkt);
    }

    /** The edit form's name input: replaces only the name, keeping the typed WKT. */
    method OnFormNameChange(value: string)
      modifies this`formData
      ensures formData == old(formData).(name := value)
    {
      formData := formData.(name := value);
    }

    /** The edit form's WKT input: replaces only the WKT, keeping the typed name. */
    method OnFormWktChange(value: string)
      modifies this`formData
      ensures formData == old(formData).(wkt := value)
    {
      formData := formData.(wkt := value);
    }

    /** The add form's name input: replaces only the name, keeping the typed WKT. */
    method OnNewItemNameChange(value: string)
      modifies this`newItem
      ensures newItem == old(newItem).(name := value)
    {
      newItem := newItem.(name := value);
    }

    /** The add form's WKT input: replaces only the WKT, keeping the typed name. */
    method OnNewItemWktChange(value: string)
      modifies this`newItem
      ensures newItem == old(newItem).(wkt := value)
    {
      newItem := newItem.(wkt := value);
    }

    /** The "Yeni Ekle" button shows or hides the add form. */
    method ToggleAddForm()
      modifies this`showAddForm
      ensures showAddForm == !old(showAddForm)
    {
      showAddForm := !showAddForm;
    }

    /**
     * `handleSave`: a name over 50 characters is refused with no request
     * and the row stays in edit mode. Otherwise `updateLocation(editingId,
     * …)` is called; the client takes only its first argument, so the
     * request carries the bare id and no path id. On success editing ends
     * and the rows are fetched again; on failure only an alert is raised.
     */
    method HandleSave(updateOk: bool, refetch: FetchResponse) returns (alert: Option<Alert>)
      modifies this
      ensures |old(formData.name)| > MaxNameLength ==>
        alert == Some(NameTooLong) && requests == old(requests) && editingId == old(editingId) && data == old(data)
      ensures |old(formData.name)| <= MaxNameLength && old(editingId).Some? ==>
        var sent := old(requests) + [UpdateLocation(NumberArg(old(editingId).value))];
        if updateOk then
          alert == None && editingId == None && requests == sent + [GetAll] && data == FetchedRows(refetch)
        else
          alert == Some(UpdateFailed) && editingId == old(editingId) && requests == sent && data == old(data)
      ensures |old(formData.name)| <= MaxNameLength && old(editingId).None? ==>
        alert == Some(UpdateFailed) && editingId == old(editingId) && requests == old(requests) && data == old(data)
      ensures formData == old(formData) && newItem == old(newItem)
      ensures showAddForm == old(showAddForm) && currentPage == old(currentPage)
    {
      if |formData.name| > MaxNameLength {
        return Some(NameTooLong);
      }
      match editingId {
        case None =>
          // reading `.id` of null throws before any request is sent
          alert := Some(UpdateFailed);
        case Some(id) =>
          requests := requests + [UpdateLocation(NumberArg(id))];
          if updateOk {
            editingId := None;
            FetchData(refetch);
            alert := None;
          } else {
            alert := Some(UpdateFailed);
          }
      }
    }

    /** `handleDelete`: one delete request; the rows are fetched again when it succeeds. */
    method HandleDelete(id: int, deleteOk: bool, refetch: FetchResponse) returns (alert: Option<Alert>)
      modifies this
      ensures deleteOk ==> alert == None && requests == old(requests) + [Delete(Some(id)), GetAll]
                           && data == FetchedRows(refetch)
      ensures !deleteOk ==> alert == Some(DeleteFailed) && requests == old(requests) + [Delete(Some(id))]
                            && data == old(data)
      ensures editingId == old(editingId) && formData == old(formData) && newItem == old(newItem)
      ensures showAddForm == old(showAddForm) && currentPage == old(currentPage)
    {
      requests := requests + [Delete(Some(id))];
      if deleteOk {
        FetchData(refetch);
        alert := None;
      } else {
        alert := Some(DeleteFailed);
      }
    }

    /**
     * `handleAdd`: an empty field or a name over 50 characters is refused
     * with no request. Otherwise `addData(newItem)` is called; on success
     * the add form is emptied and hidden and the rows are fetched again.
     */
    method HandleAdd(addOk: bool, refetch: FetchResponse) returns (alert: Option<Alert>)
      modifies this
      ensures AddRejection(old(newItem)).Some? ==>
        alert == AddRejection(old(newItem)) && requests == old(requests) && newItem == old(newItem)
        && showAddForm == old(showAddForm) && data == old(data)
      ensures AddRejection(old(newItem)).None? && addOk ==>
        alert == None && newItem == Form("", "") && !showAddForm && data == FetchedRows(refetch)
        && requests == old(requests) + [Add(old(newItem).name, old(newItem).wkt), GetAll]
      ensures AddRejection(old(newItem)).None? && !addOk ==>
        alert == Some(AddFailed) && newItem == old(newItem) && showAddForm == old(showAddForm)
        && data == old(data) && requests == old(requests) + [Add(old(newItem).name, old(newItem).wkt)]
      ensures editingId == old(editingId) && formData == old(formData) && currentPage == old(currentPage)
    {
      alert := AddRejection(newItem);
      if alert.Some? {
        return;
      }
      requests := requests + [Add(newItem.name, newItem.wkt)];
      if addOk {
        newItem := Form("", "");
        showAddForm := false;
        FetchData(refetch);
      } else {
        alert := Some(AddFailed);
      }
    }

    /** The "Previous" button: moves back one page unless it is disabled. */
    method ClickPrevious()
      requires Valid()
      modifies this`currentPage
      ensures Valid()
      ensures currentPage == if PreviousDisabled(old(currentPage)) then old(currentPage) else old(currentPage) - 1
    {
      if !PreviousDisabled(currentPage) {
        currentPage := currentPage - 1;
      }
    }

    /** The "Next" button: moves forward one page unless it is disabled. */
    method ClickNext()
      requires Valid()
      modifies this`currentPage
      ensures Valid()
      ensures currentPage == if NextDisabled(old(currentPage), TotalPages(|data|)) then old(currentPage)
                             else old(currentPage) + 1
    {
      if !NextDisabled(currentPage, TotalPages(|data|)) {
        currentPage := currentPage + 1;
      }
    }
  }
}
