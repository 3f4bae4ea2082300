/** The change-request summary table: one row per product with its pending,
    approved and rejected counts and its "needs review" flag; a search box and
    two drop-down filters narrow the table, check boxes select rows, and the
    bulk approve / reject buttons are enabled by a precondition on the
    selected rows that are still shown. */
module RequestsList {
  import opened Seqs
  import opened Text

  /** One row of the table: a pre-aggregated summary of a product's field changes. */
  datatype ProductChangeRequest = ProductChangeRequest(
    id: int,
    name: string,
    totalItems: int,
    pendingItems: int,
    approvedItems: int,
    rejectedItems: int,
    needsReview: bool)

  /** The rows the table is built from. */
  const MockData: seq<ProductChangeRequest> := [
    ProductChangeRequest(1276, "Jack Daniel's Single Barrel", 8, 3, 4, 1, false),
    ProductChangeRequest(1280, "Johnnie Walker Blue Label", 5, 2, 2, 1, true),
    ProductChangeRequest(1283, "Macallan 18 Year", 6, 0, 5, 1, false),
    ProductChangeRequest(1290, "Grey Goose Vodka", 4, 4, 0, 0, false),
    ProductChangeRequest(1295, "Patron Silver Tequila", 7, 1, 4, 2, true),
    ProductChangeRequest(1301, "Hendrick's Gin", 3, 3, 0, 0, false),
    ProductChangeRequest(1308, "Rémy Martin XO", 5, 0, 3, 2, false),
    ProductChangeRequest(1315, "Don Julio 1942", 9, 5, 3, 1, true)
  ]

  // ---------------------------------------------------------------------------
  // Filtering

  /** The search box: case-insensitive substring match on the product name. */
  predicate MatchesSearch(item: ProductChangeRequest, search: string) {
    MatchesQuery(item.name, search)
  }

  /** The "needs review" drop-down: its three options, and any other value. */
  datatype ReviewFilter = AllReviews | NeedsReview | NoReviewNeeded | OtherReview

  /** The "pending items" drop-down: its three options, and any other value. */
  datatype PendingFilter = AllPending | HasPending | NoPending | OtherPending

  /** The option a "needs review" value selects: "all", "yes" or "no". */
  function ReviewFilterOf(value: string): (f: ReviewFilter)
    ensures f == AllReviews <==> value == "all"
    ensures f == NeedsReview <==> value == "yes"
    ensures f == NoReviewNeeded <==> value == "no"
  {
    if value == "all" then AllReviews
    else if value == "yes" then NeedsReview
    else if value == "no" then NoReviewNeeded
    else OtherReview
  }

  /** The option a "pending items" value selects: "all", "has-pending" or "no-pending". */
  function PendingFilterOf(value: string): (f: PendingFilter)
    ensures f == AllPending <==> value == "all"
    ensures f == HasPending <==> value == "has-pending"
    ensures f == NoPending <==> value == "no-pending"
  {
    if value == "all" then AllPending
    else if value == "has-pending" then HasPending
    else if value == "no-pending" then NoPending
    else OtherPending
  }

  /** The review test of the table filter; a value that is not an option matches nothing. */
  predicate MatchesReview(item: ProductChangeRequest, filter: ReviewFilter) {
    match filter
    case AllReviews => true
    case NeedsReview => item.needsReview
    case NoReviewNeeded => !item.needsReview
    case OtherReview => false
  }

  /** The pending test of the table filter; a value that is not an option matches nothing. */
  predicate MatchesPending(item: ProductChangeRequest, filter: PendingFilter) {
    match filter
    case AllPending => true
    case HasPending => item.pendingItems > 0
    case NoPending => item.pendingItems == 0
    case OtherPending => false
  }

  /** The three criteria above, all of which a shown row must meet. */
  function Criteria(search: string, review: ReviewFilter, pending: PendingFilter): ProductChangeRequest -> bool {
    (item: ProductChangeRequest) => MatchesSearch(item, search) && MatchesReview(item, review) && MatchesPending(item, pending)
  }

  /** The rows the table shows. */
  function FilterRequests(data: seq<ProductChangeRequest>, search: string, review: ReviewFilter, pending: PendingFilter)
    : (shown: seq<ProductChangeRequest>)
    ensures forall item :: item in shown <==>
      item in data && MatchesSearch(item, search) && MatchesReview(item, review) && MatchesPending(item, pending)
    ensures SelectsInOrder(shown, data, Criteria(search, review, pending))
  {
    FilterSelectsInOrder(data, Criteria(search, review, pending));
    Filter(data, Criteria(search, review, pending))
  }

  /** With an empty search and both drop-downs on "all", every row is shown, in order. */
  lemma DefaultFiltersShowAll(data: seq<ProductChangeRequest>)
    ensures FilterRequests(data, "", AllReviews, AllPending) == data
  {
    forall item | item in data
      ensures Criteria("", AllReviews, AllPending)(item)
    {
      EmptyQueryMatches(item.name);
    }
    FilterKeepsAll(data, Criteria("", AllReviews, AllPending));
  }

  /** A drop-down value outside the recognised ones hides every row. */
  lemma UnknownFilterShowsNothing(data: seq<ProductChangeRequest>, search: string, review: string, pending: string)
    requires (review != "all" && review != "yes" && review != "no")
          || (pending != "all" && pending != "has-pending" && pending != "no-pending")
    ensures FilterRequests(data, search, ReviewFilterOf(review), PendingFilterOf(pending)) == []
  {
    FilterKeepsNone(data, Criteria(search, ReviewFilterOf(review), PendingFilterOf(pending)));
  }

  /** The ids of a sequence of rows, in order. */
  function IdsOf(items: seq<ProductChangeRequest>): (ids: seq<int>)
    ensures |ids| == |items|
    ensures forall i :: 0 <= i < |items| ==> ids[i] == items[i].id
  {
    Map(items, (item: ProductChangeRequest) => item.id)
  }

  /** The two drop-downs without the search box. */
  function DropDowns(review: ReviewFilter, pending: PendingFilter): ProductChangeRequest -> bool {
    (item: ProductChangeRequest) => MatchesReview(item, review) && MatchesPending(item, pending)
  }

  /** With an empty search, only the two drop-downs decide which rows are shown. */
  lemma EmptySearchUsesDropDowns(data: seq<ProductChangeRequest>, review: ReviewFilter, pending: PendingFilter)
    ensures FilterRequests(data, "", review, pending) == Filter(data, DropDowns(review, pending))
  {
    forall item | item in data
      ensures Criteria("", review, pending)(item) == DropDowns(review, pending)(item)
    {
      EmptyQueryMatches(item.name);
    }
    FilterCongruent(data, Criteria("", review, pending), DropDowns(review, pending));
  }

  /** Rows flagged for review that still have pending items. */
  predicate FlaggedWithPending(item: ProductChangeRequest) {
    item.needsReview && item.pendingItems > 0
  }

  /** Rows not flagged for review that still have pending items. */
  predicate UnflaggedWithPending(item: ProductChangeRequest) {
    !item.needsReview && item.pendingItems > 0
  }

  /** With an empty search, "needs review" plus "has pending" shows exactly the
      flagged rows with pending items, on any table. */
  lemma NeedsReviewHasPendingShows(data: seq<ProductChangeRequest>)
    ensures FilterRequests(data, "", NeedsReview, HasPending) == Filter(data, FlaggedWithPending)
  {
    EmptySearchUsesDropDowns(data, NeedsReview, HasPending);
    FilterCongruent(data, DropDowns(NeedsReview, HasPending), FlaggedWithPending);
  }

  /** With an empty search, "no review needed" plus "has pending" shows exactly the
      unflagged rows with pending items, on any table. */
  lemma NoReviewHasPendingShows(data: seq<ProductChangeRequest>)
    ensures FilterRequests(data, "", NoReviewNeeded, HasPending) == Filter(data, UnflaggedWithPending)
  {
    EmptySearchUsesDropDowns(data, NoReviewNeeded, HasPending);
    FilterCongruent(data, DropDowns(NoReviewNeeded, HasPending), UnflaggedWithPending);
  }

  /** On the fixture, "needs review" plus "has pending" (by `NeedsReviewHasPendingShows`)
      shows 1280, 1295 and 1315, in that order. */
  lemma ReviewAndPendingFixture()
    ensures IdsOf(Filter(MockData, FlaggedWithPending)) == [1280, 1295, 1315]
  {
  }

  /** On the fixture, "no review needed" plus "has pending" (by `NoReviewHasPendingShows`)
      shows 1276, 1290 and 1301, in that order. */
  lemma NoReviewAndPendingFixture()
    ensures IdsOf(Filter(MockData, UnflaggedWithPending)) == [1276, 1290, 1301]
  {
  }

  /** Every fixture row's total is the sum of its pending, approved and rejected counts. */
  lemma MockDataTotalsAdd()
    ensures forall item :: item in MockData ==>
      item.totalItems == item.pendingItems + item.approvedItems + item.rejectedItems
  {
  }

  // ---------------------------------------------------------------------------
  // Selection

  /** The set of ids of some rows: what `new Set(rows.map(d => d.id))` holds. */
  function IdSet(items: seq<ProductChangeRequest>): (ids: set<int>)
    ensures forall id :: id in ids <==> exists item :: item in items && item.id == id
  {
    if items == [] then {} else {items[0].id} + IdSet(items[1..])
  }

  /** No two rows share an id. */
  predicate DistinctIds(items: seq<ProductChangeRequest>) {
    forall i, j :: 0 <= i < j < |items| ==> items[i].id != items[j].id
  }

  /** The fixture rows have distinct ids. */
  lemma MockDataDistinctIds()
    ensures DistinctIds(MockData)
  {
  }

  /** A filtered view of rows with distinct ids has distinct ids: it keeps rows
      at strictly increasing positions. */
  lemma FilterKeepsDistinctIds(items: seq<ProductChangeRequest>, p: ProductChangeRequest -> bool)
    requires DistinctIds(items)
    ensures DistinctIds(Filter(items, p))
  {
    FilterSelectsInOrder(items, p);
    var idx :| SelectedAt(Filter(items, p), items, p, idx);
  }

  /** Rows with distinct ids give as many ids as rows. */
  lemma {:induction false} IdSetSize(items: seq<ProductChangeRequest>)
    requires DistinctIds(items)
    ensures |IdSet(items)| == |items|
  {
    if items != [] {
      var rest := items[1..];
      assert DistinctIds(rest) by {
        forall i, j | 0 <= i < j < |rest|
          ensures rest[i].id != rest[j].id
        {
          assert rest[i] == items[i + 1] && rest[j] == items[j + 1];
        }
      }
      IdSetSize(rest);
      forall j | 0 <= j < |rest|
        ensures rest[j].id != items[0].id
      {
        assert rest[j] == items[j + 1];
      }
      assert IdSet(items) == {items[0].id} + IdSet(rest);
    }
  }

  /** One row's check box: the clicked id changes membership, no other id does. */
  function ToggledSelection(selected: set<int>, id: int): (after: set<int>)
    ensures id in after <==> id !in selected
    ensures forall other :: other != id ==> (other in after <==> other in selected)
  {
    if id in selected then selected - {id} else selected + {id}
  }

  /** Clicking the same check box twice restores the selection. */
  lemma ToggleTwiceRestores(selected: set<int>, id: int)
    ensures ToggledSelection(ToggledSelection(selected, id), id) == selected
  {
  }

  /** The header check box. It compares the NUMBER of selected ids with the number
      of shown rows, so selected ids that the filters now hide count too. */
  function SelectAllToggled(selected: set<int>, shown: seq<ProductChangeRequest>): (after: set<int>)
    ensures |selected| == |shown| ==> after == {}
    ensures |selected| != |shown| ==> after == IdSet(shown)
  {
    if |selected| == |shown| then {} else IdSet(shown)
  }

  /** From an empty selection, two clicks on the header check box over the same
      shown rows leave the selection empty again (the rows' ids being distinct). */
  lemma SelectAllTwiceFromEmpty(shown: seq<ProductChangeRequest>)
    requires DistinctIds(shown)
    ensures SelectAllToggled(SelectAllToggled({}, shown), shown) == {}
  {
    IdSetSize(shown);
  }

  /** And the first of those clicks selects exactly the shown rows. */
  lemma SelectAllFromEmptySelectsShown(shown: seq<ProductChangeRequest>)
    ensures SelectAllToggled({}, shown) == IdSet(shown)
  {
  }

  /** The header check box is drawn ticked when as many ids are selected as rows
      are shown, and at least one row is shown. */
  predicate HeaderChecked(selected: set<int>, shown: seq<ProductChangeRequest>) {
    |selected| == |shown| && |shown| > 0
  }

  /** Clicking an unticked header check box over rows with distinct ids ticks it;
      clicking a ticked one clears the selection and unticks it. */
  lemma HeaderClickFlipsTick(selected: set<int>, shown: seq<ProductChangeRequest>)
    requires DistinctIds(shown) && shown != []
    ensures HeaderChecked(SelectAllToggled(selected, shown), shown) <==> !HeaderChecked(selected, shown)
  {
    IdSetSize(shown);
  }

  /** The size comparison in action: with "no review needed" and "has pending"
      chosen, rows 1276, 1290 and 1301 are shown (`NoReviewHasPendingShows`); if the hidden rows 1283 and 1308
      are still selected next to 1276, the header check box clears the selection
      although 1290 and 1301 are not selected. */
  lemma SelectAllCountsHiddenIds()
    ensures SelectAllToggled({1276, 1283, 1308}, Filter(MockData, UnflaggedWithPending)) == {}
  {
    NoReviewAndPendingFixture();
    assert |{1276, 1283, 1308}| == 3;
  }

  // ---------------------------------------------------------------------------
  // Bulk-action precondition

  /** Whether a row's id is in the selection. */
  function InSelection(selected: set<int>): ProductChangeRequest -> bool {
    (item: ProductChangeRequest) => item.id in selected
  }

  /** The shown rows that are selected, in table order. */
  function SelectedRows(shown: seq<ProductChangeRequest>, selected: set<int>): (rows: seq<ProductChangeRequest>)
    ensures forall item :: item in rows <==> item in shown && item.id in selected
  {
    FilterMembers(shown, InSelection(selected));
    Filter(shown, InSelection(selected))
  }

  /** The selected rows are the shown rows whose id is selected, in table order
      and each as often as it is shown. */
  lemma SelectedRowsInOrder(shown: seq<ProductChangeRequest>, selected: set<int>)
    ensures SelectsInOrder(SelectedRows(shown, selected), shown, InSelection(selected))
  {
    FilterSelectsInOrder(shown, InSelection(selected));
  }

  /** Over rows with distinct ids, the selected rows are as many as the selected
      ids that some shown row carries: the count the bulk handlers report. */
  lemma SelectedRowsCount(shown: seq<ProductChangeRequest>, selected: set<int>)
    requires DistinctIds(shown)
    ensures |SelectedRows(shown, selected)| == |IdSet(shown) * selected|
  {
    var rows := SelectedRows(shown, selected);
    FilterKeepsDistinctIds(shown, InSelection(selected));
    IdSetSize(rows);
    assert IdSet(rows) == IdSet(shown) * selected;
  }

  /** A row a bulk action may apply to: it has pending items and no review flag. */
  predicate Eligible(item: ProductChangeRequest) {
    item.pendingItems > 0 && !item.needsReview
  }

  /** At least one selected row is shown and every selected shown row is eligible. */
  predicate CanBulkAct(shown: seq<ProductChangeRequest>, selected: set<int>) {
    var rows := SelectedRows(shown, selected);
    |rows| > 0 && forall i :: 0 <= i < |rows| ==> Eligible(rows[i])
  }

  /** The precondition in terms of the shown rows alone. */
  lemma CanBulkActIff(shown: seq<ProductChangeRequest>, selected: set<int>)
    ensures CanBulkAct(shown, selected) <==>
      && (exists item :: item in shown && item.id in selected)
      && (forall item :: item in shown && item.id in selected ==> Eligible(item))
  {
    var rows := SelectedRows(shown, selected);
    assert (exists item :: item in shown && item.id in selected) <==> |rows| > 0 by {
      if |rows| > 0 {
        assert rows[0] in rows;
      }
      if exists item :: item in shown && item.id in selected {
        var item :| item in shown && item.id in selected;
        assert item in rows;
      }
    }
    assert (forall i :: 0 <= i < |rows| ==> Eligible(rows[i])) <==>
           (forall item :: item in shown && item.id in selected ==> Eligible(item)) by {
      if forall item :: item in shown && item.id in selected ==> Eligible(item) {
        forall i | 0 <= i < |rows|
          ensures Eligible(rows[i])
        {
          assert rows[i] in rows;
        }
      }
      if forall i :: 0 <= i < |rows| ==> Eligible(rows[i]) {
        forall item | item in shown && item.id in selected
          ensures Eligible(item)
        {
          assert item in rows;
          var i :| 0 <= i < |rows| && rows[i] == item;
        }
      }
    }
  }

  /** Selected ids that the filters hide have no effect on the precondition. */
  lemma CanBulkActIgnoresHidden(shown: seq<ProductChangeRequest>, selected: set<int>, hidden: set<int>)
    requires hidden !! IdSet(shown)
    ensures CanBulkAct(shown, selected + hidden) == CanBulkAct(shown, selected)
  {
    forall item | item in shown
      ensures InSelection(selected + hidden)(item) == InSelection(selected)(item)
    {
      var i :| 0 <= i < |shown| && shown[i] == item;
      assert item.id in IdSet(shown);
    }
    FilterCongruent(shown, InSelection(selected + hidden), InSelection(selected));
  }

  /** On the full fixture table, the selection {1290} picks out row 1290 alone. */
  lemma SelectedRowsFor1290()
    ensures SelectedRows(MockData, {1290}) == [MockData[3]]
  {
  }

  /** So selecting only 1290 (pending items, no review flag) enables bulk actions. */
  lemma BulkEnabledFor1290()
    ensures CanBulkAct(MockData, {1290})
  {
    SelectedRowsFor1290();
  }

  /** The selection {1283} picks out row 1283 alone. */
  lemma SelectedRowsFor1283()
    ensures SelectedRows(MockData, {1283}) == [MockData[2]]
  {
  }

  /** So selecting only 1283 (nothing pending) leaves bulk actions disabled. */
  lemma BulkDisabledFor1283()
    ensures !CanBulkAct(MockData, {1283})
  {
    SelectedRowsFor1283();
  }

  /** Adding 1280 (needs review) to 1290 disables bulk actions again. */
  lemma BulkDisabledFor1290And1280()
    ensures !CanBulkAct(MockData, {1290, 1280})
  {
  }

  // ---------------------------------------------------------------------------
  // The page's state and its handlers

  /** The table page: fixed rows, the three filter inputs and the selected ids. */
  class ChangeRequestsList {
    const data: seq<ProductChangeRequest>
    var search: string
    var needsReviewFilter: string
    var pendingFilter: string
    var selectedIds: set<int>

    /** The page as first shown: no search, both drop-downs on "all", nothing selected. */
    constructor (data: seq<ProductChangeRequest>)
      ensures this.data == data
      ensures search == "" && needsReviewFilter == "all" && pendingFilter == "all"
      ensures selectedIds == {}
    {
      this.data := data;
      search := "";
      needsReviewFilter := "all";
      pendingFilter := "all";
      selectedIds := {};
    }

    /** The rows currently shown. */
    function FilteredData(): (shown: seq<ProductChangeRequest>)
      reads this
      ensures forall item :: item in shown <==>
        && item in data
        && MatchesSearch(item, search)
        && MatchesReview(item, ReviewFilterOf(needsReviewFilter))
        && MatchesPending(item, PendingFilterOf(pendingFilter))
    {
      FilterRequests(data, search, ReviewFilterOf(needsReviewFilter), PendingFilterOf(pendingFilter))
    }

    /** The shown rows that are selected. */
    function SelectedItems(): (rows: seq<ProductChangeRequest>)
      reads this
      ensures forall item :: item in rows <==> item in FilteredData() && item.id in selectedIds
      ensures SelectsInOrder(rows, FilteredData(), InSelection(selectedIds))
    {
      SelectedRowsInOrder(FilteredData(), selectedIds);
      SelectedRows(FilteredData(), selectedIds)
    }

    /** Whether the bulk buttons are enabled. */
    predicate CanBulkAction()
      reads this
      ensures CanBulkAction() <==>
        && (exists item :: item in FilteredData() && item.id in selectedIds)
        && (forall item :: item in FilteredData() && item.id in selectedIds ==> Eligible(item))
    {
      CanBulkActIff(FilteredData(), selectedIds);
      CanBulkAct(FilteredData(), selectedIds)
    }

    /** Typing in the search box. The selection is kept. */
    method SetSearch(query: string)
      modifies this`search
      ensures search == query
    {
      search := query;
    }

    /** Choosing a "needs review" value. The selection is kept. */
    method SetNeedsReviewFilter(filter: string)
      modifies this`needsReviewFilter
      ensures needsReviewFilter == filter
    {
      needsReviewFilter := filter;
    }

    /** Choosing a "pending items" value. The selection is kept. */
    method SetPendingFilter(filter: string)
      modifies this`pendingFilter
      ensures pendingFilter == filter
    {
      pendingFilter := filter;
    }

    /** The header check box. */
    method ToggleSelectAll()
      modifies this`selectedIds
      ensures selectedIds == SelectAllToggled(old(selectedIds), FilteredData())
      ensures |old(selectedIds)| == |FilteredData()| ==> selectedIds == {}
      ensures |old(selectedIds)| != |FilteredData()| ==> selectedIds == IdSet(FilteredData())
    {
      if |selectedIds| == |FilteredData()| {
        selectedIds := {};
      } else {
        selectedIds := IdSet(FilteredData());
      }
    }

    /** A row's check box: copy the selection, add or delete the id, store the copy. */
    method ToggleSelect(id: int)
      modifies this`selectedIds
      ensures selectedIds == ToggledSelection(old(selectedIds), id)
      ensures id in selectedIds <==> id !in old(selectedIds)
      ensures forall other :: other != id ==> (other in selectedIds <==> other in old(selectedIds))
    {
      var newSet := selectedIds;
      if id in newSet {
        newSet := newSet - {id};
      } else {
        newSet := newSet + {id};
      }
      selectedIds := newSet;
    }

    /** "Approve All": reports how many selected shown rows it acted on and clears
        the selection; the rows themselves are not changed. */
    method HandleBulkApprove() returns (reported: nat)
      modifies this`selectedIds
      ensures reported == |old(SelectedItems())|
      ensures selectedIds == {}
    {
      reported := |SelectedItems()|;
      selectedIds := {};
    }

    /** "Reject All": the same effect as "Approve All". */
    method HandleBulkReject() returns (reported: nat)
      modifies this`selectedIds
      ensures reported == |old(SelectedItems())|
      ensures selectedIds == {}
    {
      reported := |SelectedItems()|;
      selectedIds := {};
    }
  }

  /** A page over rows with distinct ids shows rows with distinct ids, whatever
      its search and drop-downs. */
  lemma FilteredDataDistinctIds(page: ChangeRequestsList)
    requires DistinctIds(page.data)
    ensures DistinctIds(page.FilteredData())
  {
    FilterKeepsDistinctIds(page.data,
      Criteria(page.search, ReviewFilterOf(page.needsReviewFilter), PendingFilterOf(page.pendingFilter)));
  }

  /** On the fixture page, two header clicks from an empty selection leave it
      empty, whatever the filters show. */
  lemma FixturePageSelectAllTwice(page: ChangeRequestsList)
    requires page.data == MockData
    ensures SelectAllToggled(SelectAllToggled({}, page.FilteredData()), page.FilteredData()) == {}
  {
    MockDataDistinctIds();
    FilteredDataDistinctIds(page);
    SelectAllTwiceFromEmpty(page.FilteredData());
  }

  /** On the fixture page, a header click over a non-empty view flips the tick. */
  lemma FixturePageHeaderFlipsTick(page: ChangeRequestsList, selected: set<int>)
    requires page.data == MockData && page.FilteredData() != []
    ensures HeaderChecked(SelectAllToggled(selected, page.FilteredData()), page.FilteredData())
      <==> !HeaderChecked(selected, page.FilteredData())
  {
    MockDataDistinctIds();
    FilteredDataDistinctIds(page);
    HeaderClickFlipsTick(selected, page.FilteredData());
  }

  /** On the fixture page, the bulk handlers report as many rows as there are
      selected ids among the shown rows. */
  lemma FixturePageSelectedCount(page: ChangeRequestsList)
    requires page.data == MockData
    ensures |page.SelectedItems()| == |IdSet(page.FilteredData()) * page.selectedIds|
  {
    MockDataDistinctIds();
    FilteredDataDistinctIds(page);
    SelectedRowsCount(page.FilteredData(), page.selectedIds);
  }
}
