# Approval workflow: a Dafny model of the review logic

The repository is a small React front end for reviewing proposed changes to
product records. All of its review logic lives in three pages. This project
models that logic and proves what each page does with it.

- **Change-request summary table** (`change_requests_list.dfy`, module
  `RequestsList`). The table has one row per product, with its pending, approved
  and rejected item counts and a "needs review" flag. A search box and two
  drop-downs ("needs review", "pending items") narrow the rows, and their tests
  are combined by AND. Check boxes select rows by id. A header check box selects
  all shown rows or clears the selection. It decides between the two by comparing
  the selection's size with the number of shown rows, not by comparing the sets.
  The "Approve All" / "Reject All" buttons are enabled only when at least one
  selected row is shown and every selected shown row has pending items and no
  review flag. Selected rows that the filters hide are ignored by that test. Both
  handlers clear the selection. The page's state is the class `ChangeRequestsList`.
- **Per-product review** (`change_request_detail.dfy`, module `RequestDetail`).
  A product's field changes each have one of three statuses. The page shows how
  many changes have each status. A row's approve / reject button overwrites that
  record's status with no guard. "Approve / Reject All Pending" settles every
  pending record and leaves the others alone. The product comes from the route
  id, which falls back to a sample product. The page's state is the class
  `ChangeRequestDetail`, which holds the changes as a sequence.
- **Product picker** (`product_selector.dfy`, module `ProductSelector`). It is a
  case-insensitive substring filter over a fixed list of eight products, with a
  caption that gives the count and pluralises "product".
- **Shared pieces.** `seqs.dfy` (module `Seqs`) holds `Array.prototype.filter`
  and `map` as sequence functions. Its lemmas cover membership, order
  preservation (the filtered view is the input with the failing elements removed
  at strictly increasing positions), congruence and concatenation. `text.dfy`
  (module `Text`) holds ASCII `toLowerCase`, `includes`, the search match built
  from them, and the decimal text a count is rendered as.

Two subtleties of the code are modelled as written:
- Review "yes" with "has-pending" shows rows 1280, 1295 and 1315. Row 1295
  needs review and has one pending item, so it is included.
- The bulk precondition looks only at the selected rows that are still shown,
  not at every selected id.

## Model

| member | source | states |
|---|---|---|
| `Seqs.Filter` | client/src/pages/change-requests-list.tsx:66-75 | the result is no longer than the input |
| `Seqs.FilterMembers` | client/src/pages/change-requests-list.tsx:66-75 | an element is in the result exactly when it is in the input and passes the test |
| `Seqs.Positions` | client/src/pages/product-selector.tsx:21-23 | the kept elements sit at strictly increasing positions of the input, and those positions are exactly the ones whose element passes |
| `Seqs.FilterSelectsInOrder` | client/src/pages/product-selector.tsx:21-23 | `filter` is an order-preserving selection of exactly the passing elements |
| `Seqs.FilterKeepsAll` | client/src/pages/change-requests-list.tsx:66-75 | when every element passes, the filter returns its input unchanged |
| `Seqs.FilterCongruent` | client/src/pages/change-requests-list.tsx:66-75 | two tests that agree on every element give the same filtered view |
| `Seqs.FilterConcat` | client/src/pages/change-request-detail.tsx:67-69 | filtering distributes over concatenation |
| `Seqs.Map` | client/src/pages/change-request-detail.tsx:73 | `map` keeps the length and applies the function at every position |
| `Text.LowerChar` | client/src/pages/product-selector.tsx:22 | a capital letter is shifted to lower case; any other character is kept; no result is a capital |
| `Text.ToLower` | client/src/pages/product-selector.tsx:22 | lower-casing keeps the length, lowers each character on its own, and leaves no capital |
| `Text.ToLowerIdempotent` | client/src/pages/product-selector.tsx:22 | lower-casing twice is lower-casing once |
| `Text.Includes` | client/src/pages/product-selector.tsx:22 | `haystack.includes(needle)` as a left-to-right scan of start positions; its meaning is `Text.IncludesIffOccurs` |
| `Text.IncludesIffOccurs` | client/src/pages/product-selector.tsx:22 | the left-to-right `includes` scan succeeds exactly when the needle occurs at some offset of the haystack |
| `Text.MatchesQuery` | client/src/pages/change-requests-list.tsx:67 | the search both pages run: the lower-cased name includes the lower-cased query |
| `Text.EmptyQueryMatches` | client/src/pages/change-requests-list.tsx:67 | an empty search matches every name |
| `Text.MatchIgnoresQueryCase` | client/src/pages/change-requests-list.tsx:67 | lower-casing the search first changes no match |
| `Text.DecimalText` | client/src/pages/product-selector.tsx:92 | a rendered count is non-empty and all digits, starts with '0' only for zero, and has no leading zero |
| `Text.DecimalRoundTrip` | client/src/pages/product-selector.tsx:92 | reading a rendered count gives the count back |
| `RequestsList.ReviewFilterOf` | client/src/pages/change-requests-list.tsx:68-70 | the "needs review" options are selected by exactly the values "all", "yes" and "no" |
| `RequestsList.PendingFilterOf` | client/src/pages/change-requests-list.tsx:71-73 | the "pending items" options are selected by exactly the values "all", "has-pending" and "no-pending" |
| `RequestsList.MatchesSearch` | client/src/pages/change-requests-list.tsx:67 | the search test of a row: `MatchesQuery` on its name |
| `RequestsList.MatchesReview` | client/src/pages/change-requests-list.tsx:68-70 | the review test of a row: every row for "all", flagged rows for "yes", unflagged rows for "no", no row for anything else |
| `RequestsList.MatchesPending` | client/src/pages/change-requests-list.tsx:71-73 | the pending test of a row: every row for "all", rows with pending items for "has-pending", rows without for "no-pending", no row for anything else |
| `RequestsList.FilterRequests` | client/src/pages/change-requests-list.tsx:65-76 | a row is shown exactly when the search, review and pending tests all hold, and the shown rows keep their table order |
| `RequestsList.DefaultFiltersShowAll` | client/src/pages/change-requests-list.tsx:60-76 | with no search and both drop-downs on "all", the view is the whole table |
| `RequestsList.UnknownFilterShowsNothing` | client/src/pages/change-requests-list.tsx:68-73 | a drop-down value other than the listed ones hides every row |
| `RequestsList.IdsOf` | client/src/pages/change-requests-list.tsx:82 | the ids of rows, position by position |
| `RequestsList.EmptySearchUsesDropDowns` | client/src/pages/change-requests-list.tsx:67-74 | with no search, only the two drop-downs decide the view |
| `RequestsList.NeedsReviewHasPendingShows` | client/src/pages/change-requests-list.tsx:68-73 | "yes" with "has-pending" and no search shows exactly the flagged rows with pending items |
| `RequestsList.NoReviewHasPendingShows` | client/src/pages/change-requests-list.tsx:68-73 | "no" with "has-pending" and no search shows exactly the unflagged rows with pending items |
| `RequestsList.ReviewAndPendingFixture` | client/src/pages/change-requests-list.tsx:47-56 | on the fixture, those rows are 1280, 1295 and 1315, in that order |
| `RequestsList.NoReviewAndPendingFixture` | client/src/pages/change-requests-list.tsx:47-56 | on the fixture, the unflagged rows with pending items are 1276, 1290 and 1301, in that order |
| `RequestsList.MockDataTotalsAdd` | client/src/pages/change-requests-list.tsx:47-56 | every fixture row's total is its pending plus approved plus rejected items |
| `RequestsList.MockDataDistinctIds` | client/src/pages/change-requests-list.tsx:47-56 | no two fixture rows share an id |
| `RequestsList.FilterKeepsDistinctIds` | client/src/pages/change-requests-list.tsx:65-76 | a filtered view of rows with distinct ids has distinct ids |
| `RequestsList.IdSet` | client/src/pages/change-requests-list.tsx:82 | `new Set(rows.map(d => d.id))` holds exactly the ids of the rows |
| `RequestsList.IdSetSize` | client/src/pages/change-requests-list.tsx:82 | rows with distinct ids give a set of as many ids as rows |
| `RequestsList.ToggledSelection` | client/src/pages/change-requests-list.tsx:86-94 | a row's check box flips the membership of its id and of no other id |
| `RequestsList.ToggleTwiceRestores` | client/src/pages/change-requests-list.tsx:86-94 | clicking the same check box twice restores the selection |
| `RequestsList.SelectAllToggled` | client/src/pages/change-requests-list.tsx:78-84 | equal sizes clear the selection; otherwise it becomes exactly the ids of the shown rows |
| `RequestsList.SelectAllTwiceFromEmpty` | client/src/pages/change-requests-list.tsx:78-84 | from an empty selection, two header clicks over the same rows with distinct ids leave it empty |
| `RequestsList.SelectAllFromEmptySelectsShown` | client/src/pages/change-requests-list.tsx:78-84 | from an empty selection, one header click selects exactly the shown ids |
| `RequestsList.HeaderChecked` | client/src/pages/change-requests-list.tsx:220 | the header check box is ticked when as many ids are selected as rows are shown and some row is shown |
| `RequestsList.HeaderClickFlipsTick` | client/src/pages/change-requests-list.tsx:218-223 | over a non-empty view with distinct ids, a header click turns the tick on exactly when it was off |
| `RequestsList.SelectAllCountsHiddenIds` | client/src/pages/change-requests-list.tsx:79 | hidden selected ids count toward the size test: with rows 1276, 1290 and 1301 shown and {1276, 1283, 1308} selected, the header click clears the selection |
| `RequestsList.SelectedRows` | client/src/pages/change-requests-list.tsx:96 | the selected items are exactly the shown rows whose id is selected |
| `RequestsList.SelectedRowsInOrder` | client/src/pages/change-requests-list.tsx:96 | the selected items are the shown rows whose id is selected, kept in table order at strictly increasing positions, so each shown row appears once |
| `RequestsList.SelectedRowsCount` | client/src/pages/change-requests-list.tsx:96-106 | over rows with distinct ids, the number of selected items (what the handlers report) is the number of selected ids that some shown row carries |
| `RequestsList.Eligible` | client/src/pages/change-requests-list.tsx:98 | a row a bulk action may apply to has pending items and no review flag |
| `RequestsList.CanBulkAct` | client/src/pages/change-requests-list.tsx:97-98 | some row is selected and every selected row is eligible; its meaning over the shown rows is `RequestsList.CanBulkActIff` |
| `RequestsList.CanBulkActIff` | client/src/pages/change-requests-list.tsx:96-98 | bulk actions are enabled exactly when some shown row is selected and every selected shown row has pending items and no review flag |
| `RequestsList.CanBulkActIgnoresHidden` | client/src/pages/change-requests-list.tsx:96-98 | adding selected ids that no shown row has does not change whether bulk actions are enabled |
| `RequestsList.SelectedRowsFor1290` | client/src/pages/change-requests-list.tsx:51 | on the full table, the selection {1290} picks out row 1290 alone |
| `RequestsList.BulkEnabledFor1290` | client/src/pages/change-requests-list.tsx:96-98 | the selection {1290} enables bulk actions |
| `RequestsList.SelectedRowsFor1283` | client/src/pages/change-requests-list.tsx:50 | on the full table, the selection {1283} picks out row 1283 alone |
| `RequestsList.BulkDisabledFor1283` | client/src/pages/change-requests-list.tsx:96-98 | the selection {1283} (nothing pending) leaves bulk actions disabled |
| `RequestsList.BulkDisabledFor1290And1280` | client/src/pages/change-requests-list.tsx:49-51 | the selection {1290, 1280} (1280 needs review) leaves bulk actions disabled |
| `RequestsList.ChangeRequestsList.constructor` | client/src/pages/change-requests-list.tsx:60-63 | the page opens with no search, both drop-downs on "all" and nothing selected |
| `RequestsList.ChangeRequestsList.FilteredData` | client/src/pages/change-requests-list.tsx:65-76 | the shown rows are exactly those passing the three tests on the page's current inputs |
| `RequestsList.ChangeRequestsList.SelectedItems` | client/src/pages/change-requests-list.tsx:96 | the selected items are exactly the shown rows whose id is selected, in table order, each once |
| `RequestsList.ChangeRequestsList.CanBulkAction` | client/src/pages/change-requests-list.tsx:97-98 | the page's bulk buttons are enabled by exactly the condition of `CanBulkActIff` |
| `RequestsList.ChangeRequestsList.SetSearch` | client/src/pages/change-requests-list.tsx:60 | typing sets the search and nothing else; the selection is kept |
| `RequestsList.ChangeRequestsList.SetNeedsReviewFilter` | client/src/pages/change-requests-list.tsx:61 | choosing a review option sets that value and nothing else |
| `RequestsList.ChangeRequestsList.SetPendingFilter` | client/src/pages/change-requests-list.tsx:62 | choosing a pending option sets that value and nothing else |
| `RequestsList.ChangeRequestsList.ToggleSelectAll` | client/src/pages/change-requests-list.tsx:78-84 | the new selection is empty when the old size equals the number of shown rows, and otherwise exactly the shown ids |
| `RequestsList.ChangeRequestsList.ToggleSelect` | client/src/pages/change-requests-list.tsx:86-94 | the clicked id changes membership and no other id does |
| `RequestsList.ChangeRequestsList.HandleBulkApprove` | client/src/pages/change-requests-list.tsx:100-103 | reports the number of selected shown rows and clears the selection; the rows and filters are unchanged |
| `RequestsList.ChangeRequestsList.HandleBulkReject` | client/src/pages/change-requests-list.tsx:105-108 | reports the number of selected shown rows and clears the selection; the rows and filters are unchanged |
| `RequestsList.FilteredDataDistinctIds` | client/src/pages/change-requests-list.tsx:65-76 | a page over rows with distinct ids shows rows with distinct ids, whatever its inputs |
| `RequestsList.FixturePageSelectAllTwice` | client/src/pages/change-requests-list.tsx:78-84 | on the page built on the fixture, two header clicks from an empty selection leave it empty, whatever the filters show |
| `RequestsList.FixturePageHeaderFlipsTick` | client/src/pages/change-requests-list.tsx:218-223 | on the page built on the fixture, a header click over a non-empty view turns the tick on exactly when it was off |
| `RequestsList.FixturePageSelectedCount` | client/src/pages/change-requests-list.tsx:96-106 | on the page built on the fixture, the handlers report as many rows as there are selected ids among the shown rows |
| `RequestDetail.ProductIdOf` | client/src/pages/change-request-detail.tsx:62 | an absent id reads as 0, digits read as their number, and anything else reads as NaN |
| `RequestDetail.LookupProduct` | client/src/pages/change-request-detail.tsx:64 | a known id gives its product, and anything else (NaN included) gives the sample product |
| `RequestDetail.KnownProducts` | client/src/pages/change-request-detail.tsx:34-48 | the only known product id is 1276 |
| `RequestDetail.LookupKnownProduct` | client/src/pages/change-request-detail.tsx:34-48 | route 1276 shows that product's eight changes |
| `RequestDetail.LookupFallsBack` | client/src/pages/change-request-detail.tsx:62-64 | every other route, a missing id included, shows the sample product |
| `RequestDetail.SampleProductCounts` | client/src/pages/change-request-detail.tsx:50-58 | the fallback product is "Sample Product" with four changes: two pending, one approved, one rejected |
| `RequestDetail.Count` | client/src/pages/change-request-detail.tsx:67-69 | a status count never exceeds the number of changes |
| `RequestDetail.CountsPartition` | client/src/pages/change-request-detail.tsx:67-69 | the pending, approved and rejected counts add up to the number of changes |
| `RequestDetail.JackDanielsPending` | client/src/pages/change-request-detail.tsx:38-45 | product 1276 opens with 3 changes pending |
| `RequestDetail.JackDanielsApproved` | client/src/pages/change-request-detail.tsx:38-45 | product 1276 opens with 4 changes approved |
| `RequestDetail.JackDanielsRejected` | client/src/pages/change-request-detail.tsx:38-45 | product 1276 opens with 1 change rejected |
| `RequestDetail.WithUpdatedStatus` | client/src/pages/change-request-detail.tsx:71-75 | length and order are kept; records with another id are unchanged; each record with the id gets the status and keeps its other fields |
| `RequestDetail.UpdateUnknownIdKeepsAll` | client/src/pages/change-request-detail.tsx:73 | an id that no record carries changes nothing |
| `RequestDetail.UpdateLastWins` | client/src/pages/change-request-detail.tsx:73 | of two updates of the same id, the second one wins |
| `RequestDetail.UpdateOverwritesVerdict` | client/src/pages/change-request-detail.tsx:53-56 | no guard: approving the rejected sample change 4 makes it approved, with one more approved and one fewer rejected |
| `RequestDetail.WithPendingSettled` | client/src/pages/change-request-detail.tsx:77-87 | pending records get the verdict and keep their other fields; other records are untouched; length and order are kept; nothing is left pending |
| `RequestDetail.SettleCounts` | client/src/pages/change-request-detail.tsx:77-87 | after settling, nothing is pending, the verdict's count grows by the old pending count, and the other verdict's count is unchanged |
| `RequestDetail.SettleIdempotent` | client/src/pages/change-request-detail.tsx:77-87 | settling again, with either verdict, changes nothing |
| `RequestDetail.SettleWithoutPendingKeepsAll` | client/src/pages/change-request-detail.tsx:77-87 | with nothing pending, settling leaves the changes as they are |
| `RequestDetail.JackDanielsApproveAll` | client/src/pages/change-request-detail.tsx:77-81 | product 1276 goes from 3 / 4 / 1 to 0 / 7 / 1 |
| `RequestDetail.JackDanielsRejectAll` | client/src/pages/change-request-detail.tsx:83-87 | product 1276 goes from 3 / 4 / 1 to 0 / 4 / 4 |
| `RequestDetail.SettleButtonsFollowRows` | client/src/pages/change-request-detail.tsx:182-248 | the "all pending" buttons show exactly when some row shows its own buttons, and they disappear once used |
| `RequestDetail.ShowsSettleButtons` | client/src/pages/change-request-detail.tsx:182 | the "all pending" buttons are shown while some change is pending |
| `RequestDetail.ShowsRowActions` | client/src/pages/change-request-detail.tsx:248 | a row shows its approve / reject buttons while it is pending |
| `RequestDetail.ChangeRequestDetail.PendingCount` | client/src/pages/change-request-detail.tsx:67 | the pending count on the page, never more than the number of changes |
| `RequestDetail.ChangeRequestDetail.ApprovedCount` | client/src/pages/change-request-detail.tsx:68 | the approved count on the page, never more than the number of changes |
| `RequestDetail.ChangeRequestDetail.RejectedCount` | client/src/pages/change-request-detail.tsx:69 | the rejected count on the page, never more than the number of changes |
| `RequestDetail.ChangeRequestDetail.constructor` | client/src/pages/change-request-detail.tsx:61-65 | the page looks the product up from the route and starts from its proposed changes |
| `RequestDetail.ChangeRequestDetail.UpdateStatus` | client/src/pages/change-request-detail.tsx:71-75 | the changes become `WithUpdatedStatus` of the old ones; the three counts still add up to the unchanged length |
| `RequestDetail.ChangeRequestDetail.ApproveAllPending` | client/src/pages/change-request-detail.tsx:77-81 | the changes become the old ones settled as approved; nothing is pending; approved grows by the old pending count; rejected is unchanged |
| `RequestDetail.ChangeRequestDetail.RejectAllPending` | client/src/pages/change-request-detail.tsx:83-87 | the changes become the old ones settled as rejected; nothing is pending; rejected grows by the old pending count; approved is unchanged |
| `ProductSelector.FilteredProducts` | client/src/pages/product-selector.tsx:21-23 | a product is listed exactly when its lower-cased name contains the lower-cased search, the list keeps the products' order, and it is no longer than the input |
| `ProductSelector.AtMostEightListed` | client/src/pages/product-selector.tsx:7-16 | the picker never lists more than its eight products |
| `ProductSelector.EmptySearchListsAll` | client/src/pages/product-selector.tsx:21-23 | an empty search lists every product, in order |
| `ProductSelector.SearchIgnoresCase` | client/src/pages/product-selector.tsx:21-23 | searching for the lower-cased text lists the same products |
| `ProductSelector.PluralSuffix` | client/src/pages/product-selector.tsx:92 | the suffix is empty exactly when the count is 1, and "s" otherwise |
| `ProductSelector.NameMatches` | client/src/pages/product-selector.tsx:22 | a product is matched by `MatchesQuery` on its name |
| `ProductSelector.Caption` | client/src/pages/product-selector.tsx:92 | the caption "<count> product<suffix> available"; what it reads is stated by the three caption lemmas below |
| `ProductSelector.CaptionCountsListed` | client/src/pages/product-selector.tsx:92 | the caption starts with the digits of the listed count, followed by a space, and those digits read back as the count |
| `ProductSelector.CaptionSingular` | client/src/pages/product-selector.tsx:92 | with one product listed the caption is "1 product available" |
| `ProductSelector.CaptionPlural` | client/src/pages/product-selector.tsx:92 | with any other number listed, the count is followed by " products" |

## Left out

- Rendering (JSX, styling, icons, badges, the table layout) is not modelled. The
  only on-screen logic modelled is this: the header tick, the bulk precondition,
  the "all pending" buttons, the row buttons, and the picker's caption.
- "Showing X of Y products", "{n} selected" and "{n} total changes • {m}
  pending review" are left out. They only print numbers the model already
  computes.
- The alert text of the bulk handlers is not modelled, because it is browser
  output. The handlers return the number the alert would report.
- Navigation (`navigate`, `Link`) and the route wiring in `client/src/App.tsx`
  are not modelled: they are routing side effects and library wrappers.
  `client/src/App.tsx` is not part of this model.
- React hook mechanics (`useState`, `useMemo`, when a render happens) are not
  modelled. State is class fields, and each handler is a method that applies
  its update at once.
- Text.ToLower: only the ASCII letters A to Z are lowered. JavaScript's
  `toLowerCase` also lowers other capitals (for example 'É'), and the model does
  not capture that. No fixture name has a capital outside ASCII.
- RequestDetail.ProductIdOf: the route segment is taken as already classified
  (absent or empty, numeric, non-numeric). `parseInt`'s handling of signs,
  whitespace and trailing text is not modelled.
- The drop-downs' state is kept as the selected string, as in the source. The
  tests work on the option that string selects (`ReviewFilterOf`,
  `PendingFilterOf`), and a value outside the listed ones selects an option
  that matches nothing.
- The bulk handlers have no guard in the source. The buttons that call them are
  disabled when the precondition fails. The model keeps them unguarded.
- No lemma evaluates a search term on the fixture names, such as "vodka"
  matching "Grey Goose Vodka". The match is proved in general instead (the
  membership, order and case lemmas).
- RequestsList.SelectAllTwiceFromEmpty: requires the shown rows to have
  distinct ids. With a repeated id, the first click selects fewer ids than there
  are rows, so the second click selects them again instead of clearing. The
  fixture's ids are distinct and filtering keeps them so
  (`RequestsList.FixturePageSelectAllTwice`).
- The fixtures themselves (`MockData`, `ProductData`, `DefaultProduct`,
  `Products`) are constants, not operations. What they hold is stated by the
  lemmas `RequestsList.MockDataDistinctIds`, `RequestsList.MockDataTotalsAdd`,
  `RequestDetail.KnownProducts`, `RequestDetail.SampleProductCounts` and
  `ProductSelector.AtMostEightListed`.
