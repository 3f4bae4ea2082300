/** The review page of one product: its proposed field changes, each pending,
    approved or rejected; the counts of each status; a per-row approve / reject
    that overwrites one record's status; and "approve / reject all pending",
    which settle every record still pending and leave the others alone. */
module RequestDetail {
  import opened Seqs

  /** The three states of a proposed change. */
  datatype Status = Pending | Approved | Rejected

  /** The statuses a reviewer can hand out. */
  type Verdict = s: Status | s != Pending witness Approved

  /** One proposed change to one field of a product. */
  datatype FieldChange = FieldChange(
    id: int,
    fieldName: string,
    currentValue: string,
    proposedValue: string,
    status: Status)

  /** A product under review: its name and its proposed changes. */
  datatype Product = Product(name: string, changes: seq<FieldChange>)

  datatype Option<T> = None | Some(value: T)

  /** The changes proposed for product 1276. */
  const JackDanielsChanges: seq<FieldChange> := [
    FieldChange(1, "Product Name", "Jack Daniel's Single Barrel", "Jack Daniel's Single Barrel Select", Pending),
    FieldChange(2, "Volume", "750ml", "700ml", Approved),
    FieldChange(3, "ABV", "45%", "47%", Pending),
    FieldChange(4, "Price", "$49.99", "$54.99", Rejected),
    FieldChange(5, "Category", "American Whiskey", "Tennessee Whiskey", Approved),
    FieldChange(6, "Description", "A premium single barrel whiskey",
      "Hand-selected premium single barrel Tennessee whiskey with rich oak notes", Pending),
    FieldChange(7, "Origin", "USA", "Lynchburg, Tennessee, USA", Approved),
    FieldChange(8, "Age Statement", "NAS", "Minimum 4 years", Approved)
  ]

  /** The products the page knows by id. */
  const ProductData: map<int, Product> := map[1276 := Product("Jack Daniel's Single Barrel", JackDanielsChanges)]

  /** The changes shown for any other id. */
  const SampleChanges: seq<FieldChange> := [
    FieldChange(1, "Product Name", "Sample Product", "Updated Product Name", Pending),
    FieldChange(2, "Price", "$29.99", "$34.99", Pending),
    FieldChange(3, "Description", "Original description", "New improved description", Approved),
    FieldChange(4, "Category", "General", "Premium", Rejected)
  ]

  /** The product shown for an id the page does not know. */
  const DefaultProduct: Product := Product("Sample Product", SampleChanges)

  // ---------------------------------------------------------------------------
  // Product lookup

  /** The `:id` segment of the route: absent (or empty), digits, or text that
      does not start with a number. */
  datatype RouteParam = Missing | Numeric(n: int) | NonNumeric

  /** `parseInt(params.id || "0")`: an absent id reads as 0, a non-number as NaN (`None`). */
  function ProductIdOf(param: RouteParam): (id: Option<int>)
    ensures param.Missing? ==> id == Some(0)
    ensures param.Numeric? ==> id == Some(param.n)
    ensures param.NonNumeric? <==> id.None?
  {
    match param
    case Missing => Some(0)
    case Numeric(n) => Some(n)
    case NonNumeric => None
  }

  /** `productData[productId] || defaultProduct`. */
  function LookupProduct(id: Option<int>): (product: Product)
    ensures id.Some? && id.value in ProductData ==> product == ProductData[id.value]
    ensures !(id.Some? && id.value in ProductData) ==> product == DefaultProduct
  {
    if id.Some? && id.value in ProductData then ProductData[id.value] else DefaultProduct
  }

  /** The only known product is 1276. */
  lemma KnownProducts()
    ensures ProductData.Keys == {1276}
  {
  }

  /** Opening the page for 1276 shows that product's eight changes. */
  lemma LookupKnownProduct()
    ensures LookupProduct(ProductIdOf(Numeric(1276))).changes == JackDanielsChanges
  {
  }

  /** Any route other than 1276 shows the sample product, a missing id included. */
  lemma LookupFallsBack(param: RouteParam)
    requires param != Numeric(1276)
    ensures LookupProduct(ProductIdOf(param)) == DefaultProduct
  {
    KnownProducts();
  }

  // ---------------------------------------------------------------------------
  // Counts

  /** Whether a change has status `s`. */
  function HasStatus(s: Status): FieldChange -> bool {
    (c: FieldChange) => c.status == s
  }

  /** `changes.filter(c => c.status === s).length`. */
  function Count(changes: seq<FieldChange>, s: Status): (n: nat)
    ensures n <= |changes|
  {
    |Filter(changes, HasStatus(s))|
  }

  /** Every change is in exactly one of the three counts. */
  lemma {:induction false} CountsPartition(changes: seq<FieldChange>)
    ensures Count(changes, Pending) + Count(changes, Approved) + Count(changes, Rejected) == |changes|
  {
    if changes != [] {
      CountsPartition(changes[1..]);
    }
  }

  /** Product 1276 opens with three changes pending, ... */
  lemma JackDanielsPending()
    ensures Count(JackDanielsChanges, Pending) == 3
  {
  }

  /** ... four approved ... */
  lemma JackDanielsApproved()
    ensures Count(JackDanielsChanges, Approved) == 4
  {
  }

  /** ... and one rejected. */
  lemma JackDanielsRejected()
    ensures Count(JackDanielsChanges, Rejected) == 1
  {
  }

  /** Every other route opens "Sample Product" with two changes pending, one
      approved and one rejected. */
  lemma SampleProductCounts()
    ensures DefaultProduct.name == "Sample Product" && |DefaultProduct.changes| == 4
    ensures Count(DefaultProduct.changes, Pending) == 2
    ensures Count(DefaultProduct.changes, Approved) == 1
    ensures Count(DefaultProduct.changes, Rejected) == 1
  {
  }

  // ---------------------------------------------------------------------------
  // Single-record update

  /** The change with `c`'s id set to `status` when it is `id`. */
  function SetStatusIfId(id: int, status: Verdict): FieldChange -> FieldChange {
    (c: FieldChange) => if c.id == id then c.(status := status) else c
  }

  /** `updateStatus(id, status)`: every record with that id gets the status, whatever
      it had before; the rest are kept; order and length are kept. */
  function WithUpdatedStatus(changes: seq<FieldChange>, id: int, status: Verdict): (after: seq<FieldChange>)
    ensures |after| == |changes|
    ensures forall i :: 0 <= i < |changes| && changes[i].id != id ==> after[i] == changes[i]
    ensures forall i :: 0 <= i < |changes| && changes[i].id == id ==>
      after[i].status == status && after[i] == changes[i].(status := status)
  {
    Map(changes, SetStatusIfId(id, status))
  }

  /** An id no record carries changes nothing. */
  lemma UpdateUnknownIdKeepsAll(changes: seq<FieldChange>, id: int, status: Verdict)
    requires forall i :: 0 <= i < |changes| ==> changes[i].id != id
    ensures WithUpdatedStatus(changes, id, status) == changes
  {
  }

  /** Of two updates of the same id the second wins. */
  lemma UpdateLastWins(changes: seq<FieldChange>, id: int, first: Verdict, second: Verdict)
    ensures WithUpdatedStatus(WithUpdatedStatus(changes, id, first), id, second)
         == WithUpdatedStatus(changes, id, second)
  {
  }

  /** There is no guard: on the sample product, change 4 (rejected) can be approved,
      which takes one from the rejected count and adds one to the approved count. */
  lemma UpdateOverwritesVerdict()
    ensures SampleChanges[3].id == 4 && SampleChanges[3].status == Rejected
    ensures WithUpdatedStatus(SampleChanges, 4, Approved)[3].status == Approved
    ensures Count(WithUpdatedStatus(SampleChanges, 4, Approved), Approved) == Count(SampleChanges, Approved) + 1
    ensures Count(WithUpdatedStatus(SampleChanges, 4, Approved), Rejected) == Count(SampleChanges, Rejected) - 1
  {
    var after := WithUpdatedStatus(SampleChanges, 4, Approved);
    assert after == SampleChanges[..3] + [SampleChanges[3].(status := Approved)];
    FilterConcat(SampleChanges[..3], [SampleChanges[3]], HasStatus(Approved));
    FilterConcat(SampleChanges[..3], [SampleChanges[3]], HasStatus(Rejected));
    FilterConcat(SampleChanges[..3], [SampleChanges[3].(status := Approved)], HasStatus(Approved));
    FilterConcat(SampleChanges[..3], [SampleChanges[3].(status := Approved)], HasStatus(Rejected));
  }

  // ---------------------------------------------------------------------------
  // Settling every pending record

  /** The change with status `verdict` if it is pending, unchanged otherwise. */
  function SettleIfPending(verdict: Verdict): FieldChange -> FieldChange {
    (c: FieldChange) => if c.status == Pending then c.(status := verdict) else c
  }

  /** `approveAllPending` (verdict `Approved`) and `rejectAllPending` (verdict
      `Rejected`): the pending records get the verdict, the others are kept,
      order and length are kept, and nothing is left pending. */
  function WithPendingSettled(changes: seq<FieldChange>, verdict: Verdict): (after: seq<FieldChange>)
    ensures |after| == |changes|
    ensures forall i :: 0 <= i < |changes| && changes[i].status != Pending ==> after[i] == changes[i]
    ensures forall i :: 0 <= i < |changes| && changes[i].status == Pending ==> after[i] == changes[i].(status := verdict)
    ensures forall i :: 0 <= i < |after| ==> after[i].status != Pending
  {
    Map(changes, SettleIfPending(verdict))
  }

  /** The counts after settling: none pending, the verdict's count grown by the old
      pending count, the other verdict's count unchanged. */
  lemma {:induction false} SettleCounts(changes: seq<FieldChange>, verdict: Verdict, other: Verdict)
    requires other != verdict
    ensures Count(WithPendingSettled(changes, verdict), Pending) == 0
    ensures Count(WithPendingSettled(changes, verdict), verdict) == Count(changes, verdict) + Count(changes, Pending)
    ensures Count(WithPendingSettled(changes, verdict), other) == Count(changes, other)
  {
    if changes != [] {
      var after := WithPendingSettled(changes, verdict);
      assert after[1..] == WithPendingSettled(changes[1..], verdict);
      SettleCounts(changes[1..], verdict, other);
    }
  }

  /** Settling twice, with either verdict the second time, is settling once. */
  lemma SettleIdempotent(changes: seq<FieldChange>, verdict: Verdict, again: Verdict)
    ensures WithPendingSettled(WithPendingSettled(changes, verdict), again) == WithPendingSettled(changes, verdict)
  {
  }

  /** Once nothing is pending, "approve / reject all pending" changes nothing. */
  lemma SettleWithoutPendingKeepsAll(changes: seq<FieldChange>, verdict: Verdict)
    requires Count(changes, Pending) == 0
    ensures WithPendingSettled(changes, verdict) == changes
  {
    FilterMembers(changes, HasStatus(Pending));
    forall i | 0 <= i < |changes|
      ensures changes[i].status != Pending
    {
      assert changes[i] !in Filter(changes, HasStatus(Pending));
    }
  }

  /** Product 1276 goes from 3 / 4 / 1 to 0 / 7 / 1 when all pending are approved. */
  lemma JackDanielsApproveAll()
    ensures Count(WithPendingSettled(JackDanielsChanges, Approved), Pending) == 0
    ensures Count(WithPendingSettled(JackDanielsChanges, Approved), Approved) == 7
    ensures Count(WithPendingSettled(JackDanielsChanges, Approved), Rejected) == 1
  {
    JackDanielsPending();
    JackDanielsApproved();
    JackDanielsRejected();
    SettleCounts(JackDanielsChanges, Approved, Rejected);
  }

  /** Product 1276 goes from 3 / 4 / 1 to 0 / 4 / 4 when all pending are rejected. */
  lemma JackDanielsRejectAll()
    ensures Count(WithPendingSettled(JackDanielsChanges, Rejected), Pending) == 0
    ensures Count(WithPendingSettled(JackDanielsChanges, Rejected), Approved) == 4
    ensures Count(WithPendingSettled(JackDanielsChanges, Rejected), Rejected) == 4
  {
    JackDanielsPending();
    JackDanielsApproved();
    JackDanielsRejected();
    SettleCounts(JackDanielsChanges, Rejected, Approved);
  }

  // ---------------------------------------------------------------------------
  // What the page offers

  /** The "approve / reject all pending" buttons are shown only while something is pending. */
  predicate ShowsSettleButtons(changes: seq<FieldChange>) {
    Count(changes, Pending) > 0
  }

  /** A row shows its approve / reject buttons only while it is pending. */
  predicate ShowsRowActions(c: FieldChange) {
    c.status == Pending
  }

  /** The settle buttons are shown exactly when some row shows its buttons, and
      they disappear once they have been used. */
  lemma SettleButtonsFollowRows(changes: seq<FieldChange>, verdict: Verdict)
    ensures ShowsSettleButtons(changes) <==> exists i :: 0 <= i < |changes| && ShowsRowActions(changes[i])
    ensures !ShowsSettleButtons(WithPendingSettled(changes, verdict))
  {
    var pending := Filter(changes, HasStatus(Pending));
    FilterMembers(changes, HasStatus(Pending));
    if ShowsSettleButtons(changes) {
      assert pending[0] in pending;
    }
    if exists i :: 0 <= i < |changes| && ShowsRowActions(changes[i]) {
      var i :| 0 <= i < |changes| && ShowsRowActions(changes[i]);
      assert changes[i] in pending;
    }
    var other: Verdict := if verdict == Approved then Rejected else Approved;
    SettleCounts(changes, verdict, other);
  }

  // ---------------------------------------------------------------------------
  // The page's state and its handlers

  /** The review page: the product chosen by the route and its changes as edited so far. */
  class ChangeRequestDetail {
    const productId: Option<int>
    const product: Product
    var changes: seq<FieldChange>

    /** The page as opened: the product looked up from the route, its changes as proposed. */
    constructor (param: RouteParam)
      ensures productId == ProductIdOf(param)
      ensures product == LookupProduct(productId)
      ensures changes == product.changes
    {
      productId := ProductIdOf(param);
      product := LookupProduct(ProductIdOf(param));
      changes := LookupProduct(ProductIdOf(param)).changes;
    }

    /** The number of changes pending, as shown in the summary card. */
    function PendingCount(): (n: nat)
      reads this
      ensures n <= |changes|
    {
      Count(changes, Pending)
    }

    /** The number of changes approved, as shown in the summary card. */
    function ApprovedCount(): (n: nat)
      reads this
      ensures n <= |changes|
    {
      Count(changes, Approved)
    }

    /** The number of changes rejected, as shown in the summary card. */
    function RejectedCount(): (n: nat)
      reads this
      ensures n <= |changes|
    {
      Count(changes, Rejected)
    }

    /** A row's approve or reject button. */
    method UpdateStatus(id: int, status: Verdict)
      modifies this`changes
      ensures changes == WithUpdatedStatus(old(changes), id, status)
      ensures PendingCount() + ApprovedCount() + RejectedCount() == |changes| == |old(changes)|
    {
      changes := WithUpdatedStatus(changes, id, status);
      CountsPartition(changes);
    }

    /** "Approve All Pending". */
    method ApproveAllPending()
      modifies this`changes
      ensures changes == WithPendingSettled(old(changes), Approved)
      ensures PendingCount() == 0
      ensures ApprovedCount() == old(ApprovedCount()) + old(PendingCount())
      ensures RejectedCount() == old(RejectedCount())
    {
      SettleCounts(changes, Approved, Rejected);
      changes := WithPendingSettled(changes, Approved);
    }

    /** "Reject All Pending". */
    method RejectAllPending()
      modifies this`changes
      ensures changes == WithPendingSettled(old(changes), Rejected)
      ensures PendingCount() == 0
      ensures RejectedCount() == old(RejectedCount()) + old(PendingCount())
      ensures ApprovedCount() == old(ApprovedCount())
    {
      SettleCounts(changes, Rejected, Approved);
      changes := WithPendingSettled(changes, Rejected);
    }
  }
}
