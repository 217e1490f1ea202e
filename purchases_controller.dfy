/**
 * The purchase transaction engine of the API (`PurchasesController`).
 *
 * `CreatePurchase` takes an ordered list of line items and, inside one database
 * transaction, checks each line against the product it names (the product must exist,
 * and its stored quantity must equal the quantity the caller last saw), overwrites the
 * product's price, adds to its quantity, accumulates the total and builds the purchase
 * items. Only when every line passes is a purchase appended and the transaction committed;
 * every early return and every exception leaves the database as it was.
 *
 * The database is a map from product id to product plus the purchase ledger. The entity
 * values tracked by Entity Framework during the request are a separate copy (`Staging`),
 * which only a successful commit writes back.
 */
module PurchasesController {
  import opened Wrappers
  import opened Models

  /** One line of the request body (`PurchaseItemRequest`). */
  datatype PurchaseItemRequest = PurchaseItemRequest(productId: int, quantity: real, unitPrice: real, currentStock: real)

  /** The request body (`PurchaseRequest`). */
  datatype PurchaseRequest = PurchaseRequest(items: seq<PurchaseItemRequest>)

  /**
   * How `SaveChangesAsync` and `CommitAsync` end. The database decides, so the model takes
   * it as an input: the commit succeeds, throws a `DbUpdateConcurrencyException` (carrying
   * the type names of the entities involved), or throws some other exception (its message).
   */
  datatype CommitOutcome = Committed | ConcurrencyException(entries: seq<string>) | OtherException(message: string)

  /** The results the action returns: 201 with the purchase, 404, the two kinds of 409, and 500. */
  datatype PurchaseResult =
    | Success(purchase: Purchase)
    | NotFound(productId: int)
    | Conflict(productId: int, currentStock: real, receivedStock: real)
    | ConcurrencyConflict(entries: seq<string>)
    | Internal(message: string)

  /** The Products table, keyed by product id. */
  type Store = map<int, Product>

  predicate KeyedById(store: Store) {
    forall id :: id in store ==> store[id].id == id
  }

  /** What the request has built so far: the tracked products with their in-memory values, the items and the running total. */
  datatype Staging = Staging(products: Store, items: seq<PurchaseItem>, total: real)

  /** Either all lines so far passed, or the line-level failure the action returns. */
  datatype LineOutcome = Staged(staging: Staging) | Rejected(failure: PurchaseResult)

  /** The body of the `foreach` for one line, against the values tracked so far. */
  function ApplyLine(st: Staging, item: PurchaseItemRequest): LineOutcome {
    if item.productId !in st.products then
      Rejected(NotFound(item.productId))
    else
      var product := st.products[item.productId];
      if product.quantity != item.currentStock then
        Rejected(Conflict(item.productId, product.quantity, item.currentStock))
      else
        var updated := product.(price := item.unitPrice, quantity := product.quantity + item.quantity);
        Staged(Staging(
          st.products[item.productId := updated],
          st.items + [PurchaseItem(item.productId, item.quantity, item.unitPrice)],
          st.total + item.quantity * item.unitPrice))
  }

  /** The lines processed in submitted order, starting from the stored products, no items and a zero total. */
  function Run(store: Store, items: seq<PurchaseItemRequest>): LineOutcome
    decreases |items|
  {
    if |items| == 0 then Staged(Staging(store, [], 0.0))
    else match Run(store, items[..|items| - 1])
      case Rejected(f) => Rejected(f)
      case Staged(st) => ApplyLine(st, items[|items| - 1])
  }

  // ---------------------------------------------------------------------------
  // Reference definitions, independent of the order in which Run walks the lines
  // ---------------------------------------------------------------------------

  /** The quantity the lines add to product `pid`. */
  function QuantityAdded(items: seq<PurchaseItemRequest>, pid: int): real {
    if |items| == 0 then 0.0
    else (if items[0].productId == pid then items[0].quantity else 0.0) + QuantityAdded(items[1..], pid)
  }

  /** The unit price of the last line naming `pid`, or `default` if no line does. */
  function LastPrice(items: seq<PurchaseItemRequest>, pid: int, default: real): real {
    if |items| == 0 then default
    else if items[|items| - 1].productId == pid then items[|items| - 1].unitPrice
    else LastPrice(items[..|items| - 1], pid, default)
  }

  /** The sum of the line subtotals `Quantity * UnitPrice`. */
  function LinesTotal(items: seq<PurchaseItemRequest>): real {
    if |items| == 0 then 0.0
    else items[0].quantity * items[0].unitPrice + LinesTotal(items[1..])
  }

  /** The purchase items a request should produce: one per line, in order, copying the three fields. */
  function ToPurchaseItems(items: seq<PurchaseItemRequest>): (r: seq<PurchaseItem>)
    ensures |r| == |items|
    ensures forall k :: 0 <= k < |items| ==>
              r[k].productId == items[k].productId && r[k].quantity == items[k].quantity
              && r[k].unitPrice == items[k].unitPrice
  {
    seq(|items|, k requires 0 <= k < |items| => PurchaseItem(items[k].productId, items[k].quantity, items[k].unitPrice))
  }

  /** The quantity of line k's product at the moment line k is checked: stored quantity plus what earlier lines added. */
  function StockBefore(store: Store, items: seq<PurchaseItemRequest>, k: nat): real
    requires k < |items| && items[k].productId in store
  {
    store[items[k].productId].quantity + QuantityAdded(items[..k], items[k].productId)
  }

  /** Line k names a stored product whose quantity, when the line is reached, is the one the caller saw. */
  predicate LinePasses(store: Store, items: seq<PurchaseItemRequest>, k: nat)
    requires k < |items|
  {
    items[k].productId in store && StockBefore(store, items, k) == items[k].currentStock
  }

  /** The failure line k produces when it does not pass. */
  function FailureAt(store: Store, items: seq<PurchaseItemRequest>, k: nat): PurchaseResult
    requires k < |items|
  {
    if items[k].productId !in store then NotFound(items[k].productId)
    else Conflict(items[k].productId, StockBefore(store, items, k), items[k].currentStock)
  }

  /** What a successful batch does to one stored product. */
  function Updated(store: Store, items: seq<PurchaseItemRequest>, pid: int): Product
    requires pid in store
  {
    store[pid].(quantity := store[pid].quantity + QuantityAdded(items, pid),
                price := LastPrice(items, pid, store[pid].price))
  }

  // ---------------------------------------------------------------------------
  // Lemmas about the reference definitions
  // ---------------------------------------------------------------------------

  lemma {:induction false} QuantityAddedAppend(items: seq<PurchaseItemRequest>, x: PurchaseItemRequest, pid: int)
    ensures QuantityAdded(items + [x], pid) == QuantityAdded(items, pid) + (if x.productId == pid then x.quantity else 0.0)
    decreases |items|
  {
    if |items| == 0 {
      assert (items + [x])[1..] == [];
    } else {
      assert (items + [x])[1..] == items[1..] + [x];
      QuantityAddedAppend(items[1..], x, pid);
    }
  }

  lemma {:induction false} LinesTotalAppend(items: seq<PurchaseItemRequest>, x: PurchaseItemRequest)
    ensures LinesTotal(items + [x]) == LinesTotal(items) + x.quantity * x.unitPrice
    decreases |items|
  {
    if |items| == 0 {
      assert (items + [x])[1..] == [];
    } else {
      assert (items + [x])[1..] == items[1..] + [x];
      LinesTotalAppend(items[1..], x);
    }
  }

  /** A product no line names gains nothing. */
  lemma {:induction false} QuantityAddedUnreferenced(items: seq<PurchaseItemRequest>, pid: int)
    requires forall k :: 0 <= k < |items| ==> items[k].productId != pid
    ensures QuantityAdded(items, pid) == 0.0
    decreases |items|
  {
    if |items| > 0 {
      QuantityAddedUnreferenced(items[1..], pid);
    }
  }

  /** A product no line names keeps its price. */
  lemma {:induction false} LastPriceUnreferenced(items: seq<PurchaseItemRequest>, pid: int, default: real)
    requires forall k :: 0 <= k < |items| ==> items[k].productId != pid
    ensures LastPrice(items, pid, default) == default
    decreases |items|
  {
    if |items| > 0 {
      LastPriceUnreferenced(items[..|items| - 1], pid, default);
    }
  }

  // ---------------------------------------------------------------------------
  // What Run computes
  // ---------------------------------------------------------------------------

  /**
   * On success, every stored product has gained exactly the quantities of the lines naming
   * it and carries the price of the last such line (all its other fields unchanged), no
   * product is added or removed, the items copy the lines in order, and the total is the
   * sum of the line subtotals.
   */
  lemma {:induction false} RunStaged(store: Store, items: seq<PurchaseItemRequest>)
    requires Run(store, items).Staged?
    ensures var st := Run(store, items).staging;
            && st.products.Keys == store.Keys
            && (forall pid :: pid in store ==> st.products[pid] == Updated(store, items, pid))
            && st.items == ToPurchaseItems(items)
            && st.total == LinesTotal(items)
    decreases |items|
  {
    if |items| > 0 {
      var init, x := items[..|items| - 1], items[|items| - 1];
      assert items == init + [x];
      RunStaged(store, init);
      var st := Run(store, init).staging;
      var st' := Run(store, items).staging;
      forall pid | pid in store ensures st'.products[pid] == Updated(store, items, pid) {
        QuantityAddedAppend(init, x, pid);
      }
      LinesTotalAppend(init, x);
      assert st'.items == ToPurchaseItems(items);
    }
  }

  /** A failure on some prefix of the lines is the failure of the whole batch: later lines are never looked at. */
  lemma {:induction false} RejectionPersists(store: Store, items: seq<PurchaseItemRequest>, n: nat)
    requires n <= |items| && Run(store, items[..n]).Rejected?
    ensures Run(store, items) == Run(store, items[..n])
    decreases |items| - n
  {
    if n < |items| {
      var init := items[..|items| - 1];
      assert init[..n] == items[..n];
      RejectionPersists(store, init, n);
    } else {
      assert items[..n] == items;
    }
  }

  /**
   * The batch succeeds exactly when every line passes its own check, each against the
   * quantity left by the lines before it (the per-line optimistic-concurrency semantics).
   */
  lemma {:induction false} RunSucceedsIff(store: Store, items: seq<PurchaseItemRequest>)
    ensures Run(store, items).Staged? <==> forall k :: 0 <= k < |items| ==> LinePasses(store, items, k)
    decreases |items|
  {
    if |items| > 0 {
      var n := |items| - 1;
      var init := items[..n];
      RunSucceedsIff(store, init);
      forall k | 0 <= k < n ensures LinePasses(store, items, k) == LinePasses(store, init, k) {
        assert init[..k] == items[..k];
      }
      if Run(store, init).Staged? {
        RunStaged(store, init);
        var st := Run(store, init).staging;
        var x := items[n];
        assert items[..n] == init;
        if x.productId in store {
          assert st.products[x.productId].quantity == StockBefore(store, items, n);
        }
        assert Run(store, items).Staged? <==> LinePasses(store, items, n);
      }
    }
  }

  /** When line k is the first that does not pass, the batch fails with exactly that line's failure. */
  lemma {:induction false} RunRejectsAtFirstFailure(store: Store, items: seq<PurchaseItemRequest>, k: nat)
    requires k < |items|
    requires forall j :: 0 <= j < k ==> LinePasses(store, items, j)
    requires !LinePasses(store, items, k)
    ensures Run(store, items) == Rejected(FailureAt(store, items, k))
  {
    var pre := items[..k];
    forall j | 0 <= j < k ensures LinePasses(store, pre, j) {
      assert pre[j] == items[j] && pre[..j] == items[..j];
      assert LinePasses(store, items, j);
    }
    RunSucceedsIff(store, pre);
    RunStaged(store, pre);
    assert items[..k + 1] == pre + [items[k]];
    assert items[..k + 1][..k] == pre;
    RejectionPersists(store, items, k + 1);
  }

  /** Every failure is the failure of the first line that does not pass; it names that line's product. */
  lemma {:induction false} RunRejected(store: Store, items: seq<PurchaseItemRequest>)
    requires Run(store, items).Rejected?
    ensures exists k :: 0 <= k < |items|
              && (forall j :: 0 <= j < k ==> LinePasses(store, items, j))
              && !LinePasses(store, items, k)
              && Run(store, items).failure == FailureAt(store, items, k)
  {
    RunSucceedsIff(store, items);
    var k :| 0 <= k < |items| && !LinePasses(store, items, k);
    FirstFailing(store, items, k);
  }

  /** Below any failing line there is a first one. */
  lemma {:induction false} FirstFailing(store: Store, items: seq<PurchaseItemRequest>, k: nat)
    requires k < |items| && !LinePasses(store, items, k)
    ensures Run(store, items).Rejected?
    ensures exists m :: 0 <= m <= k
              && (forall j :: 0 <= j < m ==> LinePasses(store, items, j))
              && !LinePasses(store, items, m)
              && Run(store, items).failure == FailureAt(store, items, m)
    decreases k
  {
    RunSucceedsIff(store, items);
    if forall j :: 0 <= j < k ==> LinePasses(store, items, j) {
      RunRejectsAtFirstFailure(store, items, k);
    } else {
      var j :| 0 <= j < k && !LinePasses(store, items, j);
      FirstFailing(store, items, j);
    }
  }

  /** A line naming a product that is not stored always makes the batch fail. */
  lemma MissingProductFails(store: Store, items: seq<PurchaseItemRequest>, k: nat)
    requires k < |items| && items[k].productId !in store
    ensures Run(store, items).Rejected?
  {
    RunSucceedsIff(store, items);
    assert !LinePasses(store, items, k);
  }

  /** A `NotFound` names a line's product that is not stored; a `Conflict` reports that line's product, the quantity it found and the quantity the caller sent, which differ. */
  lemma RejectionDetails(store: Store, items: seq<PurchaseItemRequest>)
    requires Run(store, items).Rejected?
    ensures var f := Run(store, items).failure;
            && (f.NotFound? || f.Conflict?)
            && (f.NotFound? ==> f.productId !in store && exists k :: 0 <= k < |items| && items[k].productId == f.productId)
            && (f.Conflict? ==>
                  && f.productId in store && f.currentStock != f.receivedStock
                  && exists k :: 0 <= k < |items| && items[k].productId == f.productId
                                 && f.currentStock == StockBefore(store, items, k)
                                 && f.receivedStock == items[k].currentStock)
  {
    RunRejected(store, items);
  }

  /** A product that no line names is left exactly as it was. */
  lemma UnreferencedProductUnchanged(store: Store, items: seq<PurchaseItemRequest>, pid: int)
    requires Run(store, items).Staged? && pid in store
    requires forall k :: 0 <= k < |items| ==> items[k].productId != pid
    ensures pid in Run(store, items).staging.products
    ensures Run(store, items).staging.products[pid] == store[pid]
  {
    RunStaged(store, items);
    QuantityAddedUnreferenced(items, pid);
    LastPriceUnreferenced(items, pid, store[pid].price);
  }

  // ---------------------------------------------------------------------------
  // The database and the action
  // ---------------------------------------------------------------------------

  predicate IdsIncreasing(ledger: seq<Purchase>) {
    forall i, j :: 0 <= i < j < |ledger| ==> ledger[i].id < ledger[j].id
  }

  /** The database as the controller sees it: products, the purchase ledger, and the next identity value. */
  class PantryContext {
    var products: Store
    var purchases: seq<Purchase>
    var nextPurchaseId: int

    ghost predicate Valid()
      reads this
    {
      && KeyedById(products)
      && IdsIncreasing(purchases)
      && (forall k :: 0 <= k < |purchases| ==> purchases[k].id < nextPurchaseId)
    }

    constructor (initial: Store)
      requires KeyedById(initial)
      ensures Valid() && products == initial && purchases == [] && nextPurchaseId == 1
    {
      products := initial;
      purchases := [];
      nextPurchaseId := 1;
    }
  }

  /**
   * `CreatePurchase`. The request is processed line by line on the tracked copy; a missing
   * product or a stale quantity returns before anything is saved. Otherwise the purchase
   * is built with the server-computed total and the commit timestamp `now`, and `commit`
   * says whether saving and committing succeed. Only `Success` changes the database.
   */
  method CreatePurchase(db: PantryContext, request: PurchaseRequest, now: int, commit: CommitOutcome)
    returns (r: PurchaseResult)
    requires db.Valid()
    modifies db
    ensures db.Valid()
    ensures Run(old(db.products), request.items).Rejected? ==> r == Run(old(db.products), request.items).failure
    ensures Run(old(db.products), request.items).Staged? ==>
              var st := Run(old(db.products), request.items).staging;
              r == match commit
                   case Committed => Success(Purchase(old(db.nextPurchaseId), now, st.total, st.items))
                   case ConcurrencyException(entries) => ConcurrencyConflict(entries)
                   case OtherException(message) => Internal(message)
    ensures r.Success? ==>
              && Run(old(db.products), request.items).Staged?
              && db.products == Run(old(db.products), request.items).staging.products
              && db.purchases == old(db.purchases) + [r.purchase]
              && db.nextPurchaseId == old(db.nextPurchaseId) + 1
    ensures r.Success? ==>
              && r.purchase.purchaseDate == now
              && r.purchase.totalAmount == LinesTotal(request.items)
              && r.purchase.purchaseItems == ToPurchaseItems(request.items)
              && db.products.Keys == old(db.products).Keys
              && forall pid :: pid in old(db.products) ==> db.products[pid] == Updated(old(db.products), request.items, pid)
    ensures !r.Success? ==>
              && db.products == old(db.products)
              && db.purchases == old(db.purchases)
              && db.nextPurchaseId == old(db.nextPurchaseId)
  {
    var items := request.items;
    var tracked := db.products;
    var purchaseItems: seq<PurchaseItem> := [];
    var totalAmount := 0.0;
    var i := 0;
    while i < |items|
      invariant 0 <= i <= |items|
      invariant Run(db.products, items[..i]) == Staged(Staging(tracked, purchaseItems, totalAmount))
    {
      var item := items[i];
      assert items[..i + 1] == items[..i] + [item];
      if item.productId !in tracked {
        RejectionPersists(db.products, items, i + 1);
        return NotFound(item.productId);
      }
      var product := tracked[item.productId];
      if product.quantity != item.currentStock {
        RejectionPersists(db.products, items, i + 1);
        return Conflict(item.productId, product.quantity, item.currentStock);
      }
      product := product.(price := item.unitPrice);
      product := product.(quantity := product.quantity + item.quantity);
      tracked := tracked[item.productId := product];
      totalAmount := totalAmount + item.quantity * item.unitPrice;
      purchaseItems := purchaseItems + [PurchaseItem(item.productId, item.quantity, item.unitPrice)];
      i := i + 1;
    }
    assert items[..i] == items;
    var purchase := Purchase(db.nextPurchaseId, now, totalAmount, purchaseItems);
    match commit {
      case Committed =>
        RunStaged(db.products, items);
        db.products := tracked;
        db.purchases := db.purchases + [purchase];
        db.nextPurchaseId := db.nextPurchaseId + 1;
        r := Success(purchase);
      case ConcurrencyException(entries) =>
        r := ConcurrencyConflict(entries);
      case OtherException(message) =>
        r := Internal(message);
    }
  }

  // ---------------------------------------------------------------------------
  // Reading a purchase back
  // ---------------------------------------------------------------------------

  /** `FirstOrDefaultAsync(p => p.Id == id)` over the ledger, in stored order. */
  function FindPurchase(ledger: seq<Purchase>, id: int): (r: Option<Purchase>)
    ensures r.None? <==> forall k :: 0 <= k < |ledger| ==> ledger[k].id != id
    ensures r.Some? ==> exists k :: 0 <= k < |ledger| && ledger[k] == r.value && ledger[k].id == id
                                   && forall j :: 0 <= j < k ==> ledger[j].id != id
  {
    if |ledger| == 0 then None
    else if ledger[0].id == id then Some(ledger[0])
    else
      var r := FindPurchase(ledger[1..], id);
      assert r.Some? ==> exists k :: 0 <= k < |ledger| && ledger[k] == r.value && ledger[k].id == id
                                   && forall j :: 0 <= j < k ==> ledger[j].id != id by {
        if r.Some? {
          var k :| 0 <= k < |ledger| - 1 && ledger[1..][k] == r.value && ledger[1..][k].id == id
                   && forall j :: 0 <= j < k ==> ledger[1..][j].id != id;
          assert ledger[k + 1] == r.value;
        }
      }
      r
  }

  /** `GetPurchase`: the purchase with that id as a DTO, or `NotFound` (`None`); nothing is written. */
  function GetPurchase(ledger: seq<Purchase>, id: int): (r: Option<PurchaseDto>)
    ensures r.None? <==> forall k :: 0 <= k < |ledger| ==> ledger[k].id != id
    ensures r.Some? ==> exists k :: 0 <= k < |ledger| && ledger[k].id == id
                                   && (forall j :: 0 <= j < k ==> ledger[j].id != id)
                                   && ProjectsTo(ledger[k], r.value)
  {
    match FindPurchase(ledger, id)
    case None => None
    case Some(p) =>
      Some(PurchaseDto(p.id, p.purchaseDate, p.totalAmount,
        seq(|p.purchaseItems|, k requires 0 <= k < |p.purchaseItems| =>
          PurchaseItemDto(p.purchaseItems[k].productId, p.purchaseItems[k].quantity, p.purchaseItems[k].unitPrice))))
  }

  /** The DTO carries the purchase's id, date and total, and its items field for field in stored order. */
  predicate ProjectsTo(p: Purchase, dto: PurchaseDto) {
    && dto.id == p.id && dto.purchaseDate == p.purchaseDate && dto.totalAmount == p.totalAmount
    && |dto.items| == |p.purchaseItems|
    && forall k :: 0 <= k < |p.purchaseItems| ==>
         dto.items[k] == PurchaseItemDto(p.purchaseItems[k].productId, p.purchaseItems[k].quantity, p.purchaseItems[k].unitPrice)
  }

  /** A purchase appended with a fresh, larger id is the one `GetPurchase` finds under that id. */
  lemma CreatedPurchaseIsRetrievable(ledger: seq<Purchase>, p: Purchase)
    requires forall k :: 0 <= k < |ledger| ==> ledger[k].id < p.id
    ensures var r := GetPurchase(ledger + [p], p.id);
            r.Some? && ProjectsTo(p, r.value)
  {
    var l := ledger + [p];
    assert l[|ledger|].id == p.id;
    var r := GetPurchase(l, p.id);
    var k :| 0 <= k < |l| && l[k].id == p.id && ProjectsTo(l[k], r.value);
    assert k == |ledger|;
  }
  // ---------------------------------------------------------------------------
  // Worked batches
  // ---------------------------------------------------------------------------

  /** Product 1 as stored before the batches below: 10 on hand at 1.50. */
  const Rice := Product(1, "Arroz", "", None, 10.0, 1.5, 1)

  /** Buying 5 at 2.00 while 10 are on hand leaves 15 at 2.00 and totals 10.00. */
  lemma FreshLineSucceeds()
    ensures Run(map[1 := Rice], [PurchaseItemRequest(1, 5.0, 2.0, 10.0)])
            == Staged(Staging(map[1 := Rice.(quantity := 15.0, price := 2.0)], [PurchaseItem(1, 5.0, 2.0)], 10.0))
  {
  }

  /** The same line against 12 on hand is rejected with the stored and the received quantity. */
  lemma StaleLineConflicts()
    ensures Run(map[1 := Rice.(quantity := 12.0)], [PurchaseItemRequest(1, 5.0, 2.0, 10.0)])
            == Rejected(Conflict(1, 12.0, 10.0))
  {
  }

  /** A line for an unknown product rejects the batch even when the other line would pass. */
  lemma UnknownProductRejectsBatch()
    ensures Run(map[1 := Rice], [PurchaseItemRequest(1, 5.0, 2.0, 10.0), PurchaseItemRequest(99, 1.0, 1.0, 0.0)])
            == Rejected(NotFound(99))
  {
    var items := [PurchaseItemRequest(1, 5.0, 2.0, 10.0), PurchaseItemRequest(99, 1.0, 1.0, 0.0)];
    assert items[..1] == [items[0]];
  }

  /**
   * Two lines for the same product: the second is checked against the quantity the first
   * left (15), so it must have seen 15 to pass; the price of the second line wins.
   */
  lemma RepeatedProductIsCheckedPerLine()
    ensures Run(map[1 := Rice], [PurchaseItemRequest(1, 5.0, 2.0, 10.0), PurchaseItemRequest(1, 3.0, 2.5, 15.0)])
            == Staged(Staging(map[1 := Rice.(quantity := 18.0, price := 2.5)],
                              [PurchaseItem(1, 5.0, 2.0), PurchaseItem(1, 3.0, 2.5)], 17.5))
    ensures Run(map[1 := Rice], [PurchaseItemRequest(1, 5.0, 2.0, 10.0), PurchaseItemRequest(1, 3.0, 2.5, 10.0)])
            == Rejected(Conflict(1, 15.0, 10.0))
  {
    var current := [PurchaseItemRequest(1, 5.0, 2.0, 10.0), PurchaseItemRequest(1, 3.0, 2.5, 15.0)];
    var stale := [PurchaseItemRequest(1, 5.0, 2.0, 10.0), PurchaseItemRequest(1, 3.0, 2.5, 10.0)];
    assert current[..1] == [current[0]];
    assert stale[..1] == [stale[0]];
  }
}
