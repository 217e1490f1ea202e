/**
 * Properties that connect the web client to the API: the unit labels both sides show, and
 * what the purchase action does with the request the purchase page builds.
 */
module EndToEnd {
  import opened Wrappers
  import Models
  import StockTypeHelpers
  import PurchasesController
  import opened PurchasesPage

  /** The API's unit of measure and the client's stock-type label split the stock types the same way. */
  lemma LabelsAgreeOnKind(p: Models.Product, q: Models.Product)
    ensures Models.UnitOfMeasure(p) == Models.UnitOfMeasure(q)
            <==> StockTypeHelpers.GetStockTypeLabel(p.stockType) == StockTypeHelpers.GetStockTypeLabel(q.stockType)
  {
  }

  /** Lines that copy a cart's quantities and prices total what the cart totals. */
  lemma {:induction false} LinesTotalOfCart(lines: seq<PurchasesController.PurchaseItemRequest>, cart: Cart)
    requires |lines| == |cart|
    requires forall k :: 0 <= k < |cart| ==> lines[k].quantity == cart[k].quantity && lines[k].unitPrice == cart[k].unitPrice
    ensures PurchasesController.LinesTotal(lines) == Total(cart)
    decreases |cart|
  {
    if |cart| > 0 {
      var n := |cart| - 1;
      assert lines == lines[..n] + [lines[n]];
      LinesTotalOfCart(lines[..n], cart[..n]);
      PurchasesController.LinesTotalAppend(lines[..n], lines[n]);
    }
  }

  /**
   * When the API accepts the request the page built, the purchase it records has one item
   * per cart entry, in cart order, and the server-computed total equals the cart's total.
   */
  lemma SubmittedPurchaseMatchesCart(cart: Cart, store: PurchasesController.Store)
    requires BuildRequest(cart).Some?
    requires PurchasesController.Run(store, BuildRequest(cart).value.items).Staged?
    ensures var st := PurchasesController.Run(store, BuildRequest(cart).value.items).staging;
            && |st.items| == |cart|
            && (forall k :: 0 <= k < |cart| ==>
                  st.items[k] == Models.PurchaseItem(cart[k].product.id, cart[k].quantity, cart[k].unitPrice))
            && st.total == Total(cart)
  {
    var lines := BuildRequest(cart).value.items;
    PurchasesController.RunStaged(store, lines);
    LinesTotalOfCart(lines, cart);
  }

  /**
   * For a cart with one entry per product, the per-line check of the API reduces to a check
   * against the stored snapshot: the batch passes exactly when every product exists and still
   * has the quantity it had when it was put in the cart.
   */
  lemma DistinctCartChecksSnapshot(cart: Cart, store: PurchasesController.Store)
    requires DistinctProducts(cart) && BuildRequest(cart).Some?
    ensures PurchasesController.Run(store, BuildRequest(cart).value.items).Staged?
            <==> forall k :: 0 <= k < |cart| ==>
                   cart[k].product.id in store && store[cart[k].product.id].quantity == cart[k].product.quantity
  {
    var lines := BuildRequest(cart).value.items;
    PurchasesController.RunSucceedsIff(store, lines);
    forall k | 0 <= k < |cart|
      ensures PurchasesController.LinePasses(store, lines, k)
              <==> cart[k].product.id in store && store[cart[k].product.id].quantity == cart[k].product.quantity
    {
      assert forall j :: 0 <= j < k ==> lines[..k][j].productId == cart[j].product.id;
      PurchasesController.QuantityAddedUnreferenced(lines[..k], lines[k].productId);
    }
  }
}
