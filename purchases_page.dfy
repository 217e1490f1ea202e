/**
 * The purchase page of the web client (`Purchases`): a cart of products with the quantity
 * and unit price to buy, edited by the user, and its conversion into the request lines the
 * API's purchase action takes.
 *
 * The page keeps the cart and the displayed total as component state. The handlers copy the
 * cart array with `[...cart]`, which copies the references to the entries but not the entries
 * themselves, and then assign into an entry's field; the entry is therefore changed in the
 * array the handler's closure still sees as well. `recalculateTotal` sums that closure array.
 * The methods below keep the two arrays apart and apply an entry update to both.
 */
module PurchasesPage {
  import opened Wrappers
  import PurchasesController

  /** The fields of the client's `Product` that the page uses. */
  datatype Product = Product(id: int, name: string, quantity: real, price: real)

  /** A cart entry: the product as it was when added, and the quantity and unit price to buy. */
  datatype CartItem = CartItem(product: Product, quantity: real, unitPrice: real)

  type Cart = seq<CartItem>

  /** No two entries are for the same product. */
  predicate DistinctProducts(cart: Cart) {
    forall i, j :: 0 <= i < j < |cart| ==> cart[i].product.id != cart[j].product.id
  }

  /** `cart.findIndex(item => item.product.id === id)`: the first entry for the product, or -1. */
  function FindIndex(cart: Cart, id: int): (k: int)
    ensures -1 <= k < |cart|
    ensures k == -1 <==> forall j :: 0 <= j < |cart| ==> cart[j].product.id != id
    ensures k >= 0 ==> cart[k].product.id == id && forall j :: 0 <= j < k ==> cart[j].product.id != id
  {
    if |cart| == 0 then -1
    else if cart[0].product.id == id then 0
    else
      var k := FindIndex(cart[1..], id);
      assert forall j :: 1 <= j < |cart| ==> cart[j] == cart[1..][j - 1];
      if k < 0 then -1 else k + 1
  }

  function Subtotal(item: CartItem): real {
    item.quantity * item.unitPrice
  }

  /** `recalculateTotal`'s `reduce`: subtotals summed from the left, starting at 0. */
  function Total(cart: Cart): real {
    if |cart| == 0 then 0.0 else Total(cart[..|cart| - 1]) + Subtotal(cart[|cart| - 1])
  }

  /** The total of a cart split in two is the sum of the totals of the parts. */
  lemma {:induction false} TotalConcat(a: Cart, b: Cart)
    ensures Total(a + b) == Total(a) + Total(b)
    decreases |b|
  {
    if |b| == 0 {
      assert a + b == a;
    } else {
      var b' := b[..|b| - 1];
      assert (a + b)[..|a + b| - 1] == a + b';
      TotalConcat(a, b');
    }
  }

  /** Replacing one entry changes the total by the difference of the two subtotals. */
  lemma TotalUpdate(cart: Cart, k: nat, item: CartItem)
    requires k < |cart|
    ensures Total(cart[k := item]) == Total(cart) - Subtotal(cart[k]) + Subtotal(item)
  {
    assert cart == cart[..k] + [cart[k]] + cart[k + 1..];
    assert cart[k := item] == cart[..k] + [item] + cart[k + 1..];
    TotalConcat(cart[..k] + [cart[k]], cart[k + 1..]);
    TotalConcat(cart[..k] + [item], cart[k + 1..]);
    TotalConcat(cart[..k], [cart[k]]);
    TotalConcat(cart[..k], [item]);
    assert Total([cart[k]]) == Subtotal(cart[k]) by { assert [cart[k]][..0] == []; }
    assert Total([item]) == Subtotal(item) by { assert [item][..0] == []; }
  }

  /** `cart.filter((_, i) => i !== index)`, with `offset` the position of `cart[0]` in the original array. */
  function FilterOutIndex(cart: Cart, index: int, offset: int): (r: Cart)
    ensures offset <= index < offset + |cart| ==> r == cart[..index - offset] + cart[index - offset + 1..]
    ensures !(offset <= index < offset + |cart|) ==> r == cart
    decreases |cart|
  {
    if |cart| == 0 then []
    else
      var rest := FilterOutIndex(cart[1..], index, offset + 1);
      assert cart == [cart[0]] + cart[1..];
      if index == offset then rest else [cart[0]] + rest
  }

  /** `handleRemoveFromCart`'s new cart: every entry except the one at `index`, in order. */
  function RemoveAt(cart: Cart, index: int): (r: Cart)
    ensures 0 <= index < |cart| ==>
              && |r| == |cart| - 1
              && (forall j :: 0 <= j < index ==> r[j] == cart[j])
              && (forall j :: index <= j < |r| ==> r[j] == cart[j + 1])
    ensures !(0 <= index < |cart|) ==> r == cart
  {
    FilterOutIndex(cart, index, 0)
  }

  /** Some entry has a unit price that is not positive (`cart.some(item => item.unitPrice <= 0)`). */
  predicate HasNonPositivePrice(cart: Cart) {
    exists k :: 0 <= k < |cart| && cart[k].unitPrice <= 0.0
  }

  /** The request line for one entry; `currentStock` is the quantity the product had when it was added. */
  function ToRequestLine(item: CartItem): PurchasesController.PurchaseItemRequest {
    PurchasesController.PurchaseItemRequest(item.product.id, item.quantity, item.unitPrice, item.product.quantity)
  }

  /**
   * The validation and mapping part of `handleSubmit`: no request at all when a unit price
   * is zero or negative, otherwise one line per entry, in cart order.
   */
  function BuildRequest(cart: Cart): (r: Option<PurchasesController.PurchaseRequest>)
    ensures r.None? <==> exists k :: 0 <= k < |cart| && cart[k].unitPrice <= 0.0
    ensures r.Some? ==>
              && |r.value.items| == |cart|
              && forall k :: 0 <= k < |cart| ==>
                   && r.value.items[k].productId == cart[k].product.id
                   && r.value.items[k].quantity == cart[k].quantity
                   && r.value.items[k].unitPrice == cart[k].unitPrice
                   && r.value.items[k].currentStock == cart[k].product.quantity
  {
    if HasNonPositivePrice(cart) then None
    else Some(PurchasesController.PurchaseRequest(seq(|cart|, k requires 0 <= k < |cart| => ToRequestLine(cart[k]))))
  }

  /** The page's state: the cart and the total on display. */
  class PurchasePage {
    var cart: Cart
    var total: real

    ghost predicate Valid()
      reads this
    {
      DistinctProducts(cart)
    }

    constructor ()
      ensures Valid() && cart == [] && total == 0.0
    {
      cart := [];
      total := 0.0;
    }

    /**
     * `handleAddToCart`. A product already in the cart has `quantity` added to its entry;
     * otherwise a new entry is appended at the product's current price. The total is then
     * recomputed from the closure's array: it sees the merged quantity (the entry is shared)
     * but not an appended entry.
     */
    method AddToCart(product: Product, quantity: real)
      requires Valid()
      modifies this
      ensures Valid()
      ensures var k := FindIndex(old(cart), product.id);
              if k >= 0 then
                && |cart| == |old(cart)|
                && cart[k] == old(cart)[k].(quantity := old(cart)[k].quantity + quantity)
                && (forall j :: 0 <= j < |cart| && j != k ==> cart[j] == old(cart)[j])
                && total == Total(cart)
              else
                && cart == old(cart) + [CartItem(product, quantity, product.price)]
                && total == Total(old(cart))
    {
      var closureCart := cart;
      var k := FindIndex(cart, product.id);
      if k >= 0 {
        var updatedCart := cart;
        var entry := updatedCart[k].(quantity := updatedCart[k].quantity + quantity);
        updatedCart := updatedCart[k := entry];
        closureCart := closureCart[k := entry];
        cart := updatedCart;
      } else {
        cart := cart + [CartItem(product, quantity, product.price)];
      }
      total := Total(closureCart);
    }

    /** `handleQuantityChange`: a positive quantity replaces the entry's quantity; anything else, or an index with no entry, changes nothing. */
    method QuantityChange(index: int, newQuantity: real)
      requires Valid()
      modifies this
      ensures Valid()
      ensures if newQuantity > 0.0 && 0 <= index < |old(cart)| then
                && cart == old(cart)[index := old(cart)[index].(quantity := newQuantity)]
                && total == Total(cart)
              else
                cart == old(cart) && total == old(total)
    {
      if newQuantity > 0.0 {
        if !(0 <= index < |cart|) {
          // `updatedCart[index]` is undefined and the assignment throws before any state is set.
          return;
        }
        var updatedCart := cart;
        var entry := updatedCart[index].(quantity := newQuantity);
        updatedCart := updatedCart[index := entry];
        var closureCart := cart[index := entry];
        cart := updatedCart;
        total := Total(closureCart);
      }
    }

    /** `handlePriceChange`: a non-negative price replaces the entry's unit price; anything else, or an index with no entry, changes nothing. */
    method PriceChange(index: int, newPrice: real)
      requires Valid()
      modifies this
      ensures Valid()
      ensures if newPrice >= 0.0 && 0 <= index < |old(cart)| then
                && cart == old(cart)[index := old(cart)[index].(unitPrice := newPrice)]
                && total == Total(cart)
              else
                cart == old(cart) && total == old(total)
    {
      if newPrice >= 0.0 {
        if !(0 <= index < |cart|) {
          // `updatedCart[index]` is undefined and the assignment throws before any state is set.
          return;
        }
        var updatedCart := cart;
        var entry := updatedCart[index].(unitPrice := newPrice);
        updatedCart := updatedCart[index := entry];
        var closureCart := cart[index := entry];
        cart := updatedCart;
        total := Total(closureCart);
      }
    }

    /** `handleRemoveFromCart`: the entry at `index` is dropped; the total recomputed from the closure's array still includes it. */
    method RemoveFromCart(index: int)
      requires Valid()
      modifies this
      ensures Valid()
      ensures cart == RemoveAt(old(cart), index)
      ensures total == Total(old(cart))
    {
      var closureCart := cart;
      cart := RemoveAt(cart, index);
      total := Total(closureCart);
    }
  }
}
