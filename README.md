# PantryManager purchases, modelled in Dafny

PantryManager is an inventory application: an ASP.NET Core API over a Products table and a
purchase ledger, and a React client. This project models the part with real logic.

- **The purchase transaction engine** (`PurchasesController.CreatePurchase`). A request is an
  ordered list of lines `{ProductId, Quantity, UnitPrice, CurrentStock}`. Inside one database
  transaction each line, in submitted order, must name an existing product (else `NotFound`)
  whose quantity equals the quantity the caller last saw (else `Conflict` with the stored and
  the received quantity). A passing line overwrites the product's price, adds to its quantity,
  adds `Quantity * UnitPrice` to the total and becomes a purchase item. Only when every line
  passes is the purchase appended and the transaction committed. The commit itself can still
  fail with a concurrency exception or any other exception, and the transaction is rolled back.
  The model proves this is atomic: every outcome other than `Success` leaves the products and
  the ledger exactly as they were.
- **Reading a purchase back** (`GetPurchase`): the first ledger entry with the id, projected
  field for field into a DTO, or not found.
- **The display helpers**: `Product.UnitOfMeasure`, `Product.FormattedImageUrl` (rewrites a
  Google Drive share link to a direct-view link) and the client's `getStockTypeLabel`.
- **The client's cart** (`pages/Purchases.tsx`): add-or-merge by product id, guarded quantity
  and price edits, removal by index, the total, and the checks and mapping that turn the cart
  into a request.

## How the model is built

- `wrappers.dfy`: `Option`, used for C# `null`, a missing row and a refused submission.
- `strings.dfy`: the .NET string members `FormattedImageUrl` uses (`StartsWith` and `Split`),
  with ordinal comparison, and `IndexOf`, a helper that `Split` scans with.
- `models.dfy`: the entities (`Product`, `Purchase`, `PurchaseItem`, the DTOs), `UnitOfMeasure`
  and `FormattedImageUrl`.
- `purchases_controller.dfy` models the engine in three parts:
  - A pure specification `Run`, which processes the lines against the values Entity Framework
    tracks during the request (`Staging`).
  - Lemmas stating what `Run` computes in terms of reference definitions that do not depend on
    its evaluation order: `QuantityAdded`, `LastPrice`, `LinesTotal`, `ToPurchaseItems` and
    `StockBefore`.
  - A class `PantryContext`, holding the products map, the ledger and the next identity value.
    The imperative `CreatePurchase` loops over the lines on a tracked copy and is proved
    against `Run`.
- `stock_type_helpers.dfy`: `getStockTypeLabel`.
- `purchases_page.dfy`: the cart as a `seq` of records and the page as a class with `cart` and
  `total` fields that its handlers change. The pure parts are functions: `FindIndex`, `Total`,
  `RemoveAt` and `BuildRequest`.
- `end_to_end.dfy` connects the client to the API:
  - the unit labels of both sides agree;
  - a purchase recorded from the page's request has the cart's items and the cart's total;
  - for a cart with one entry per product, the engine's per-line check is just a check against
    the stored quantities.

Decimal values (C# `decimal`, JS `number`) are exact `real`s. `DateTime` is an `int`.

### Behaviour worth knowing

- **Repeated product id.** The engine checks each line against the product as earlier lines
  already changed it. Entity Framework returns the tracked entity with its in-memory values.
  A second line for the same product must therefore carry the quantity the first line left.
  The last line's price wins. `RunSucceedsIff` and `RepeatedProductIsCheckedPerLine` state this.
- **The client's total does not always match the cart.** `recalculateTotal` sums the `cart`
  array captured by the handler's closure. `[...cart]` copies only references, so an in-place
  change to an entry (merging a quantity, editing a quantity or a price) is visible in that
  array, and the total is right. Appending a new product or removing an entry builds a new
  array, and the total shown is the total from before that change. The methods model exactly
  this.
- **The server checks less than a reader might expect. The model follows the code:**
  - A batch is not required to be non-empty. An empty batch commits a purchase with no items
    and a zero total.
  - Quantities and prices are not range-checked by the server.
  - A commit-time concurrency failure reports the entity type names of the entries, not
    product ids.
  - No concurrency token is configured on the entities, so the commit-time failures are only
    abstract outcomes, modelled as an input.

## Model

| member | source | states |
|---|---|---|
| `PurchasesController.CreatePurchase` | PantryManager.API/PantryManager.API/Controllers/PurchasesController.cs:26-109 | A line-level failure returns `Run`'s failure. A passing batch returns `Success` with the next id, the given timestamp, total = sum of line subtotals and one item per line in order, or `ConcurrencyConflict`/`Internal` according to the commit outcome. Only `Success` changes the database: products become `Updated`, exactly one purchase is appended, and every other outcome leaves products, ledger and id counter unchanged. Valid (keys, increasing ids) is kept. |
| `PurchasesController.RunStaged` | PantryManager.API/PantryManager.API/Controllers/PurchasesController.cs:35-83 | After a passing batch no product is added or removed. Each product gained the sum of the quantities of the lines naming it and carries the last such line's price, other fields unchanged. The items copy the lines in order. The total equals the sum of `Quantity * UnitPrice` from zero. |
| `PurchasesController.RunSucceedsIff` | PantryManager.API/PantryManager.API/Controllers/PurchasesController.cs:35-63 | The batch passes if and only if every line names a stored product whose quantity, after the changes of the earlier lines, equals the line's `CurrentStock`. |
| `PurchasesController.RunRejectsAtFirstFailure` | PantryManager.API/PantryManager.API/Controllers/PurchasesController.cs:37-59 | When line k is the first that does not pass, the result is that line's failure: `NotFound(id)` for a missing product, otherwise `Conflict(id, quantity found, quantity received)`. |
| `PurchasesController.RunRejected` | PantryManager.API/PantryManager.API/Controllers/PurchasesController.cs:37-59 | Every rejection is the failure of the first line that does not pass, and all earlier lines passed. |
| `PurchasesController.RejectionPersists` | PantryManager.API/PantryManager.API/Controllers/PurchasesController.cs:40-59 | A failure on a prefix of the lines is the result of the whole batch; the return skips every later line. |
| `PurchasesController.RejectionDetails` | PantryManager.API/PantryManager.API/Controllers/PurchasesController.cs:40-59 | A rejection is `NotFound` or `Conflict`. A `NotFound` carries a line's product id that is not stored. A `Conflict` carries a line's product id, the quantity found when that line was reached and the line's `CurrentStock`, and the two differ. |
| `PurchasesController.MissingProductFails` | PantryManager.API/PantryManager.API/Controllers/PurchasesController.cs:37-47 | A line naming a product that is not stored makes the batch fail. |
| `PurchasesController.UnreferencedProductUnchanged` | PantryManager.API/PantryManager.API/Controllers/PurchasesController.cs:35-63 | A passing batch leaves every product that no line names exactly as it was. |
| `PurchasesController.ToPurchaseItems` | PantryManager.API/PantryManager.API/Controllers/PurchasesController.cs:69-74 | One purchase item per line, same order, copying `ProductId`, `Quantity` and `UnitPrice`. |
| `PurchasesController.FreshLineSucceeds` | PantryManager.API/PantryManager.API/Controllers/PurchasesController.cs:50-66 | Buying 5 at 2.00 while 10 of 10 are on hand leaves 15 at price 2.00 and totals 10.00. |
| `PurchasesController.StaleLineConflicts` | PantryManager.API/PantryManager.API/Controllers/PurchasesController.cs:50-59 | The same line against 12 on hand gives `Conflict(1, 12, 10)`. |
| `PurchasesController.UnknownProductRejectsBatch` | PantryManager.API/PantryManager.API/Controllers/PurchasesController.cs:37-47 | A batch whose second line names product 99, which does not exist, gives `NotFound(99)`, although its first line would pass. |
| `PurchasesController.RepeatedProductIsCheckedPerLine` | PantryManager.API/PantryManager.API/Controllers/PurchasesController.cs:35-63 | Two lines for one product: the second must carry the quantity left by the first (15) to pass, and the second price wins. A second line carrying the pre-batch quantity conflicts with `Conflict(1, 15, 10)`. |
| `PurchasesController.FindPurchase` | PantryManager.API/PantryManager.API/Controllers/PurchasesController.cs:114-118 | `None` exactly when no ledger entry has the id. Otherwise the first entry in stored order with that id. |
| `PurchasesController.GetPurchase` | PantryManager.API/PantryManager.API/Controllers/PurchasesController.cs:111-132 | Not found exactly when no entry has the id. Otherwise the first such entry's id, date and total, with its items projected field for field in stored order. It is a function of the ledger, so nothing changes and two reads agree. |
| `PurchasesController.CreatedPurchaseIsRetrievable` | PantryManager.API/PantryManager.API/Controllers/PurchasesController.cs:85-131 | A purchase appended with an id larger than every stored one is what `GetPurchase` returns for that id. |
| `Models.UnitOfMeasure` | PantryManager.API/PantryManager.API/Models/Product.cs:18-23 | "kg" exactly for stock type 1, "L" exactly for 2, "unidades" exactly for every other integer. |
| `Models.FormattedImageUrl` | PantryManager.API/PantryManager.API/Models/Product.cs:25-36 | A null, empty or non-Drive image URL is returned unchanged. A Drive share link becomes a link starting with the direct-view prefix. |
| `Models.DriveFileId` | PantryManager.API/PantryManager.API/Models/Product.cs:29-32 | For a Drive share link the result is the direct-view prefix followed by the text after the share prefix (the first "/d/") up to the next '/' or the end. That id contains no '/'. |
| `StockTypeHelpers.GetStockTypeLabel` | pantrymanager.app/src/components/Products/stockTypeHelpers.ts:2-13 | "kilogramos" exactly for 1, "litros" exactly for 2, "unidades" exactly for every other value, 0 included. |
| `PurchasesPage.FindIndex` | pantrymanager.app/src/pages/Purchases.tsx:28 | -1 exactly when no entry has the product id. Otherwise the index of the first entry that has it. |
| `PurchasesPage.TotalConcat` | pantrymanager.app/src/pages/Purchases.tsx:45-48 | The left fold of `quantity * unitPrice` from 0 is additive over concatenation. |
| `PurchasesPage.TotalUpdate` | pantrymanager.app/src/pages/Purchases.tsx:45-48 | Replacing one entry changes the total by the difference of the old and new subtotals. |
| `PurchasesPage.RemoveAt` | pantrymanager.app/src/pages/Purchases.tsx:69-70 | For a valid index: the cart without that entry, one shorter, the others in their original order. For any other index: the cart unchanged. |
| `PurchasesPage.BuildRequest` | pantrymanager.app/src/pages/Purchases.tsx:78-90 | No request exactly when some entry's unit price is <= 0. Otherwise one line per entry in order: product id, quantity, unit price, and currentStock = the product's quantity. |
| `PurchasesPage.PurchasePage.constructor` | pantrymanager.app/src/pages/Purchases.tsx:19-24 | The page starts with an empty cart and a zero total. |
| `PurchasesPage.PurchasePage.AddToCart` | pantrymanager.app/src/pages/Purchases.tsx:27-43 | A product already in the cart adds the quantity to its first entry. The length is the same and no other entry changes, and the total is that of the new cart. A new product appends one entry at `product.price`, the existing entries kept, and the total is that of the cart before. Distinct product ids are kept. |
| `PurchasesPage.PurchasePage.QuantityChange` | pantrymanager.app/src/pages/Purchases.tsx:51-58 | Only a quantity > 0 at an existing index changes that entry's quantity, and the total becomes the new cart's. Otherwise nothing changes. |
| `PurchasesPage.PurchasePage.PriceChange` | pantrymanager.app/src/pages/Purchases.tsx:60-67 | Only a price >= 0 at an existing index changes that entry's unit price, and the total becomes the new cart's. Otherwise nothing changes. |
| `PurchasesPage.PurchasePage.RemoveFromCart` | pantrymanager.app/src/pages/Purchases.tsx:69-73 | The cart becomes `RemoveAt(cart, index)`. The total is the one of the cart before the removal. |
| `EndToEnd.LabelsAgreeOnKind` | PantryManager.API/PantryManager.API/Models/Product.cs:18-23 | Two products get the same API unit of measure if and only if they get the same client stock-type label. |
| `EndToEnd.LinesTotalOfCart` | PantryManager.API/PantryManager.API/Controllers/PurchasesController.cs:66 | Lines that copy a cart's quantities and prices have a server total equal to the cart's total. |
| `EndToEnd.SubmittedPurchaseMatchesCart` | pantrymanager.app/src/pages/Purchases.tsx:83-90 | When the engine accepts the request the page built, its items are the cart entries in order and its total equals the cart's total. |
| `EndToEnd.DistinctCartChecksSnapshot` | PantryManager.API/PantryManager.API/Controllers/PurchasesController.cs:50-59 | For a cart with one entry per product, the batch passes if and only if every product exists and still holds the quantity recorded when it was added. |

## Left out

- HTTP and ASP.NET plumbing: status codes, `CreatedAtAction` and its location header, and the Spanish message texts. The results carry only the data fields.
- Entity Framework and SQL Server:
  - `Include`, query translation and the transaction object are not modelled.
  - The change tracker is the `Staging` copy that only a commit writes back.
  - Identity values are a counter advanced only on commit. SQL Server also consumes identity values in rolled-back transactions; those gaps are not modelled.
  - The database keys `PurchaseItem.Id` and `PurchaseItem.PurchaseId` are not modelled.
- Exceptions thrown while a product is read inside the loop are not modelled. Such a failure would also give `Internal` with nothing changed. Only the commit outcome is an input.
- PurchasesController.CreatePurchase: SQL Server stores the decimal columns (product quantity and price, purchase total, item quantity and unit price) at the column's scale; no precision is configured, so Entity Framework's default `decimal(18,2)` applies and values are rounded to two decimals when saved. The model stores exact values, so its equalities between the stored state and the computed values hold only for values with at most two decimals. The `Success` body itself carries the unrounded in-memory values, as the model does.
- PurchasesController.CreatedPurchaseIsRetrievable: for the same reason, a purchase read back from the database carries two-decimal values; the lemma's equality with the values computed at creation holds only when they have at most two decimals.
- Decimal overflow (an `OverflowException`, hence a 500) is not modelled, because `real` is unbounded. JS floating point, `NaN` from `Number(...)` and `toLocaleString` formatting are not modelled either.
- A request without an `Items` list is not modelled. The model always takes a list. Depending on the project's nullable setting, such a request is refused by model validation before the action runs, or fails inside it.
- `DateTime.UtcNow` is not modelled. The timestamp is the parameter `now`.
- Concurrent requests against the same products are not modelled. Each call of `CreatePurchase` runs alone against the database. In the source, the transaction runs at the database's default isolation, the product read takes no lock, and no concurrency token is configured. So two requests that both saw the same quantity can both pass the line check and both commit `Success`, and the later update overwrites the earlier one's quantity (a lost update). No commit outcome reports this; the `commit` input covers only the exceptions the source catches.
- `Models.FormattedImageUrl`: `StartsWith(string)` is culture-sensitive in .NET and ignores zero-weight characters (a soft hyphen, for one) in the input, so it can accept URLs that the model's ordinal comparison rejects. The two agree for URLs without ignorable characters.
- `StockTypeHelpers.GetStockTypeLabel` takes an integer. A non-integer JS number, or a string like the client's declared `stockType`, also falls to the default in the source; this is not modelled.
- `handleSubmit`'s network call, `alert`, clearing the cart after a successful response, `window.dispatchEvent`, the `isSubmitting` flag and `handleSubmissionError` are not modelled, because they are I/O and error-object inspection.
- The `Math.max(1, ...)` clamp applied where the quantity field calls `handleQuantityChange` is not modelled. `QuantityChange` takes the value the handler receives.
- React's state scheduling is not modelled. Each handler's effect is applied as soon as the handler returns.
- Object aliasing in the cart is modelled only by its effect: a merged or edited entry is applied both to the new cart and to the array the total is computed from.
- Authentication, product CRUD and search, configuration, migrations, the product search box and all UI rendering are not part of this model.
