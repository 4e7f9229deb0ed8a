# Sale screen of a butcher-shop point of sale — Dafny model

This project models the sale screen (`app/ventas/page.tsx`) of a point-of-sale
web client for a butcher shop. The screen has three parts:

- **Line editor.** This is the "Agregar" dialog. Choosing a product opens it with the
  product's unit price, one unit and the matching amount. The user may then type into
  any of three inputs: price, quantity or amount. An effect recomputes the input the
  user did not type into: the amount after a price or quantity edit, and the quantity
  after an amount edit (only when the price is positive).
- **Cart.** This holds the confirmed lines in insertion order. Lines can be removed by
  product id. The total is the plain sum of the subtotals. The cart is submitted as a
  sale request, which is refused for an empty cart and clears the cart only when the
  server accepts it.
- **Catalog search.** The product list is filtered by a case-insensitive substring
  match on the product name.

Numbers are exact fixed-point integers. Prices, amounts and totals are in cents;
quantities and stock are in thousandths. `Number(x.toFixed(k))` becomes
`Rounding.RoundDiv`, which rounds to the nearest integer with ties away from zero.
That is what `toFixed` does on an exact value: it rounds the magnitude and keeps the
sign.

Modules:

- `Options`: the optional value.
- `Rounding`: `toFixed` as integer rounding.
- `LineEditor`: the dialog as a value (`EditLine`), the `Field` tag and the
  `Reconcile` step.
- `Cart`: sale lines, the total, removal and the request items.
- `Catalog`: products, lower-casing, `includes`, and the search filter.
- `SalePage`: the class `SaleScreen`. It holds the screen's state and has one method
  per event handler. Each handler and the effects it triggers form one atomic step.
  The class invariant `Valid()` says two things: the total equals the sum of the cart,
  and the dialog is at the fixed point of `Reconcile`.

What the source does, and what the model chooses where it had a choice:

- "Cancelar" only hides the dialog (`app/ventas/page.tsx:334`). The selected product
  and the inputs stay, so `SaleScreen.Cancel` changes `showModal` only.
- The total is the unrounded `reduce` of the subtotals (`app/ventas/page.tsx:119`).
  With subtotals in whole cents no rounding is needed.
- Removal drops every line with the id, not only the first (`app/ventas/page.tsx:114`).
- After every edit except an amount edit at a price ≤ 0, amount = round2(price ×
  quantity) or quantity = round3(amount / price) (`LineEditor.ReconcileConsistent`).
  `LineEditor.ZeroPriceAmountEdit` shows the exception: the guard at
  `app/ventas/page.tsx:86` leaves the quantity as it was.
- Confirming with no product selected does nothing and raises no error
  (`app/ventas/page.tsx:94`).

## Model

| member | source | states |
|---|---|---|
| `Rounding.RoundDiv` | app/ventas/page.tsx:82-87 | the result is n / d rounded to the nearest integer, with ties away from zero (`IsRounding`); it is never of the opposite sign to n (it is 0 when the magnitude of n is less than half of d) |
| `Rounding.RoundDivUnique` | app/ventas/page.tsx:82-87 | any integer meeting the nearest-with-ties-away specification equals `RoundDiv`, so the rounding is determined by that specification |
| `Rounding.RoundDivOfMultiple` | app/ventas/page.tsx:71 | rounding an exact multiple k·d / d gives k back |
| `Rounding.RoundDivMonotone` | app/ventas/page.tsx:82 | rounding preserves order |
| `Rounding.AmountFor` | app/ventas/page.tsx:82 | `toFixed(2)` of price × quantity: the nearest cent to price·quantity / 1000 |
| `Rounding.QuantityFor` | app/ventas/page.tsx:87 | `toFixed(3)` of amount / price: the nearest thousandth to amount·1000 / price, for a positive price |
| `Rounding.AmountOfOneUnit` | app/ventas/page.tsx:71 | round2(price × 1) is the price itself |
| `LineEditor.Open` | app/ventas/page.tsx:68-73 | the opened dialog has price = product price, quantity = 1 unit, amount = price, and no last-edited tag |
| `LineEditor.Set` | app/ventas/page.tsx:283-325 | an edit sets the typed input and the tag for that input, and leaves the other two inputs unchanged |
| `LineEditor.Reconcile` | app/ventas/page.tsx:78-90 | with no tag, nothing changes. After a price or quantity edit, the quantity is kept and the amount is the nearest cent to price × quantity. After an amount edit at a positive price, the amount is kept and the quantity is the nearest thousandth to amount / price. At a price ≤ 0 nothing changes. The price and the tag are never changed |
| `LineEditor.ReconcileIdempotent` | app/ventas/page.tsx:78-90 | re-running the effect on its own output changes nothing (fixed point) |
| `LineEditor.EditedFieldKept` | app/ventas/page.tsx:81-88 | the input the user typed into keeps the typed value after reconciliation |
| `LineEditor.OpenIsSettled` | app/ventas/page.tsx:73-79 | a freshly opened dialog is a fixed point of the effect |
| `LineEditor.ReconcileConsistent` | app/ventas/page.tsx:81-88 | after any edit except an amount edit at a non-positive price, amount = round2(price × quantity) or quantity = round3(amount / price) |
| `LineEditor.ZeroPriceAmountEdit` | app/ventas/page.tsx:86-88 | price 0, amount typed as 100.00: the quantity stays 1, the amount stays 100.00, and the inputs disagree |
| `LineEditor.QuantityEditExample` | app/ventas/page.tsx:82 | price 150.00 with quantity 2 gives amount 300.00 |
| `LineEditor.AmountEditExample` | app/ventas/page.tsx:87 | price 150.00 with amount 50.00 gives quantity 0.333 |
| `Cart.Remove` | app/ventas/page.tsx:114 | a line is kept exactly when it was in the cart and its id differs from the removed id; the result is never longer |
| `Cart.Sum` | app/ventas/page.tsx:119 | the total of the empty cart is 0; with `SumAppend` and `SumConcat`, the total is the subtotals added up from left to right, unrounded |
| `Cart.SumNonNegative` | app/ventas/page.tsx:119 | with no negative subtotal the total is not negative |
| `Cart.SumBoundsLine` | app/ventas/page.tsx:119 | with no negative subtotal, no line's subtotal exceeds the total |
| `Cart.Item` | app/ventas/page.tsx:139-143 | the item of a line carries its id as `producto_id`, its quantity as `cantidad` and its price as `precio` |
| `Cart.ItemSameIff` | app/ventas/page.tsx:139-143 | two lines give the same item exactly when they agree on id, quantity and price; name, unit and subtotal are not sent |
| `Cart.Items` | app/ventas/page.tsx:139-143 | one request item per line, in the same order: the i-th item is `Item` of the i-th line |
| `Cart.SumAppend` | app/ventas/page.tsx:118-121 | appending a line raises the total by exactly its subtotal |
| `Cart.SumConcat` | app/ventas/page.tsx:119 | the total of a concatenation is the sum of the totals |
| `Cart.SumRemove` | app/ventas/page.tsx:113-121 | removing an id lowers the total by exactly the subtotals of that id's lines |
| `Cart.RemoveConcat` | app/ventas/page.tsx:114 | removal distributes over concatenation, so the remaining lines keep their order |
| `Cart.RemoveAbsent` | app/ventas/page.tsx:114 | removing an id that no line has leaves the cart unchanged |
| `Cart.RemoveIdempotent` | app/ventas/page.tsx:114 | removing the same id twice is the same as removing it once |
| `Cart.TotalExample` | app/ventas/page.tsx:118-121 | lines of 300.00 and 45.50 total 345.50; removing the first product leaves 45.50 |
| `Catalog.LowerChar` | app/ventas/page.tsx:61 | the result is never an upper-case letter; upper-case letters move up 32 code points; other characters are unchanged |
| `Catalog.Lower` | app/ventas/page.tsx:61 | same length as the input, lower-cased character by character |
| `Catalog.LowerIdempotent` | app/ventas/page.tsx:61 | lower-casing twice is the same as lower-casing once |
| `Catalog.Includes` | app/ventas/page.tsx:61 | true exactly when the needle occurs at some position of the haystack |
| `Catalog.Matches` | app/ventas/page.tsx:61 | a product matches exactly when the lower-cased query occurs at some position of its lower-cased name; every product matches the empty query |
| `Catalog.Search` | app/ventas/page.tsx:60-62 | a product is listed exactly when it is in the catalog and its lower-cased name contains the lower-cased query |
| `Catalog.SearchConcat` | app/ventas/page.tsx:60-62 | filtering distributes over concatenation, so the listed products keep catalog order |
| `Catalog.SearchEmptyQuery` | app/ventas/page.tsx:60-62 | an empty query lists the whole catalog |
| `Catalog.SearchIgnoresCase` | app/ventas/page.tsx:60-62 | a query and its lower-cased form list the same products |
| `SalePage.SaleScreen.constructor` | app/ventas/page.tsx:23-38 | initial state: empty catalog, query, cart and total; no dialog and no selection; inputs 0 and no tag |
| `SalePage.SaleScreen.LoadCatalog` | app/ventas/page.tsx:50-51 | the catalog is replaced only by a successful response |
| `SalePage.SaleScreen.SetQuery` | app/ventas/page.tsx:170 | the search box holds the typed text |
| `SalePage.SaleScreen.FilteredProducts` | app/ventas/page.tsx:60-62 | the listed products are the catalog products that match the current query |
| `SalePage.SaleScreen.AddProduct` | app/ventas/page.tsx:65-75 | selects the product and opens the dialog at its price, 1 unit and amount = price, with no tag. Cart, total and catalog are unchanged and the invariant is kept |
| `SalePage.SaleScreen.Settle` | app/ventas/page.tsx:78-90 | the dialog's inputs become `Reconcile` of the inputs before the call |
| `SalePage.SaleScreen.EditPrice` | app/ventas/page.tsx:283-286 | sets the price and the tag; the quantity is kept; the amount becomes round2(price × quantity); the fixed point is kept |
| `SalePage.SaleScreen.EditQuantity` | app/ventas/page.tsx:302-305 | sets the quantity and the tag; the price is kept; the amount becomes round2(price × quantity); the fixed point is kept |
| `SalePage.SaleScreen.EditAmount` | app/ventas/page.tsx:322-325 | sets the amount and the tag; the price is kept; the quantity becomes round3(amount / price) when the price is positive and keeps its old value otherwise |
| `SalePage.SaleScreen.Cancel` | app/ventas/page.tsx:334 | hides the dialog and changes nothing else; it is idempotent |
| `SalePage.SaleScreen.UpdateTotal` | app/ventas/page.tsx:118-121 | the total becomes the sum of the cart's subtotals |
| `SalePage.SaleScreen.Confirm` | app/ventas/page.tsx:93-110 | with no selection, nothing changes. Otherwise exactly one snapshot line (id, name, unit, edited price, quantity, subtotal = amount) is appended after the untouched earlier lines, the total grows by the amount, and the selection and dialog are cleared |
| `SalePage.SaleScreen.RemoveItem` | app/ventas/page.tsx:113-115 | the cart becomes `Remove` of the old cart, and the total drops by that id's subtotals |
| `SalePage.SaleScreen.Submit` | app/ventas/page.tsx:124-156 | an empty cart sends nothing and changes nothing. A non-empty cart sends its items in order plus the sum of the subtotals. Acceptance empties the cart and zeroes the total; refusal leaves both unchanged |

## Left out

- Network, storage and browser I/O are not modelled: `fetch`, `localStorage`, the
  bearer token, `alert` and its messages. The catalog response is the `(ok, data)`
  pair given to `LoadCatalog`. The server's answer to a sale is the `accepted`
  boolean given to `Submit`. A thrown exception is treated as a refusal.
- IEEE-754 binary floating point is not modelled. `toFixed` is modelled on exact
  decimals, so binary effects such as `(1.005).toFixed(2) == "1.00"` are not captured.
  Neither is the drift of a floating `reduce` total.
- Values the inputs may hold beyond their step are not modelled. Prices and amounts
  are whole cents and quantities whole thousandths, so an input such as a price of
  12.345 is not representable.
- `Number(e.target.value)` on non-numeric text (which gives `NaN`, or 0 for an empty
  input) is not modelled. Edits take integers.
- `Catalog.LowerChar`: does not model the full Unicode `toLowerCase`. Only ASCII
  letters and the Latin-1 capitals U+00C0..U+00DE are lower-cased. Other scripts and
  multi-character mappings are left as they are.
- React rendering and effect scheduling are not modelled. Each event handler and the
  effects it triggers are one atomic step, so intermediate renders are not modelled.
  This covers the stale total between a cart change and the total effect, and the
  effect's second run, whose lack of effect `LineEditor.ReconcileIdempotent` proves.
- Markup and display formatting are not modelled: `toFixed` in table cells, and the
  dialog being visible only when a product is selected.
- The rest of the application is not part of this model: login, menu, catalog CRUD
  and the report pages.
