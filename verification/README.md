# Invoice aggregation of the invoicing back office

This project models the invoice back office of a small product and invoicing API. The
catalog holds products with a name and a price. Invoices hold a customer, two workflow
dates, a down payment and an ordered list of line items. Each line item is a product
reference and a quantity.

The one piece of business logic is the aggregation that both invoice read routes perform.
Each stored line is paired with the referenced product's *current* price, and its
`totalPrice` is price times quantity. `grandPrice` is the left fold `sum + totalPrice` from
0. Totals are computed on every read and never stored. If a referenced product has been
deleted, the whole read fails with 500.

The model also covers these smaller rules:

- the `price || 0` default when a product is created;
- the line copying done when an invoice is created or updated;
- the update route's unconditional `products.map`;
- the PDF route's row numbering and balance arithmetic.

Modules:

- `Schemas` (`schemas.dfy`): the stored documents (`Product`, `LineItem`, `Invoice`), the
  catalog and invoice store as maps, and the population of a reference (`Lookup`).
- `Aggregation` (`aggregation.dfy`): line resolution, the fold, a reference sum and the
  catalog total, with lemmas about them.
- `Routes` (`routes.dfy`): the handlers as functions from the store contents and the
  request to a `Result`. The validator chain in front of a handler is one boolean `valid`.
  A new document's id is chosen by the caller.
- `Pdf` (`pdf.dfy`): the figures the PDF prints, as written and as evidently intended.

Everything is pure. The read routes are functions of the catalog and the invoice store and
return only an answer, so the computed totals cannot be written back. The create and update
routes return the new store. All amounts are mathematical integers.

Two behaviours of `routes/transactions.js` are worth stating outright:

- A deleted product makes the list, single-invoice and PDF routes fail as a whole with 500.
  Each reads `price` or `name` from the null populated reference (lines 167, 205 and 336),
  and the surrounding `catch` answers 500.
- The PDF prints the invoice's stored `grandPrice` (lines 344 and 346), which no route
  sets (see Findings).

## Model

| member | source | states |
|---|---|---|
| `Aggregation.ResolveLine` | routes/transactions.js:164-169 | A line resolves exactly when its product is still in the catalog. It then keeps its id and quantity, takes the product's current price, and has total price times quantity. |
| `Aggregation.ResolveLines` | routes/transactions.js:202-207 | The lines map is all or nothing. It succeeds exactly when every referenced product exists. It then has the same length and order as the stored lines, and line i is line i resolved against the current catalog. |
| `Schemas.Lookup` | routes/transactions.js:196 | Populating a reference gives the product document exactly when the product is still in the catalog. Otherwise it gives null (`None`). |
| `Aggregation.Reduce` | routes/transactions.js:174 | The left fold `sum + totalPrice` from a start value equals that start value plus an independent right-to-left sum of the line totals. |
| `Aggregation.GrandPrice` | routes/transactions.js:213 | The fold from 0 equals the sum of the line totals, so an invoice with no lines totals 0. |
| `Aggregation.ReduceConcat` | routes/transactions.js:174 | Folding a concatenation is folding the second part from where the first part ended. |
| `Aggregation.GrandPriceAppend` | routes/transactions.js:213 | An invoice with no lines totals 0. Appending a line adds exactly that line's total. |
| `Aggregation.GrandPriceConcat` | routes/transactions.js:213 | The total of two runs of lines is the sum of their totals. |
| `Aggregation.GrandPricePermutation` | routes/transactions.js:213 | The grand total is the same for any reordering of the lines (equal multisets). |
| `Aggregation.GrandPriceOfResolved` | routes/transactions.js:202-213 | When every product exists, the reported grand total is the sum over the stored lines of current price times quantity. |
| `Aggregation.ResolveLinesLocal` | routes/transactions.js:196-207 | Resolution depends only on the catalog entries of the referenced products. |
| `Aggregation.PriceEdit` | routes/transactions.js:205-206 | Changing one product's price changes the catalog total by the price difference times the units of that product the lines order. |
| `Routes.StoredPrice` | routes/transactions.js:30-31 | The stored price is the submitted number, even when it is 0. It is 0 when no price was submitted. |
| `Routes.CreateProduct` | routes/transactions.js:20-38 | A request without a price, or one the other checks reject, answers 400 and changes nothing. An accepted one adds exactly one product under the new id, with the submitted name and the submitted price, and leaves every other product as it was. |
| `Routes.CopyLines` | routes/transactions.js:142-145 | The stored lines have the submitted lines' length and order. Each keeps exactly the submitted product id and quantity. |
| `Routes.CopyLinesDropsOthers` | routes/transactions.js:142-145 | Two submissions that agree on product id and quantity line by line store the same lines, whatever other fields they carry. |
| `Routes.CreateInvoice` | routes/transactions.js:123-156 | A rejected request answers 400. An accepted one stores exactly one new invoice with the submitted header fields, the copied lines and no grand total. |
| `Routes.UpdateInvoice` | routes/transactions.js:226-267 | 400 on rejection. 500 whenever `products` is absent, even for an unknown id, because the map runs before the store call. 404 on an unknown id. Otherwise only that invoice is replaced: absent header fields are kept, the lines are replaced wholesale, and the stored grand total is untouched. |
| `Routes.ReadInvoice` | routes/transactions.js:202-214 | The shared aggregation fails with 500 exactly when some referenced product is gone. Otherwise it keeps the stored header fields and gives resolved lines in stored order. Its grand total is both the sum of the line totals and the catalog total of the stored lines. |
| `Routes.GetInvoice` | routes/transactions.js:187-222 | 400 on a rejected id, 404 on an unknown one, and otherwise the shared aggregation of that invoice. |
| `Routes.ReadAll` | routes/transactions.js:163-176 | The map over the found invoices is all or nothing: it succeeds exactly when every named invoice reads, and element i is the single-invoice answer for id i. |
| `Routes.ListInvoices` | routes/transactions.js:159-183 | Given every stored id exactly once, in store order, the list fails with 500 as a whole if any stored invoice fails to resolve. Otherwise it has exactly one element per stored invoice, and element i equals what the single-invoice route answers for id i. |
| `Routes.ReadIgnoresStoredTotal` | routes/transactions.js:210-214 | The stored `grandPrice` has no influence on the read: it is replaced by the computed one. |
| `Routes.CreatedInvoiceTotal` | routes/transactions.js:136-149 | After creating an invoice whose products all exist, reading it succeeds. Its total is the catalog total of the submitted product and quantity pairs, so fields a client adds to a line cannot change it. |
| `Routes.DeletedProductFailsRead` | routes/transactions.js:196-219 | Once a product a line references is deleted, the invoice is still stored, but reading it answers 500. There is no partial total and no skipped line. |
| `Routes.UnreferencedDeleteKeepsRead` | routes/transactions.js:202-207 | Deleting a product that no line references leaves the read unchanged. |
| `Routes.PriceEditMovesTotal` | routes/transactions.js:202-213 | Totals are live. After a catalog price edit, the same unchanged invoice reads with a total moved by the price change times the units it orders. |
| `Routes.WritesStoreNoTotal` | routes/transactions.js:137-147 | Neither invoice creation nor invoice update ever stores a grand total. |
| `Pdf.Rows` | routes/transactions.js:333-341 | The table has one row per line in order. Row i is numbered i + 1 and shows the product's name, the quantity, the unit price and price times quantity. |
| `Pdf.RowsAddUpToGrandPrice` | routes/transactions.js:339 | The printed row totals add up to the aggregation's grand total. |
| `Pdf.Balance` | routes/transactions.js:346 | The balance is grand total minus down payment, with no clamping: it is negative exactly when the down payment exceeds the grand total. It is NaN when there is no grand total. |
| `Pdf.GeneratePdfAsWritten` | routes/transactions.js:292-349 | 400, 404, or 500 when a referenced product is gone. Otherwise the document has the stored customer, dates and down payment, the numbered rows built from the current catalog, the stored `grandPrice` as sub total, and the balance computed from it. |
| `Pdf.GeneratePdf` | routes/transactions.js:344-346 | The corrected route fails exactly when the single-invoice read fails, with the same status. It prints the stored customer, dates and down payment and the same rows as the route as written. Its sub total equals the sum of the rows and the catalog total of the stored lines, and its balance is that total minus the stored down payment. |
| `Pdf.AsWrittenPdfHasNoTotal` | routes/transactions.js:344-346 | For any invoice stored by the routes, the PDF as written prints no sub total and a NaN balance, while the corrected PDF succeeds. |
| `Pdf.WidgetScenario` | routes/transactions.js:163-176 | Widget at 100, 3 units, down payment 20: the invoice reads 300, the corrected balance is 280, and the as-written balance is NaN. At price 150 it reads 450 with balance 430. After deleting Widget the read answers 500. |

## Findings

| source | as written | input that shows it | evidently intended | confidence | as-written member | corrected member |
|---|---|---|---|---|---|---|
| routes/transactions.js:344-346 | Sub total and balance are printed from the invoice document's stored `grandPrice`. No route ever sets that field (models/schemas.js:41 has no default, and the pre-save hook computing it is commented out). The sub total prints as "undefined" and the balance as NaN. | Any invoice created through POST /invoices, e.g. Widget at 100, quantity 3, down payment 20: the rows show 300, the total shows NaN | Sub total = the computed grand total (300), balance = grand total - down payment (280) | high, not executed | `Pdf.GeneratePdfAsWritten` (shown by `Pdf.AsWrittenPdfHasNoTotal`, `Pdf.WidgetScenario`) | `Pdf.GeneratePdf` |

## Left out

- Express routing, the JSON envelopes and messages, and `console.error` logging are I/O. Only the status of each answer is modelled.
- The express-validator chains (`notEmpty`, `isNumeric`, `isArray`, `isMongoId`, `isISO8601`) are library predicates. Each route's chain is one boolean guard `valid`, checked before any store access.
- Store failures (an unreachable store, a failed save) and the 500 they cause are not modelled. Every store call succeeds.
- The non-atomic read of an invoice and then its products is not modelled. Each read sees one catalog snapshot.
- GET /products, GET /products/:id, PUT /products/:id, DELETE /products/:id and DELETE /invoices/:id are plain store calls and are not modelled as routes. Their effect on invoices appears in lemmas as a catalog update `c[id := p]` or a removal `c - {id}`.
- The timestamps (`timeStamp`, `createdAt`) and `getFormattedDate` come from the clock and locale formatting, so they are not modelled. The list order of GET /products by timestamp is not modelled either.
- The list route's input is the sequence of ids the store returns, each stored id once. Their order is the store's and is taken as given.
- The PDF's HTML layout and the `html-pdf` rendering, including its error callback (500), are a foreign library. Only the printed figures are modelled.
- The invoice update's response is the populated stored document, without computed totals. It is modelled as the stored `Invoice`.
- `Routes.UpdateInvoice` assumes the store drops header fields that are absent from the request (undefined keys) rather than clearing them. This is Mongoose's behaviour from version 6 on, and the store library's version is not part of this model.
- `Routes.StoredPrice`: its `Missing` branch cannot be reached through the route, because POST /products rejects a request without a price with 400 before the default is applied; through the route, `price || 0` only ever maps 0 to 0. It also models the price input only as absent or an integer. Other JavaScript falsy values (`null`, `""`, `NaN`, `false`) and numeric strings are not distinguished.
- JavaScript numbers are modelled as unbounded integers. Floating-point prices and rounding are not covered, and neither is the `NaN` that an absent quantity produces. The NaN balance of the PDF is the one NaN the model keeps, as `None`.
