# Sale service of Store_Manager, in Dafny

This project models the sale service of the Store_Manager REST API
(`src/services/sale.service.js`). The service holds the business rules for
sales. A sale is an ordered list of `{productId, quantity}` line items. Every
service call returns a tagged result `{type, message}`: `type` is null on
success, or else a classification (`SALE_NOT_FOUND`, `PRODUCT_NOT_FOUND`, or a
validation tag such as `BAD_REQUEST` / `UNPROCESSABLE_ENTITY` passed through
from the schema validator).

Files:

- `sale_types.dfy` (module `SaleTypes`): line items, tags, the validator's
  type, payloads, and `Response`. `Response` has `Success` (type null),
  `Failure(tag, message)`, and `Rejected`. `Rejected` stands for a call whose
  promise rejects with a `TypeError`.
- `in_memory_store.dfy` (module `InMemoryStore`): class `Store` replaces the
  SQL-backed `productModel` and `saleModel`. It holds a sequence of product
  ids, a map from sale id to line items, and the counter that new sale ids come
  from. `Snapshot` is its abstract value. `Consistent` says every stored id is
  below the counter.
- `sale_service.dfy` (module `SaleService`): each service operation has a
  reference definition as a function from a store snapshot to a `Step` (the
  response plus the store afterwards). Class `Service` holds the store and the
  injected validator. Its methods follow the JavaScript step by step, and each
  one is proved to return and leave behind what its `Step` function says.
  `FindUnknownProduct` is the `forEach` loop that sets the
  `productDoesNotExist` flag.
- `sale_properties.dfy` (module `SaleProperties`): the promised behaviour,
  proved about the `Step` functions. It covers short-circuit order, error cases,
  what a success writes, and "nothing else changes". It also proves invariants
  kept over any sequence of calls and properties of calls made in sequence.

`schema.validateNewSale` is injected as a total function `Validator` from
items to an optional `{tag, message}` error. Its rules are not modelled, so
every property holds for every validator.

The positional overwrite in `updateSale` is kept as written. Lines 42-43 set
the quantities at indices 0 and 1 of the stored sale from indices 0 and 1 of
the body. Nothing matches items by product id, and later items are not
touched. When either array has fewer than two elements, JavaScript reads or
writes a property of `undefined` and throws. The model returns `Rejected` there and
leaves the store unchanged: the in-place mutation only touches a freshly
fetched copy, which is never persisted.

A sale stored with no line items is reported as `SALE_NOT_FOUND` by every
read by id, by `updateSale` and by `deleteSale` (`sale.length === 0`), though
`showAllSales` still lists it. `createNewSale` can store such a sale if the
validator accepts an empty list, and it can then never be deleted
(`CreateEmptyThenShow`).

## Model

| member | source | states |
|---|---|---|
| `InMemoryStore.SalesById` | src/services/sale.service.js:10 | the items read for a sale id are the stored ones when the id is present; a non-empty read implies the id is present |
| `InMemoryStore.Store.ShowAllProducts` | src/services/sale.service.js:18 | the product lookup returns the store's product ids as they are |
| `InMemoryStore.Store.ShowAllSales` | src/services/sale.service.js:5 | the sales listing returns the store's whole sales table |
| `InMemoryStore.Store.ShowSalesById` | src/services/sale.service.js:10 | the read by id returns the sale's stored items, or none for an unknown id (the same read serves lines 33 and 49) |
| `InMemoryStore.Store.CreateNewSale` | src/services/sale.service.js:26 | persisting a new sale returns an id no stored sale had, stores the items under it and advances the counter; the products are untouched |
| `InMemoryStore.Store.UpdateSale` | src/services/sale.service.js:44 | persisting an update replaces the items of that one sale and nothing else |
| `InMemoryStore.Store.DeleteSale` | src/services/sale.service.js:51 | persisting a delete removes that id only; an unknown id changes nothing |
| `SaleService.FindUnknownProduct` | src/services/sale.service.js:19-25 | the flag the loop leaves is true exactly when some item's product id occurs nowhere in the known ids (the same loop serves lines 35-41) |
| `SaleService.Service.ShowAllSales` | src/services/sale.service.js:4-7 | never fails: `type` null with the store's whole sales table |
| `SaleService.Service.ShowSalesById` | src/services/sale.service.js:9-13 | `SALE_NOT_FOUND` / "Sale not found" exactly when the sale is missing or has no items; otherwise its stored items unchanged with `type` null |
| `SaleService.Service.CreateNewSale` | src/services/sale.service.js:15-28 | response and new store are those of `CreateNewSaleStep` on the old store; the store invariant is kept |
| `SaleService.Service.UpdateSale` | src/services/sale.service.js:30-46 | response and new store are those of `UpdateSaleStep` on the old store, including the rejection on lines 42-43 when an array is too short |
| `SaleService.Service.DeleteSale` | src/services/sale.service.js:48-53 | response and new store are those of `DeleteSaleStep` on the old store |
| `SaleProperties.ShowSalesByIdOutcome` | src/services/sale.service.js:9-13 | reading changes nothing; `SALE_NOT_FOUND` exactly for a missing or empty sale, otherwise the stored items |
| `SaleProperties.CreateNewSaleValidationFirst` | src/services/sale.service.js:16-17 | a validation error is returned verbatim, before any product lookup, and the store is unchanged |
| `SaleProperties.CreateNewSaleProductNotFound` | src/services/sale.service.js:18-25 | after validation, `PRODUCT_NOT_FOUND` exactly when some item's product id equals no product's id; then no sale is created |
| `SaleProperties.CreateNewSaleSuccess` | src/services/sale.service.js:26-27 | success exactly when validation passes and every product exists; then exactly one sale is added, under a fresh id, holding the submitted items, which are echoed as `{id, itemsSold}`; other sales and products unchanged; every failure leaves the store unchanged |
| `SaleProperties.UpdateSaleValidationThenSaleNotFound` | src/services/sale.service.js:31-34 | validation errors come first, verbatim; then `SALE_NOT_FOUND` exactly for a missing or empty sale; neither writes |
| `SaleProperties.KnownInSale` | src/services/sale.service.js:36-40 | the flag check over the sale's product ids agrees with "every body product id is that of some stored item of the sale" |
| `SaleProperties.UpdateSaleProductNotFound` | src/services/sale.service.js:35-41 | for a valid body and an existing sale, `PRODUCT_NOT_FOUND` exactly when some body product id appears in none of that sale's own items (the product table is not consulted); nothing is written |
| `SaleProperties.UpdateSaleRejected` | src/services/sale.service.js:42-43 | past all checks, the call throws exactly when the body or the stored sale has fewer than two items; nothing is written |
| `SaleProperties.UpdateSaleSuccess` | src/services/sale.service.js:30-45 | an update succeeds exactly when the body is valid, the body and the stored sale both have at least two items, and every body product id occurs in the sale; on success only the quantities at positions 0 and 1 of that sale change, to those of body[0] and body[1]; product ids, length, later items, other sales, products and counter stay; the result is `{saleId: id, itemsUpdated: body}`; every failure leaves the store unchanged |
| `SaleProperties.UpdateSaleScenario` | src/services/sale.service.js:30-45 | updating a sale holding products 1 and 2 with `[{1, 5}, {2, 3}]` succeeds, echoes the body and stores exactly those items |
| `SaleProperties.DeleteSaleOutcome` | src/services/sale.service.js:48-52 | `SALE_NOT_FOUND` exactly for a missing or empty sale, deleting nothing; otherwise that sale alone is removed and the message is empty |
| `SaleProperties.WithQuantitiesKeepsProductIds` | src/services/sale.service.js:42-43 | the positional overwrite leaves the product ids of the stored items as they were |
| `SaleProperties.ApplyPreservesInvariants` | src/services/sale.service.js:4-53 | any one service call keeps fresh ids fresh and every stored item naming a known product, never changes the products and never moves the id counter back |
| `SaleProperties.RunPreservesInvariants` | src/services/sale.service.js:4-53 | the same invariants hold after any sequence of service calls |
| `SaleProperties.CreateThenShow` | src/services/sale.service.js:9-27 | a sale created with at least one item reads back unchanged under the returned id |
| `SaleProperties.CreateEmptyThenShow` | src/services/sale.service.js:11-27 | a sale created with no items is stored but reads back as `SALE_NOT_FOUND`, and deleting it returns `SALE_NOT_FOUND` and changes nothing |
| `SaleProperties.DeleteThenShowAndDelete` | src/services/sale.service.js:9-52 | after a delete, the sale reads as not found and a second delete returns `SALE_NOT_FOUND` without changing anything |
| `SaleProperties.CreateThenDelete` | src/services/sale.service.js:15-52 | creating a sale with at least one item and then deleting it restores the sales table, while the id counter stays advanced |
| `SaleProperties.UpdateTwice` | src/services/sale.service.js:30-46 | repeating a successful update with the same body succeeds with the same result and leaves the same store |

## Left out

- The rules inside `schema.validateNewSale` (required fields, quantity of at least 1). Their module is not part of this model, so the validator is a parameter, and the `BAD_REQUEST` / `UNPROCESSABLE_ENTITY` outcomes appear only as errors it may return.
- `src/services/validations/schema.js`: two library schema declarations that the sale service does not use.
- Line items with a missing `productId` or `quantity`. `LineItem` always has both, because rejecting incomplete items is the validator's job.
- Products are their ids only. `productModel.showAllProducts` returns whole product rows, but the service compares only `id`.
- The SQL behind `saleModel` and `productModel`, `async`/`await`, and races between concurrent requests. One sequential in-memory store replaces them. The row shape of `saleModel.showAllSales` (sale ids, dates) is reduced to the map from sale id to items.
- `saleModel.updateSale` receives only the items in the source. The in-memory store's `UpdateSale` is also given the sale id, because the store's row layout is not part of this model.
- `Number(id)` coercion on line 45. Ids are integers throughout.
- The mutation of `saleById[0]` and `saleById[1]` is modelled as updates to a local sequence. The rows are a fresh copy returned by the store, so there is no aliasing to model.
- `Rejected`: the exception's message and how the HTTP layer reports it are not modelled.
- The controller layer, HTTP status codes and the controller tests.
