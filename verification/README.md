# Rug-shop ERP ledger — a Dafny model

This project models the ledger state machine of a small ERP for a rug
retailer. It covers stock movements, customer and supplier balances, sales,
purchase orders and payments, together with the pure client-side rules the
web forms apply before they call the backend.

The ledger (`Ledger.State`) holds:
- products with signed integer stock and a list price;
- customers and suppliers with balances; each supplier also has the list of products linked to it;
- purchase orders with their lines;
- sales;
- the payment journal.

Each backend workflow is a pure function from a state to a `Txn`, which pairs
the new state with either the value returned or the error thrown. A workflow
that throws hands back the state it was given (`Ledger.RolledBackOnError`).
That is how the model expresses the rolled-back database transaction.

Modules:
- `Sales` — the sales service. `CreateSale` serves each line from stock, snapshots the line, totals the sale and debits the customer. `UpdateSaleStatus` sets a sale's status.
- `Purchases` — the purchases service. `CreatePurchase` prices each line at the given unit price or at 70 % of list price, and credits the supplier whose name equals the factory name. `ReceivePurchase` adds stock, guarded against a second receipt. `UpdatePurchaseStatus` moves stock only when crossing into or out of Received.
- `PurchaseEdit` — the purchase edit (`update`). It edits lines by id and replaces the total by the sum of the edited lines.
- `Finance` — `AddPayment` with its sign table and party resolution, and `GetStats`, the sums of all balances.
- `SupplierCatalog` — linking and unlinking products to a supplier.
- `Cleanup` — the customer clean-up script. It purges customers without a name, then removes every customer whose normalised name a lower id already carries.
- `SaleCart`, `PurchaseEditor`, `CustomerForm`, `Inventory` — the new-sale cart, the new-purchase line editor, the new-customer formatters and validator, and the inventory page's status, size label, choice lists and filter.
- `LedgerTotals` — how the workflows move the two dashboard totals, and worked purchase examples.
- `Wrappers`, `Seqs`, `Keys` — `Option`/`Result`, an order-preserving `Filter` with its lemmas, and sums over integer-keyed tables.

Modelling choices:
- Money is an exact `real`, with no decimal(10,2) rounding.
- A nullable product id on a purchase line is 0, because the services test it for truthiness and ids start at 1.
- Fresh sale and purchase ids are parameters required to be unused.
- New purchase lines are numbered from a serial (`State.nextItemId`).
- Several things the code delegates to the runtime are function parameters:
  - name normalisation (`trim().toLowerCase()`);
  - search lower-casing;
  - the e-mail pattern test.
- When several suppliers share the factory name, the one with the least id is credited. The database query leaves that choice unspecified.

## Model

| member | source | states |
|---|---|---|
| Sales.CreateSale | backend/src/sales/sales.service.ts:18-92 | A sale succeeds exactly when (a) every line, taken in order, names an existing product and asks for no more than the stock left after the earlier lines, and (b) the customer id names an existing customer, which the sale row must reference when it is saved. A failure returns the unchanged ledger. It reports the first failing line (an unknown product, or requested against available) or, when every line fits, the unknown customer. On success: the status defaults to Preparing; each product loses what the lines ask of it; each line copies the product's name and price, with total = price × quantity; the sale total is the sum of the line totals and the request's value at current prices; a non-zero customer is debited by the total and no one else is; nothing else in the ledger changes. |
| Sales.DeductSucceedsIffFeasible | backend/src/sales/sales.service.ts:38-51 | The stock loop finishes exactly when every line fits the stock left by earlier lines. |
| Sales.ShiftLine | backend/src/sales/sales.service.ts:45-51 | Once the first line has been deducted, each later line sees the stock that earlier lines left. |
| Sales.DeductFailure | backend/src/sales/sales.service.ts:39-47 | A refused loop reports the error of its first unservable line, and all earlier lines fit. |
| Sales.DeductStock | backend/src/sales/sales.service.ts:49-51 | A served request takes from every product the total quantity its lines ask of it; other products are unchanged. |
| Sales.DeductItems | backend/src/sales/sales.service.ts:54-62 | Each line is snapshotted: product, its name and price, the quantity, and total = unit price × quantity. The running total is the sum of the line totals. |
| Sales.SnapshotsValue | backend/src/sales/sales.service.ts:58-65 | The sum of the snapshotted line totals is the request's value at the products' current prices. |
| Sales.UpdateSaleStatus | backend/src/sales/sales.service.ts:116-121 | An unknown sale is an error that changes nothing. Otherwise the status is set to any value, and nothing but that sale's status changes. |
| Sales.SellWholeStock | backend/src/sales/sales.service.ts:45-50 | Asking for exactly the stock on hand, for an existing customer, is accepted and leaves the stock at 0. |
| Sales.SaleScenario | backend/src/sales/sales.service.ts:45-81 | Selling 10 of 50 rugs at 3500 leaves 40, totals 35000 and debits the customer 35000. Asking for 1000 afterwards is refused with requested 1000 / available 40, and the stock stays 40. |
| Purchases.CreatePurchase | backend/src/purchases/purchases.service.ts:20-76 | An order succeeds exactly when every line names a known product; otherwise the first unknown product is reported and nothing changes. On success the order is in status Ordered under the factory name. Each line gets a fresh id, the product's SKU, the quantity, the given unit price or 70 % of list price, and total = unit price × quantity. The order total is the sum of the line totals. The supplier named like the factory, if any, is owed the total more; nothing else changes. |
| Purchases.BuildItemsSucceeds | backend/src/purchases/purchases.service.ts:33-41 | Building the lines succeeds if and only if every line names an existing product. |
| Purchases.BuildItemsFailure | backend/src/purchases/purchases.service.ts:35-41 | A refused order names its first unknown product, and all earlier lines are known. |
| Purchases.BuildItemsSuccess | backend/src/purchases/purchases.service.ts:43-59 | Every built line copies its request line and is priced at unit price × quantity; the built total is the sum of the line totals. |
| Purchases.BuildItemsCost | backend/src/purchases/purchases.service.ts:51-63 | The built total equals the request's cost at the given or estimated unit prices. |
| Purchases.SupplierNamed | backend/src/purchases/purchases.service.ts:69-70 | Returns a supplier carrying exactly the factory name when one exists (the least such id), and none otherwise. |
| Purchases.RestockSpec | backend/src/purchases/purchases.service.ts:97-105 | Walking an order's lines moves each product's stock by the quantity of the lines naming it. Lines without a product, or whose product is gone, are skipped. |
| Purchases.ReceivePurchase | backend/src/purchases/purchases.service.ts:83-119 | Receiving an unknown order, or one already Received, is an error that leaves the ledger unchanged. Otherwise the order becomes Received and each product gains its lines' quantities. Nothing else changes. |
| Purchases.UpdatePurchaseStatus | backend/src/purchases/purchases.service.ts:121-172 | An unknown order is an error. Leaving Received takes the lines back out of stock; entering Received adds them; any other change leaves stock alone. The status always becomes the new value. |
| Purchases.ReceiveIsStatusUpdate | backend/src/purchases/purchases.service.ts:149-161 | For an order not yet received, receiving it is the same transition as setting its status to Received. |
| Purchases.ReceiveTwice | backend/src/purchases/purchases.service.ts:94-95 | After a successful receipt a second receipt is refused as already received and changes nothing, so stock is added once. |
| Purchases.ReceiveThenRevert | backend/src/purchases/purchases.service.ts:137-161 | Setting an order to Received and then to any other status restores every product's stock. Only the order's status differs from the start. |
| Purchases.ReceiveRevertReceive | backend/src/purchases/purchases.service.ts:137-161 | Receive, revert and receive again gives the same ledger as one receipt. |
| Purchases.ReversalCanGoNegative | backend/src/purchases/purchases.service.ts:138-146 | A reversal has no lower bound. Taking back 10 received rugs when 3 remain leaves stock −7. |
| Purchases.StockRevertScenario | backend/test-stock-revert.js:5-49 | Ordering 10 of product 1 costs 24500 at the estimated price. Marking the order received adds 10; moving it back to "on the way" removes them again. |
| PurchaseEdit.FindLine | backend/dist/purchases/purchases.service.js:88 | Finds the first line with the given id, or reports that no line carries it. |
| PurchaseEdit.ApplyEditsFrame | backend/dist/purchases/purchases.service.js:87-96 | Edits keep every line's id, product and SKU in place, and leave a line no edit names unchanged. A changed line is priced at unit price × quantity. |
| PurchaseEdit.ApplyEditsUntouched | backend/dist/purchases/purchases.service.js:88-89 | A line whose id no edit names keeps all its fields. |
| PurchaseEdit.ApplyEditsPriced | backend/dist/purchases/purchases.service.js:92 | Every line an edit changed has total = unit price × quantity. |
| PurchaseEdit.ApplyEditsDistinct | backend/dist/purchases/purchases.service.js:87-97 | With unique line ids and one edit per id: each named line takes the edit's quantity and unit price, keeping the old one where the edit omits it. The new total is the sum of the named lines' new totals. |
| PurchaseEdit.EditPurchase | backend/dist/purchases/purchases.service.js:74-113 | Editing an unknown order is an error that changes nothing. Otherwise only that order changes. Its status stays; the factory name is replaced only by a non-empty value; line identities stay. Without line edits, the lines and the total stay. With line edits, unnamed lines stay and changed lines are repriced. No stock or balance moves. |
| PurchaseEdit.EditTotalIsMatchedLines | backend/dist/purchases/purchases.service.js:85-98 | With unique line ids and at most one edit per line id, the order total becomes the sum of the named lines' totals only. Each named line has the edit's quantity and price, or its old ones. |
| PurchaseEdit.RepeatedEditCountsTwice | backend/dist/purchases/purchases.service.js:87-97 | Two edits naming the same line each add that line's new total. One line edited to 2 × 10 and then to 3 × 10 gives an order total of 50, while the line itself totals 30. |
| Finance.AddPayment | backend/src/finance/finance.service.ts:33-92 | A payment to an unknown customer or supplier is an error that changes nothing. A customer's balance rises by the amount for income and falls for anything else. A supplier's balance falls for an expense and rises for anything else. The journal row copies the request and the party's name. Any other party type only appends the row. No other balance changes. |
| Finance.PaymentThenOpposite | backend/src/finance/finance.service.ts:58-78 | A payment followed by one of the opposite type, same amount and same party, restores every balance and leaves two journal rows. |
| Finance.PaymentMovesStats | backend/src/finance/finance.service.ts:17-31 | Total receivables and total payables are the sums of all customer and all supplier balances. A payment moves exactly one of them, by the party's balance change. |
| Keys.SumOverUpdate | backend/src/finance/finance.service.ts:22-25 | Replacing one row changes the sum of balances by exactly that row's change, whatever order the rows are summed in. |
| SupplierCatalog.AddProductToSupplier | backend/src/suppliers/suppliers.service.ts:37-46 | When both the supplier and the product exist, the returned supplier lists the product once more than before. The product is then stored as linked; a product already linked is not stored twice, and then the ledger is unchanged. Only that supplier's links change. Otherwise the result is null and nothing changes. |
| SupplierCatalog.RemoveProductFromSupplier | backend/src/suppliers/suppliers.service.ts:48-56 | A missing supplier gives null and changes nothing. Otherwise every entry for the product is removed, and the others keep their counts and order. |
| SupplierCatalog.AddTwiceStoresOnce | backend/src/suppliers/supplier.entity.ts:26-32 | Linking a product twice stores the same as linking it once. Only the second call's returned supplier lists it an extra time. |
| SupplierCatalog.AddKeepsNoRepeats | backend/src/suppliers/supplier.entity.ts:26-32 | Linking keeps a supplier's stored links free of repeats, as the (supplier, product) join table keeps them. |
| SupplierCatalog.RemoveIdempotent | backend/src/suppliers/suppliers.service.ts:50-55 | Unlinking twice gives the same result as unlinking once. |
| SupplierCatalog.RemoveUndoesAdd | backend/src/suppliers/suppliers.service.ts:41-53 | Unlinking a product just linked into a catalog that lacked it restores the ledger. |
| Cleanup.Cleanup | backend/src/cleanup.ts:23-53 | The first pass removes exactly the customers whose name is null or empty. The second pass marks only named customers, in ascending id order, exactly as the dedupe loop does over the id-sorted survivors. |
| Cleanup.SortById | backend/src/cleanup.ts:40 | Sorting by id yields the same rows in strictly ascending id order. |
| Cleanup.Insert | backend/src/cleanup.ts:40 | Inserting a row with a new id into an ascending run keeps it ascending and adds exactly that row. |
| Cleanup.FindDuplicates | backend/src/cleanup.ts:36-48 | The loop marks the i-th row exactly when it is named and its normalised name was seen among earlier named rows. |
| Cleanup.MarkedSpec | backend/src/cleanup.ts:42-48 | Marked rows are exactly the named rows whose normalised name an earlier named row carries. They ascend when the input does, and none lies beyond the rows examined. |
| Cleanup.MarkedIffEarlierSameName | backend/src/cleanup.ts:42-48 | A customer is deleted as a duplicate if and only if it is named and a lower position carries the same normalised name. |
| Cleanup.SurvivorsDistinct | backend/src/cleanup.ts:42-48 | Named customers that survive carry pairwise different normalised names. |
| Cleanup.FilterDistinct | backend/src/cleanup.ts:24-35 | Removing customers keeps ids unique. |
| SaleCart.FindEntry | frontend/src/components/NewSaleForm.tsx:43 | Finds the first cart entry for a product, or reports there is none. |
| SaleCart.Bump | frontend/src/components/NewSaleForm.tsx:50 | Entries for the product gain one unit; the other entries are unchanged. |
| SaleCart.AddToCart | frontend/src/components/NewSaleForm.tsx:36-54 | Without stock the cart is unchanged. A new product is appended with quantity 1 and its current price. An existing entry grows by one unless that would exceed the stock, in which case the cart is unchanged. |
| SaleCart.RemoveFromCart | frontend/src/components/NewSaleForm.tsx:56-58 | Removes the product's entries and keeps the others, with their counts, in order. |
| SaleCart.AddToCartTotal | frontend/src/components/NewSaleForm.tsx:32-54 | The cart total, Σ price × quantity, rises by the unit price exactly when an add changes the cart. |
| SaleCart.RemoveFromCartTotal | frontend/src/components/NewSaleForm.tsx:32-58 | Removing a product lowers the total by its entry's price × quantity, or by 0 when it is absent. |
| SaleCart.AddPreservesInv | frontend/src/components/NewSaleForm.tsx:42-53 | Adding keeps one entry per product, each holding between 1 and the product's stock. |
| SaleCart.RemovePreservesInv | frontend/src/components/NewSaleForm.tsx:56-58 | Removing keeps that invariant. |
| SaleCart.SingleEntry | frontend/src/components/NewSaleForm.tsx:32-34 | With one entry per product, a product's share of the total is its entry's price × quantity. |
| SaleCart.CartLines | frontend/src/components/NewSaleForm.tsx:81-84 | The payload lines carry each entry's product and quantity, in cart order. |
| SaleCart.Checkout | frontend/src/components/NewSaleForm.tsx:76-88 | Nothing is sent without a (non-zero) customer or with an empty cart. Otherwise the request carries the customer and the cart's lines. |
| SaleCart.CheckoutSucceeds | frontend/src/components/NewSaleForm.tsx:76-88 | A valid cart for an existing customer, checked out against a backend with the cart's prices and at least the stock the form saw, creates a sale whose total is the cart total. |
| SaleCart.CartFeasible | frontend/src/components/NewSaleForm.tsx:42-53 | Every line of such a cart fits the backend's stock. |
| PurchaseEditor.AddRow | frontend/src/components/NewPurchaseForm.tsx:46-48 | Appends the blank row: no product, quantity 1, unit price 0. |
| PurchaseEditor.RemoveRow | frontend/src/components/NewPurchaseForm.tsx:50-52 | Removes exactly the row at the index and keeps the rest in order; an index outside the rows removes nothing. |
| PurchaseEditor.FindById | frontend/src/components/NewPurchaseForm.tsx:57 | Finds the first element with the given id, as `find` does for the product lookup and the supplier lookup; none exactly when no element has that id. |
| PurchaseEditor.ChangeRow | frontend/src/components/NewPurchaseForm.tsx:54-67 | Choosing a product sets it and prices the row at 70 % of its list price, or 0 when it is not offered. Other field changes set only that field. Other rows are unchanged. |
| PurchaseEditor.AddRowTotal | frontend/src/components/NewPurchaseForm.tsx:46-71 | A blank row leaves the total, Σ quantity × unit price, unchanged. |
| PurchaseEditor.RemoveRowTotal | frontend/src/components/NewPurchaseForm.tsx:50-71 | Removing a row lowers the total by exactly that row's value. |
| PurchaseEditor.ChangeRowTotal | frontend/src/components/NewPurchaseForm.tsx:54-71 | Editing a row changes the total by the difference of that row's values. |
| PurchaseEditor.FactoryName | frontend/src/components/NewPurchaseForm.tsx:78-81 | The first supplier with the selected id, when it has a non-empty name, gives that name. Otherwise (no such supplier, or an empty name) the result is "Bilinmiyor". |
| PurchaseEditor.Submit | frontend/src/components/NewPurchaseForm.tsx:73-88 | Nothing is sent when no row has a product and a positive quantity. Otherwise the request carries the factory name and exactly those rows' lines, each with its unit price. |
| PurchaseEditor.SubmitLines | frontend/src/components/NewPurchaseForm.tsx:74-86 | The request carries one line per orderable row and every orderable row is among them. The j-th line carries the j-th orderable row's product, quantity and unit price. The rows keep their original order. |
| PurchaseEditor.TotalSplit | frontend/src/components/NewPurchaseForm.tsx:69-74 | The form total is the total of the rows sent plus the total of the rows dropped. |
| PurchaseEditor.SubmittedTotal | frontend/src/components/NewPurchaseForm.tsx:69-88 | When every chosen product exists, the submitted order is created under the factory name. Its total is the form total less the dropped rows. |
| PurchaseEditor.SubmitCreditsSelected | frontend/src/components/NewPurchaseForm.tsx:78-88 | When the form lists the ledger's suppliers under their own names and names are unique, submitting for a selected supplier with a name creates an order under that name. Exactly that supplier is owed the order total more. |
| CustomerForm.OnlyLetters | frontend/src/components/NewCustomerForm.tsx:8 | Every ASCII letter, listed Turkish letter and whitespace character survives as often as it occurs in the input; every other character is removed. The survivors keep their order. |
| CustomerForm.OnlyNumbers | frontend/src/components/NewCustomerForm.tsx:9 | Every digit 0-9 survives as often as it occurs in the input; every other character is removed. The digits keep their order. |
| CustomerForm.EmailFormat | frontend/src/components/NewCustomerForm.tsx:16 | Every letter, digit and `@._-` survives as often as it occurs in the input; every other character is removed. The survivors keep their order. |
| CustomerForm.FiltersIdempotent | frontend/src/components/NewCustomerForm.tsx:8-16 | The letter, digit and e-mail filters are idempotent. |
| CustomerForm.PhoneFormat | frontend/src/components/NewCustomerForm.tsx:10-15 | A formatted phone number holds only digits and spaces. Its length is the number of digits kept (at most 11) plus one space after 4 digits and another after 7. A space sits exactly at position 4 when more than four digits were typed, and at position 8 when more than seven were. |
| CustomerForm.PhoneDigits | frontend/src/components/NewCustomerForm.tsx:10-15 | With its spaces removed, a formatted number is the first eleven digits typed (all of them when fewer). |
| CustomerForm.PhoneFormatIdempotent | frontend/src/components/NewCustomerForm.tsx:10-15 | Formatting a formatted number changes nothing. |
| CustomerForm.Prefix | frontend/src/components/NewCustomerForm.tsx:107-120 | A slice from 0 to n is the first min(n, length) characters. |
| CustomerForm.HandleChange | frontend/src/components/NewCustomerForm.tsx:97-130 | A keystroke stores the field's formatted value and leaves the other fields. A non-empty error on that field is blanked; other errors stay. |
| CustomerForm.FormatCaps | frontend/src/components/NewCustomerForm.tsx:102-121 | Letter fields hold at most 100 characters, phone 14, e-mail 100, TC and tax number 11, address 500. The phone cap never cuts a formatted number. |
| CustomerForm.FormatIdempotent | frontend/src/components/NewCustomerForm.tsx:102-121 | Re-entering a stored value stores it unchanged. |
| CustomerForm.Validate | frontend/src/components/NewCustomerForm.tsx:49-81 | The form passes exactly when no error is set. Name fails below 2 or above 100 characters, with the too-long message winning. Phone fails when non-empty with fewer than 10 non-space characters. E-mail fails when non-empty and rejected by the pattern. An individual's non-empty TC number must have 11 characters; a corporate's non-empty tax number must have 10-11. |
| CustomerForm.PhoneValidity | frontend/src/components/NewCustomerForm.tsx:59-61 | After typing into the phone field, the phone is rejected exactly when some, but fewer than ten, digits were typed. |
| CustomerForm.TcValidity | frontend/src/components/NewCustomerForm.tsx:67-71 | After typing into the TC number field, an individual's form is rejected exactly when some, but fewer than eleven, digits were typed. A corporate form never checks it. |
| CustomerForm.InitialFormRejected | frontend/src/components/NewCustomerForm.tsx:20-31 | The freshly opened form is rejected for its empty name only. |
| Inventory.Status | frontend/src/pages/Inventory.tsx:96 | Out of stock exactly at 0. Otherwise critical exactly at or below the critical level. Otherwise in stock. |
| Inventory.BadgeMatchesStatus | frontend/src/pages/Inventory.tsx:21-44 | The badge agrees with the status, and zero stock shows as exhausted whatever the status. |
| Inventory.IntToStringRoundTrip | frontend/src/pages/Inventory.tsx:91 | A printed dimension reads back as the same number, sign included. |
| Inventory.SizeLabel | frontend/src/pages/Inventory.tsx:91 | `WxH cm` when both dimensions are truthy. Otherwise the size text when non-empty. Otherwise `-`. |
| Inventory.ToItem | frontend/src/pages/Inventory.tsx:84-98 | A table row copies the product's id, name, SKU, stock and critical level. Its brand is the product's non-empty brand, else "Bilinmiyor". Its size is the product's size label, and its status is the product's stock status. |
| Inventory.Dedupe | frontend/src/pages/Inventory.tsx:101-102 | Each value appears once, and exactly the input's values appear. |
| Inventory.BrandOptionsSpec | frontend/src/pages/Inventory.tsx:101 | The brand choices start with "Tüm Markalar" and offer exactly the listed non-empty brands. They repeat nothing unless a brand is spelled like the sentinel. |
| Inventory.ProductBrandsOffered | frontend/src/pages/Inventory.tsx:88-101 | Over the products themselves: the brand list offers a brand exactly when some product carries it, and offers "Bilinmiyor" when some product has no brand. |
| Inventory.SizeOptionsSpec | frontend/src/pages/Inventory.tsx:102 | The size choices start with "Tüm Ebatlar", never offer `-`, and offer exactly the other listed sizes. They repeat nothing unless a size is spelled like the sentinel. |
| Inventory.FilteredItems | frontend/src/pages/Inventory.tsx:104-113 | The rows shown are exactly those that match, in their original order. A match needs the search in the name, SKU or brand ignoring case, and the chosen brand and size or their sentinels. |
| Inventory.SentinelsShowAll | frontend/src/pages/Inventory.tsx:104-113 | An empty search with both sentinels shows every row. |
| Inventory.BrandChoiceSelects | frontend/src/pages/Inventory.tsx:109 | Choosing a brand shows only that brand's rows and hides none that the other criteria allow. |
| LedgerTotals.SaleMovesStats | backend/src/sales/sales.service.ts:72-81 | A sale lowers total receivables by its amount when its customer resolves, and never touches total payables. |
| LedgerTotals.PurchaseMovesStats | backend/src/purchases/purchases.service.ts:67-73 | A purchase raises total payables by its amount when a supplier carries the factory name, and never touches receivables. |
| LedgerTotals.StockAndEditsKeepStats | backend/dist/purchases/purchases.service.js:74-113 | Receiving, changing status and editing an order leave both totals alone. An edit that changes the order total does not re-credit the supplier. |
| LedgerTotals.EstimatedPriceScenario | backend/test-purchase.js:4-9 | Ten rugs ordered without a price from a registered factory cost 2450 each and 24500 in total. The supplier is owed 24500 more, receiving adds the ten rugs, and a second receipt is refused. |
| LedgerTotals.ManualPriceScenario | backend/test-purchase-manual-price.js:6-44 | Ten rugs at a given unit price of 100 total 1000. A factory that is no registered supplier credits nobody. |
| Seqs.FilterMembers | frontend/src/components/NewSaleForm.tsx:57 | Filtering keeps exactly the elements that pass, and never lengthens the sequence. |
| Seqs.FilterIdempotent | backend/src/suppliers/suppliers.service.ts:52 | Filtering twice by the same test is filtering once. |

## Left out

- Persistence plumbing is not modelled: repositories, query runners, and commit, rollback and release. A failed workflow simply returns the state it was given. The purchase creation is not wrapped in a transaction, but it throws before saving anything, so the same holds there.
- The HTTP boundary is not modelled: controllers and DTO validation. The services do not re-check DTO constraints such as a positive quantity, so the model accepts any integer quantity.
- Concurrency is not modelled: requests racing on the same product's stock are a matter of database isolation.
- Floating point and database rounding are not modelled. Money is an exact real, so `0.7 × price` and decimal(10,2) columns are not rounded, and `Number()` conversions of decimal strings are taken as exact.
- Sales.CreateSale: the sale is stored under a caller-supplied unused id rather than a generated UUID, and without a date.
- Sales.CreateSale: an unknown customer id makes the database reject the sale row at its save. The model reports that as `CustomerNotFound`; the service passes on the database's own error.
- SupplierCatalog: the order in which a supplier's linked products are listed is the order they were linked, whereas the join table returns them in no promised order.
- Purchases.SupplierNamed: when several suppliers share the factory name, the database picks an unspecified one; the model credits the least id.
- Purchases.CreatePurchase: does not model the save of the order row before the supplier lookup. Both happen outside a transaction, so a crash between them is not modelled.
- PurchaseEdit.EditPurchase: the edit does not re-credit the supplier when the order total changes. The model states this as the code does it.
- PurchaseEdit.EditTotalIsMatchedLines: the total is stated for one edit per line id, which is what the edit form sends. A repeated id adds that line's total once per edit (`RepeatedEditCountsTwice` shows it); the general total is not stated.
- The compiled finance service is stale: it uses the opposite customer sign. The model follows the TypeScript source `backend/src/finance/finance.service.ts`.
- The compiled clean-up script never initialises its set of seen names. The model follows `backend/src/cleanup.ts`. Only the purchase edit comes from the compiled service, because it exists only there.
- Cleanup: name normalisation (`trim().toLowerCase()`, locale-dependent on Turkish text) is an abstract function. Printing, connecting and the actual deletes are left out.
- Inventory.Dedupe: the contract does not state that values keep the order of their first occurrence, only that each appears once and no value is lost or added.
- CustomerForm.Validate: the e-mail regular expression is an abstract predicate.
- CustomerForm: lengths are counted in characters, whereas JavaScript counts UTF-16 code units. The two differ only for characters outside the Basic Multilingual Plane, which no formatter except the address cap keeps.
- CustomerForm: submitting the customer is not modelled; the payload is the form plus the kind.
- PurchaseEditor.ChangeRow: the form indexes a row that exists. The model requires a valid index rather than modelling writing past the end of a JavaScript array.
- PurchaseEditor: `Number(value)` parsing of typed text is left out; the changes carry numbers.
- Inventory.SizeLabel: the product table has no width or height columns, so in practice the label is always the size text or `-`. The model keeps the dimension branch as written.
- Inventory: price formatting with `toLocaleString`, images and the badge's styling are left out. Search lower-casing is an abstract function.
- The dashboard services, the deletion scripts, the services' `remove` methods and the seed data are left out. They are clock- or SQL-driven reporting and side effects.
- React rendering, toasts, dialogs and loading states are left out.
