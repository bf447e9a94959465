# Gestão Sergio Imports PDV — checkout and inventory core in Dafny

This project models the checkout and inventory logic of the point-of-sale front end:

- **App state reducer** (`appReducer`). Each action replaces one field of the app state. The cart is a list of lines keyed by product id.
- **Sale screen (PDV).** It covers:
  - the subtotal, discount and total arithmetic;
  - the stock-ceiling guard on quantity changes;
  - building the sale record from the cart;
  - the discount and dialog state.
- **Payment dialog.** It builds the payment record, with installments, cash change and the client id, and applies the rule that blocks a short cash payment.
- **Sale commit** (`processSale`). It:
  - snapshots the client;
  - stores the sale under a fresh id;
  - lowers the stock of every product still in the store, item by item;
  - clears the cart and publishes the last completed sale.

  A storage failure may happen at any write. Earlier writes are then kept, and the app state is left alone.
- **Exchange lifecycle.** This covers the registration form, the new 'Pendente' record, and the status update that rewrites only `status`.
- **Smaller screens:**
  - the barcode normaliser of the label sheet, which produces the 12 data digits of an EAN-13 symbol (ISO/IEC 15420);
  - the dashboard and sales-report figures, including their in-place sorts;
  - the search filters of the product, client and selector screens.

The IndexedDB store is modelled as `Store.Table`, a keyed map with a next-key counter:
- `Add` stores a record under a fresh key;
- `Put` inserts or replaces;
- `Get` may find nothing.

Code that is pure in the source is written as functions with lemmas: the reducer, the totals, the payment record, the filters and the label digits. Code that changes things step by step is written as imperative Dafny:
- `App.AppProvider` is a class holding the reducer state and the store. `ProcessSale`'s stock loop is a `while` loop proved against `App.ApplyStock`.
- The screens are classes whose fields are their React state.
- The dashboard, sales and exchange sorts reorder an `array` in place with `Sorting.SortDescending`, a descending insertion sort.

The model covers these kinds of values:
- **Money** is `real`.
- **Quantities and stock** are `int`. Stock is allowed to go negative, as in the code.
- **Dates** are integer timestamps.
- **Strings** are `seq<char>`. Lower-casing is ASCII only.

Two behaviours of the code are kept as written:
- **Negative stock.** The sale commit lowers stock with no lower-bound check (`src/contexts/AppContext.jsx:257`), so selling more than is in stock leaves a negative stock (`App.StockCanGoNegative`).
- **Discount range.** The 0..100 discount range is only an attribute of the input (`src/components/PDV/PDV.jsx:228-232`). The code turns a non-numeric input into 0 and keeps any other number, negative or above 100 (`Pricing.NumberOrZero`, `Pdv.PdvScreen.SetDiscountInput`).

## Model

| member | source | states |
|---|---|---|
| Store.Table.Get | src/services/database.js:76-79 | `get` finds a record exactly when the key is stored, and returns that record |
| Store.Table.Put | src/services/database.js:70-73 | `put` inserts or replaces the record under its key; replacing an existing key leaves the next fresh key alone |
| Store.Table.Add | src/services/database.js:64-67 | `add` stores the record under a key not yet used, keeps the table well formed and advances the fresh key |
| Store.PutGet | src/services/database.js:70-79 | reading back a key just put gives the new record; every other key reads as before |
| Store.PutValid | src/services/database.js:70-73 | putting under a positive key keeps the table well formed |
| Cart.FindLine | src/contexts/AppContext.jsx:38 | `cart.find` by id finds a line exactly when some line has that id, and the line found is the first line with that id |
| Cart.Reduce | src/contexts/AppContext.jsx:21-70 | `appReducer`: one case per action type; what each case may change is stated by `Cart.ReduceChangesOnlyItsField`, and that it keeps cart ids distinct by `Cart.ReduceKeepsDistinctIds` |
| Cart.RemoveLines | src/contexts/AppContext.jsx:50-51 | REMOVE_FROM_CART's `filter`; its effect is stated by `Cart.RemoveLinesSpec` and `Cart.RemoveLinesDistinct` |
| Cart.ReduceChangesOnlyItsField | src/contexts/AppContext.jsx:21-70 | every action changes only its own state field; an unknown action returns the state unchanged; CLEAR_CART empties the cart |
| Cart.AddLine | src/contexts/AppContext.jsx:37-49 | a payload whose id is new is appended at the end; for an id already present every line keeps its place, the lines with that id gain the payload quantity, and all other lines are unchanged |
| Cart.MergeAbsent | src/contexts/AppContext.jsx:42-46 | the merge step changes nothing when no line has the payload's id |
| Cart.AddLineIds | src/contexts/AppContext.jsx:37-49 | ADD_TO_CART keeps the id order; a new id is appended at the end |
| Cart.AddLineDistinct | src/contexts/AppContext.jsx:37-49 | ADD_TO_CART keeps cart ids pairwise distinct |
| Cart.AddLineMergeKeepsSnapshot | src/contexts/AppContext.jsx:43-44 | on a merge the existing line keeps its name, price and stock ceiling; only its quantity rises, by the payload quantity |
| Cart.AddLineQuantity | src/contexts/AppContext.jsx:37-49 | ADD_TO_CART raises the quantity held under the payload's id by the payload quantity and changes no other id's quantity |
| Cart.MergeQuantity | src/contexts/AppContext.jsx:42-46 | the merge raises exactly the matching line's quantity by the payload quantity |
| Cart.QuantityOfAppend | src/contexts/AppContext.jsx:49 | the quantity held under an id is additive over concatenated carts |
| Cart.AddTwice | src/contexts/AppContext.jsx:37-49 | adding the same product twice gives one line whose quantity is the sum of both payloads |
| Cart.RemoveLinesSpec | src/contexts/AppContext.jsx:50-51 | REMOVE_FROM_CART drops exactly the lines with that id and keeps the rest, in order |
| Cart.RemoveLinesDistinct | src/contexts/AppContext.jsx:50-51 | REMOVE_FROM_CART keeps cart ids distinct |
| Cart.MergeLine | src/contexts/AppContext.jsx:42-46 | the merge `map` keeps the length; each line with the payload's id gains the payload quantity and keeps its other fields; every other line is unchanged |
| Cart.UpdateLine | src/contexts/AppContext.jsx:52-58 | UPDATE_CART_ITEM keeps the length; each line with the id takes the new quantity and keeps its other fields; every other line is unchanged |
| Cart.UpdateLineIds | src/contexts/AppContext.jsx:52-58 | UPDATE_CART_ITEM keeps every line's id, in order, so distinct ids stay distinct |
| Cart.UpdateLineQuantity | src/contexts/AppContext.jsx:52-58 | UPDATE_CART_ITEM sets the matching line's quantity exactly and leaves every other id's quantity alone |
| Cart.UpdateLineOther | src/contexts/AppContext.jsx:55-57 | lines with another id are left exactly as they were; the matched line keeps its id, name, price and stock ceiling and takes the new quantity; other ids' quantities are unchanged |
| Cart.QuantityOfAbsent | src/contexts/AppContext.jsx:55-57 | an id with no line holds quantity 0 |
| Cart.ReduceKeepsDistinctIds | src/contexts/AppContext.jsx:21-70 | every action except SET_CART (which installs its payload as given) keeps cart ids distinct |
| Cart.Ids | src/contexts/AppContext.jsx:38 | the id column of the cart, index by index |
| Pricing.Subtotal | src/components/PDV/PDV.jsx:19 | the `reduce` of price × quantity over the cart; related to the sale items by `Pricing.SubtotalIsSumOfLineTotals`, stepped by `Pricing.SubtotalAppend`, bounded by `Pricing.SubtotalNonNegative` |
| Pricing.DiscountAmount | src/components/PDV/PDV.jsx:20 | subtotal × percentage / 100; bounded by `Pricing.DiscountWithinRange` |
| Pricing.Total | src/components/PDV/PDV.jsx:21 | subtotal − discount amount; its closed form and bounds are in `Pricing.DiscountWithinRange` |
| Pricing.NumberOrZero | src/components/PDV/PDV.jsx:232 | `Number(value) \|\| 0`: a non-numeric input becomes 0, a number is kept as typed (no 0..100 bound) |
| Pricing.SaleItems | src/components/PDV/PDV.jsx:63-69 | one sale item per cart line, in cart order, with product id, name, quantity, price and total = price × quantity |
| Pricing.ClientIdOrNull | src/components/PDV/PDV.jsx:75 | `clientId \|\| null`: the client id is recorded exactly when it is truthy (present and not 0) |
| Pricing.BuildSale | src/components/PDV/PDV.jsx:59-76 | the sale record has the given date, the cart's items, the screen's subtotal (= Σ item totals), the screen's discount amount subtotal × percentage / 100 and its total = subtotal − discount amount, the payment method, details and client id |
| Pricing.SubtotalIsSumOfLineTotals | src/components/PDV/PDV.jsx:19 | the screen's subtotal Σ price × quantity equals the sum of the sale items' totals |
| Pricing.SubtotalAppend | src/components/PDV/PDV.jsx:19 | the subtotal of a cart with one more line grows by that line's total |
| Pricing.SubtotalNonNegative | src/components/PDV/PDV.jsx:19 | with non-negative prices and quantities the subtotal is non-negative |
| Pricing.DiscountWithinRange | src/components/PDV/PDV.jsx:20-21 | for a percentage in 0..100 the discount amount and the total lie between 0 and the subtotal, and total = subtotal × (100 − discount) / 100 |
| Pricing.WorkedExample | src/components/PDV/PDV.jsx:19-21 | two units at 100 with 10 % off give subtotal 200, discount 20, total 180 |
| Pdv.FilteredProducts | src/components/PDV/PDV.jsx:87-90 | the sale screen's `filter`; stated by `Pdv.FilteredProductsSpec` |
| Pdv.FilteredProductsSpec | src/components/PDV/PDV.jsx:87-90 | a product is listed iff its lower-cased name contains the lower-cased term or its barcode contains the term; the listing keeps catalogue order |
| Pdv.CartLineFor | src/components/PDV/PDV.jsx:24-30 | `addToCart` dispatches a line with quantity 1 and the product's current stock as ceiling |
| Pdv.PdvScreen.constructor | src/components/PDV/PDV.jsx:14-17 | the screen starts with discount 0, an empty search and both dialogs closed |
| Pdv.PdvScreen.AddToCart | src/components/PDV/PDV.jsx:23-33 | the reducer state becomes ADD_TO_CART of the product's one-unit line |
| Pdv.PdvScreen.UpdateQuantity | src/components/PDV/PDV.jsx:35-46 | above the line's ceiling nothing is dispatched; otherwise a quantity ≤ 0 removes the line and a positive one sets it exactly; the ceiling check comes first |
| Pdv.PdvScreen.RemoveFromCart | src/components/PDV/PDV.jsx:48-51 | dispatches REMOVE_FROM_CART for the id |
| Pdv.PdvScreen.ClearCart | src/components/PDV/PDV.jsx:53-57 | empties the cart and resets the discount to 0 |
| Pdv.PdvScreen.SetDiscountInput | src/components/PDV/PDV.jsx:232 | the discount becomes the number typed, or 0 when the input is not a number |
| Pdv.PdvScreen.OpenPaymentModal | src/components/PDV/PDV.jsx:267-268 | the payment dialog opens only when the cart is not empty |
| Pdv.PdvScreen.PickFromSelector | src/components/PDV/ProductSelector.jsx:68-71 | choosing a product in the picker adds it to the cart, then closes the picker |
| Pdv.PdvScreen.HandlePayment | src/components/PDV/PDV.jsx:59-85 | commits the sale built from the cart: success iff every write is accepted; then the sale is stored under a fresh id, stock lowered per item, the cart emptied, the sale published and nothing else in the state changed, the dialog closed and the discount 0; on failure discount, dialog and app state are kept, and the store keeps exactly the writes made before the rejected one; clients and exchanges never change |
| PaymentModal.InstallmentOptions | src/components/PDV/PaymentModal.jsx:28 | the installment choices are 1 to 12 |
| PaymentModal.InitialForm | src/components/PDV/PaymentModal.jsx:22-26 | the dialog starts on credit, 1 installment, Visa, cash received = total, anonymous client |
| PaymentModal.InstallmentValue | src/components/PDV/PaymentModal.jsx:29 | installment value × installments = total |
| PaymentModal.Change | src/components/PDV/PaymentModal.jsx:30 | cash received = total + change |
| PaymentModal.SetCashInput | src/components/PDV/PaymentModal.jsx:170 | a non-numeric cash input becomes 0; nothing else in the form changes |
| PaymentModal.ParseClientId | src/components/PDV/PaymentModal.jsx:36 | an empty client selection records no client |
| PaymentModal.HandleConfirm | src/components/PDV/PaymentModal.jsx:32-49 | the record always has method, total and client id; credit fields are present iff the method is credit, cash fields iff it is cash, and debit and pix add nothing |
| PaymentModal.ConfirmDisabled | src/components/PDV/PaymentModal.jsx:236 | confirmation is blocked when the method is cash and the cash received is below the total; its consequences are `PaymentModal.ConfirmedCashCoversTotal` and `PaymentModal.OnlyCashCanBlock` |
| PaymentModal.InitialChangeIsZero | src/components/PDV/PaymentModal.jsx:25-30 | the change starts at 0 because cash received starts at the total |
| PaymentModal.ConfirmedCashCoversTotal | src/components/PDV/PaymentModal.jsx:236 | a cash payment that can be confirmed has change ≥ 0 |
| PaymentModal.OnlyCashCanBlock | src/components/PDV/PaymentModal.jsx:236 | confirmation is never blocked for a method other than cash |
| PaymentModal.ChosenClientIdRecorded | src/components/PDV/PaymentModal.jsx:36 | a client chosen in the select (its id rendered in decimal) is recorded as that integer id |
| PaymentModal.InstallmentExamples | src/components/PDV/PaymentModal.jsx:149-151 | 150 in 3 installments is 50 each; in 4 it is 37.5 each |
| PaymentModal.CashExample | src/components/PDV/PaymentModal.jsx:42-45 | 200 received for a total of 180 records a change of 20 |
| App.DecrementStock | src/contexts/AppContext.jsx:255-258 | one loop step: read the product, and when it exists write it back with stock lowered by the item quantity |
| App.ApplyStock | src/contexts/AppContext.jsx:254-260 | the whole item loop on the products table; its effect is stated by `App.ApplyStockEffect` and `App.MissingProductSkipped` |
| App.WithStatus | src/contexts/AppContext.jsx:286 | `{ ...exchange, status: newStatus }`; only `status` changes, as `App.StatusUpdateOnlyStatus` states |
| App.ClientSnapshot | src/contexts/AppContext.jsx:244-248 | `{id, name}` of the client is attached exactly when the client id is truthy and the client is stored; otherwise null |
| App.ApplyStockEffect | src/contexts/AppContext.jsx:254-260 | after the loop every stored product's stock is lowered by exactly the quantity sold of it; no product is added or removed |
| App.MissingProductSkipped | src/contexts/AppContext.jsx:255-256 | items whose product is not stored are skipped and create nothing |
| App.StockCanGoNegative | src/contexts/AppContext.jsx:257 | with no lower-bound check, selling 3 of a product with stock 1 leaves stock −2 |
| App.StatusUpdateOnlyStatus | src/contexts/AppContext.jsx:286 | the write-back replaces only `status`; every other field and every other exchange is kept |
| App.ExistingCountPrefix | src/contexts/AppContext.jsx:254-260 | no prefix of the items makes more stock writes than all of them |
| App.StockLoop | src/contexts/AppContext.jsx:254-260 | the item loop ends with the stock of `ApplyStock` when every write is accepted; a rejected write stops it with exactly the earlier writes done |
| App.AppProvider.constructor | src/contexts/AppContext.jsx:8-19 | the provider starts in the initial state with an empty store |
| App.AppProvider.Dispatch | src/contexts/AppContext.jsx:73 | the state becomes `appReducer(state, action)` |
| App.AppProvider.ProcessSale | src/contexts/AppContext.jsx:242-270 | success iff every write is accepted; then the sale is stored under a fresh id with the client snapshot, stock lowered per item, cart cleared and the returned sale published; on failure the state is untouched and earlier writes stay |
| App.AppProvider.AddExchange | src/contexts/AppContext.jsx:272-280 | the exchange is stored under a fresh id unless the write fails, which changes nothing |
| App.AppProvider.UpdateExchange | src/contexts/AppContext.jsx:282-293 | an existing exchange is written back with only its status replaced; a missing id or a failed write changes nothing |
| Labels.Digits | src/components/Labels/Labels.jsx:46 | `replace(/\D/g, '')`: the digits of the text in order; stated by `Labels.BarcodeValueIsDigitPrefix` and `Labels.DigitsOfDigits` |
| Labels.IsValidForEan13 | src/components/Labels/Labels.jsx:47 | `barcodeValue.length === 12`; characterised by `Labels.ValidIffTwelveDigits` |
| Labels.BarcodeValue | src/components/Labels/Labels.jsx:46 | the normalised barcode has at most 12 characters, all decimal digits |
| Labels.MakeLabels | src/components/Labels/Labels.jsx:45-47 | one label per product, in order, each with the product's normalised barcode and its EAN-13 validity |
| Labels.BarcodeValueIsDigitPrefix | src/components/Labels/Labels.jsx:46 | the result is the first min(12, k) digits of the barcode in order; a missing barcode gives "" |
| Labels.ValidIffTwelveDigits | src/components/Labels/Labels.jsx:46-47 | valid for EAN-13 iff the barcode holds at least 12 digits |
| Labels.DigitsOfDigits | src/components/Labels/Labels.jsx:46 | removing non-digits from a digit string changes nothing |
| Labels.BarcodeValueIdempotent | src/components/Labels/Labels.jsx:46 | normalising a normalised barcode gives it back |
| Dashboard.CountsOf | src/components/Dashboard/Dashboard.jsx:13-15 | the product, client and sale totals are the list lengths |
| Dashboard.LowStockCount | src/components/Dashboard/Dashboard.jsx:16 | the number of products with stock ≤ minimum; bounded and linked to the alert by `Dashboard.LowStockSpec` |
| Dashboard.ShowLowStockAlert | src/components/Dashboard/Dashboard.jsx:124 | the low-stock alert condition, count > 0; characterised by `Dashboard.LowStockSpec` |
| Dashboard.TotalRevenue | src/components/Dashboard/Dashboard.jsx:18 | Σ sale.total, folded from the left; additive by `Dashboard.TotalRevenueAppend`, order-independent by `Dashboard.TotalRevenuePermutation` |
| Dashboard.LowStockSpec | src/components/Dashboard/Dashboard.jsx:16 | the low-stock count is at most the product count; the alert of line 124 shows iff some product has stock ≤ its minimum |
| Dashboard.TotalRevenueAppend | src/components/Dashboard/Dashboard.jsx:18 | revenue is additive over concatenated sale lists |
| Dashboard.TotalRevenuePermutation | src/components/Dashboard/Dashboard.jsx:18 | revenue does not depend on the order of the sales, so sorting them in place does not change it |
| Dashboard.TopProducts | src/components/Dashboard/Dashboard.jsx:25-27 | the products array is permuted in place into non-increasing stock; the top list is its first min(5, n), and no product outside it has more stock than one inside |
| Dashboard.RecentSales | src/components/Dashboard/Dashboard.jsx:29-31 | the sales array is permuted in place into non-increasing date; the recent list is its first min(5, n), none outside is newer than one inside |
| Sorting.SortDescending | src/components/Dashboard/Dashboard.jsx:26 | the array is rearranged in place (a permutation) into non-increasing key order |
| Sorting.Insert | src/components/Dashboard/Dashboard.jsx:26 | one insertion step: a sorted prefix of length i grows to a sorted prefix of length i + 1, as a permutation |
| SalesReport.ItemCount | src/components/Sales/Sales.jsx:53 | Σ item.quantity, folded from the left; stated by `SalesReport.ItemCountAppend` and `SalesReport.ItemCountOfCart` |
| SalesReport.ShowEmptyState | src/components/Sales/Sales.jsx:60 | the empty-state message shows exactly when there are no sales |
| SalesReport.ItemCountAppend | src/components/Sales/Sales.jsx:53 | the items column is additive over concatenated item lists, hence 0 for a sale with no items |
| SalesReport.ItemCountOfCart | src/components/Sales/Sales.jsx:53 | the items column of a sale built from a cart is the total number of units in the cart |
| SalesReport.Listing | src/components/Sales/Sales.jsx:43-57 | the sales array is permuted in place into non-increasing date; one row per sale, in that order |
| Exchanges.InitialForm | src/components/Exchanges/Exchanges.jsx:23-28 | the form starts with an empty sale id, the first reason, an empty description and 'Pendente' |
| Exchanges.ChangeField | src/components/Exchanges/Exchanges.jsx:30-33 | `handleChange` replaces only the named field |
| Exchanges.NewExchange | src/components/Exchanges/Exchanges.jsx:41-44 | the submitted record is the form's fields plus the date |
| Exchanges.EditsKeepStatus | src/components/Exchanges/Exchanges.jsx:30-33 | no sequence of form edits changes the status |
| Exchanges.SubmittedExchangeIsPending | src/components/Exchanges/Exchanges.jsx:23-44 | whatever is typed, a submitted exchange starts as 'Pendente' |
| Exchanges.EveryStatusOffered | src/components/Exchanges/Exchanges.jsx:116-123 | every status is offered in the select, so any status may follow any other |
| Exchanges.ExchangesScreen.constructor | src/components/Exchanges/Exchanges.jsx:22-28 | the screen starts with the form hidden and initial |
| Exchanges.ExchangesScreen.ToggleForm | src/components/Exchanges/Exchanges.jsx:22 | the button flips whether the form is shown |
| Exchanges.ExchangesScreen.HandleChange | src/components/Exchanges/Exchanges.jsx:30-33 | the form becomes `ChangeField` of the old form |
| Exchanges.ExchangesScreen.HandleSubmit | src/components/Exchanges/Exchanges.jsx:39-47 | the form plus the date is registered as a new exchange (unless the write fails); the form is then reset and hidden in every case |
| Exchanges.ExchangesScreen.HandleStatusChange | src/components/Exchanges/Exchanges.jsx:35-37 | the status chosen in the history is written back through `updateExchange` |
| Exchanges.ExchangesScreen.History | src/components/Exchanges/Exchanges.jsx:110 | the exchanges array is permuted in place into non-increasing date |
| Products.FilteredProducts | src/components/Products/Products.jsx:27-31 | the catalogue `filter`; stated by `Products.FilteredProductsSpec` and `Products.EmptyTermListsAll` |
| Products.FilteredProductsSpec | src/components/Products/Products.jsx:27-31 | a product is listed iff its lower-cased name or category contains the lower-cased term or its barcode contains the term as typed; catalogue order is kept |
| Products.EmptyTermListsAll | src/components/Products/Products.jsx:27-31 | an empty search lists every product |
| Products.SaleSearchWithinCatalogueSearch | src/components/Products/Products.jsx:27-31 | everything the sale screen's search finds, the catalogue search finds too |
| Products.ProductsScreen.constructor | src/components/Products/Products.jsx:13-15 | the dialog starts closed with nothing selected and an empty search |
| Products.ProductsScreen.OpenModal | src/components/Products/Products.jsx:17-20 | opens the dialog on the given product, or on none for a new product |
| Products.ProductsScreen.CloseModal | src/components/Products/Products.jsx:22-25 | closes the dialog and forgets the selection |
| Products.ProductsScreen.SetSearchTerm | src/components/Products/Products.jsx:15 | the search box holds the typed term |
| Products.ProductsScreen.Listed | src/components/Products/Products.jsx:27-31 | the screen lists exactly the products matching its current search term |
| Clients.FilteredClients | src/components/Clients/Clients.jsx:27-31 | the client `filter`; stated by `Clients.FilteredClientsSpec` and `Clients.EmptyTermListsAll` |
| Clients.FilteredClientsSpec | src/components/Clients/Clients.jsx:27-31 | a client is listed iff their lower-cased name or e-mail contains the lower-cased term or their phone contains the term as typed; order is kept |
| Clients.EmptyTermListsAll | src/components/Clients/Clients.jsx:27-31 | an empty search lists every client |
| Clients.PhoneMatchLists | src/components/Clients/Clients.jsx:30 | a term found in the phone, matched without lower-casing, always lists the client |
| Clients.ClientsScreen.constructor | src/components/Clients/Clients.jsx:13-15 | the dialog starts closed with nothing selected and an empty search |
| Clients.ClientsScreen.OpenModal | src/components/Clients/Clients.jsx:17-20 | opens the dialog on the given client, or on none for a new client |
| Clients.ClientsScreen.CloseModal | src/components/Clients/Clients.jsx:22-25 | closes the dialog and forgets the selection |
| Clients.ClientsScreen.SetSearchTerm | src/components/Clients/Clients.jsx:15 | the search box holds the typed term |
| Selector.Listed | src/components/PDV/ProductSelector.jsx:13-17 | the picker's `filter`, the same predicate as the catalogue's |
| Selector.NoProductFound | src/components/PDV/ProductSelector.jsx:106 | the empty-listing condition; characterised by `Selector.NoProductFoundSpec` |
| Selector.NoProductFoundSpec | src/components/PDV/ProductSelector.jsx:106 | "Nenhum produto encontrado" shows iff no product matches the catalogue search |
| Selector.EmptyTermMessage | src/components/PDV/ProductSelector.jsx:106 | with an empty search the message shows only for an empty catalogue |
| Lists.FilterMembership | src/components/Products/Products.jsx:27 | `Array.filter` keeps exactly the elements that pass |
| Lists.FilterIsSubsequence | src/components/Products/Products.jsx:27 | `Array.filter` keeps the order of what it keeps |
| Lists.FilterAllPass | src/components/Products/Products.jsx:27 | `Array.filter` returns the whole list when every element passes |
| Lists.FilterEmpty | src/components/PDV/ProductSelector.jsx:106 | `Array.filter` returns nothing iff no element passes |
| Text.Contains | src/components/Products/Products.jsx:28 | `includes`; characterised by `Text.ContainsAt` and `Text.ContainsEmpty` |
| Text.ContainsAt | src/components/Products/Products.jsx:28 | `includes` holds iff the term occurs at some position |
| Text.ContainsEmpty | src/components/Products/Products.jsx:28 | every string includes the empty string |
| Text.Lower | src/components/Products/Products.jsx:28 | `toLowerCase` keeps the length and lowers each upper-case ASCII letter |
| Text.ParseInt | src/components/PDV/PaymentModal.jsx:36 | `parseInt(s, 10)`: leading blanks skipped, an optional sign, then the longest digit prefix; no digits gives NaN (`None`); inverse of decimal rendering by `Text.ParseIntOfDecimal` |
| Text.ParseIntOfDecimal | src/components/PDV/PaymentModal.jsx:36 | `parseInt` of an id rendered in decimal gives that id back |

## Left out

- `src/services/database.js` beyond the keyed-map abstraction. Opening the database, object-store creation and `getAll` are not modelled. A failing read (`get`) is not modelled; only rejected writes are.
- Asynchrony. Promise ordering and `Promise.all` are not modelled. The reload after each write (`loadAllData`) is also left out: the reducer's product, client, sale and exchange lists are not refreshed from the store in the model.
- Rendering, toasts, animations and navigation. The receipt and printing (`Receipt.jsx`, `ReceiptModal.jsx`, react-to-print, react-barcode with its check digit) are not modelled, nor are the product, client and company-settings form dialogs.
- Dates. "Today's sales" on the dashboard (`src/components/Dashboard/Dashboard.jsx:19-23`) and date formatting are left out; dates are integer timestamps.
- Floating-point rounding and currency formatting. Money is exact `real`.
- Sample-data seeding and the dark-mode `localStorage` preference.
- Full Unicode `toLowerCase`. `Text.Lower` lowers ASCII letters only.
- Dashboard.TopProducts, Dashboard.RecentSales, SalesReport.Listing and Exchanges.ExchangesScreen.History: the source sorts the provider's shared `products`, `sales` and `exchanges` arrays in place, so every other screen sees the new order. The model sorts a separate array that is not tied to `App.AppProvider.state`, so that aliasing and the reorder of the shared state are not modelled.
- Sorting.SortDescending: the source's `Array.sort` is stable, but the model states only a permutation in key order, not stability.
- PaymentModal.ParseClientId: `parseInt` returning NaN (a non-numeric client field, which the select cannot produce) is modelled as no client (null).
- Cart.UpdateLine: UPDATE_CART_ITEM is modelled with the `{id, quantity}` payload that the sale screen dispatches; a payload that overwrites other line fields is not modelled.
- Pdv.PdvScreen.UpdateQuantity: on an id with no cart line the source throws a TypeError before dispatching. The model reports this as the outcome `NoSuchLine` and changes nothing.
- App.AppProvider.ProcessSale: the returned sale is the stored record; the error value rethrown on failure is abstracted to `StoreFailure`.
- Exchanges: the status select's string values are modelled as the three-valued `ExchangeStatus`.
- The settings store and the `updateSettings`, product and client CRUD commands of the provider are not part of this model.
