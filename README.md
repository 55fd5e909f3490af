# Minimarket client core in Dafny

This project models the client-side logic of a small point-of-sale and inventory web app. The app is made of React screens and TypeScript services that talk to a remote backend. What the screens and services decide on their own is modelled here:

- the browser-local store, and the stock decrement that appending a sale causes;
- the point-of-sale cart;
- the purchase-order screen: the detail list, order creation and marking an order delivered;
- the stock screen: stock states, filters and counts, the CSV export's quoting, and the recent-movement list;
- the report service's date window, summaries, product ranking, reason labels and name truncation;
- the ticket printer's payment-method caption;
- the role permission matrix: its defaults, its validator, the role dialog's edits and the roles list's counter;
- the form guards and request payloads of the user, collaborator, inventory-adjustment and cash-register screens, and the inventory-adjustment service's clean-up;
- the sales history's filters and order.

There is one Dafny module per source file, plus shared modules:

- `Text`: `trim`, `toLowerCase` on the letters of Latin-1, `includes`.
- `Numbers`: `parseInt`, `parseFloat`, `Number`, `String`, with NaN as `None`.
- `Seqs`: `filter`, `find`, `reduce` sums, `slice`.
- `Sorting`: `Array.prototype.sort` by a descending key, stable.
- `JsObject`: plain objects as ordered key/value lists, and parsed JSON values.
- `Types`: the shared records.
- `Truncation`: the `truncateText` loop shared by the two printers.

Code that works by expressions (`map`, `filter`, spreads, conditionals) is modelled as functions, with lemmas about them. Code that updates things step by step is modelled as classes or methods with loops:

- the local store (`DataService.LocalStore`);
- the backend records the purchase-order handlers write (`OrderBuy.Backend`);
- the inventory-adjustment form (`InventoryAdjustmentView.AdjustForm`);
- the cash-register screen (`CashRegisterView.CashRegisterScreen`);
- the counters and error dictionaries built in loops.

Each such method is proved against a specification function, and the properties are proved about that function.

Conventions:

- **Numbers.** Integers are unbounded. Money in the shared records is integer cents. Cash-register amounts are `real`.
- **Time.** Timestamps are abstract milliseconds, and a calendar day is the timestamp divided by the length of a day.
- **Stock.** `Product.stock` stays a string, as the shared types declare it. Every reading of it goes through the modelled `parseInt` or `Number`. The point-of-sale cart works on the older product shape, whose stock is a number.

## Model

| member | source | states |
|---|---|---|
| DataService.GetStoredData | src/services/dataService.ts:4-11 | an absent key or text that does not parse gives the default; otherwise the stored list |
| DataService.UpsertExisting | src/services/dataService.ts:22-33 | saving an element whose key is present replaces it at its index; the length and every other element stay |
| DataService.UpsertNew | src/services/dataService.ts:22-33 | saving an element with a new key appends it after the existing ones |
| DataService.FindAfterUpsert | src/services/dataService.ts:22-33 | after a save, looking the key up finds exactly the saved element |
| DataService.DeleteCustomerSpec | src/services/dataService.ts:53-56 | deletion leaves no customer with that id, keeps every other customer with its multiplicity, in order |
| DataService.DecrementedValue | src/services/dataService.ts:76-78 | the rewritten stock reads back as the old number minus the quantity; a stock that is not a number stays NaN |
| DataService.ApplyItemEffect | src/services/dataService.ts:70-81 | one item rewrites only the stock of the first product with its id, and only when its quantity is truthy |
| DataService.ApplyItemsKeepsFields | src/services/dataService.ts:70-81 | the stock loop changes no product field other than stock |
| DataService.ApplyItemsStock | src/services/dataService.ts:70-81 | after the loop, the first product with an id carries its stock decremented by every item naming it |
| DataService.DecrementedByValue | src/services/dataService.ts:76-78 | repeated decrements read back as the old stock minus the total quantity sold |
| DataService.ApplyItemsEffect | src/services/dataService.ts:63-83 | the first product with an id loses the total quantity of the items naming it; nothing else about it changes |
| DataService.ApplyItemsUnknown | src/services/dataService.ts:72-75 | items naming no stored product leave the product list exactly as it was |
| DataService.StoreItemsEffect | src/services/dataService.ts:70-81 | the stock loop changes only the products key, whose list is the loop's result |
| DataService.AfterSaleEffect | src/services/dataService.ts:63-83 | after a sale, the sale is last in the sales list, the products are the decremented ones, the customers are unchanged |
| DataService.StatsAfterAppend | src/services/dataService.ts:86-111 | appending a sale adds one transaction and its items' value exactly when it is dated today; the product count is unchanged |
| DataService.SumIgnoresTotal | src/services/dataService.ts:91-101 | today's sales figure depends on item quantities and prices, never on the sales' declared totals |
| DataService.LocalStore.SaveProduct | src/services/dataService.ts:22-33 | the products key holds the upserted list; every other key is unchanged |
| DataService.LocalStore.SaveCustomer | src/services/dataService.ts:40-51 | the customers key holds the upserted list; every other key is unchanged |
| DataService.LocalStore.DeleteCustomer | src/services/dataService.ts:53-56 | the customers key holds the list without that id |
| DataService.LocalStore.SaveSale | src/services/dataService.ts:63-83 | the storage becomes the one the sale specification describes (see AfterSaleEffect) |
| DataService.LocalStore.SellItem | src/services/dataService.ts:70-81 | one pass of the stock loop re-reads the products and writes back one decremented stock |
| DataService.LocalStore.GetDashboardStats | src/services/dataService.ts:86-112 | the figures for the clock's day: the count of today's sales and the number of stored products |
| DataService.SaleCanDriveStockNegative | src/services/dataService.ts:75-78 | selling three of a product with one unit in stock stores stock "-2"; nothing refuses it |
| Pos.FilteredProducts | src/components/POS/POS.tsx:15-20 | exactly the products whose name contains the term ignoring case or whose bar code contains it as typed, in order |
| Pos.EmptySearchShowsAll | src/components/POS/POS.tsx:15-20 | an empty search lists every product |
| Pos.CartTotalIsQuantityTimesPrice | src/components/POS/POS.tsx:22-24 | about `Pos.CartTotal`: in a cart whose subtotals are consistent, the total is the sum of quantity times price |
| Pos.SetQuantity | src/components/POS/POS.tsx:57-61 | the matching items get the new quantity with subtotal quantity times price; the rest are unchanged |
| Pos.Increment | src/components/POS/POS.tsx:31-35 | the matching items gain one unit with a recomputed subtotal; the rest are unchanged |
| Pos.AddExisting | src/components/POS/POS.tsx:26-36 | about `Pos.AddToCart`: adding a product already in the cart raises its quantity by one while under the stock, and otherwise changes nothing |
| Pos.AddNew | src/components/POS/POS.tsx:37-47 | about `Pos.AddToCart`: adding a product not in the cart appends one unit at its price when its stock is positive, and otherwise changes nothing |
| Pos.AddKeepsValid | src/components/POS/POS.tsx:26-48 | about `Pos.AddToCart`: adding keeps one item per product, positive quantities and consistent subtotals |
| Pos.AddRespectsStock | src/components/POS/POS.tsx:26-48 | about `Pos.AddToCart`: after adding, the product's quantity is its old quantity or at most its stock |
| Pos.RemoveSpec | src/components/POS/POS.tsx:65-67 | about `Pos.RemoveFromCart`: removal drops the product's items and keeps every other item, in order |
| Pos.UpdateQuantitySpec | src/components/POS/POS.tsx:50-63 | about `Pos.UpdateQuantity`: a quantity of 0 removes the item; a quantity up to the stock replaces it; a larger one changes nothing |
| Pos.UpdateUnknownProduct | src/components/POS/POS.tsx:51-52 | about `Pos.UpdateQuantity`: a product missing from the catalogue leaves the cart unchanged |
| Pos.UpdateKeepsValid | src/components/POS/POS.tsx:50-63 | about `Pos.UpdateQuantity`: a non-negative quantity keeps the cart valid |
| Pos.SetQuantityKeepsValid | src/components/POS/POS.tsx:57-61 | setting a positive quantity keeps the cart valid |
| Pos.NegativeQuantityAccepted | src/components/POS/POS.tsx:54-61 | about `Pos.UpdateQuantity`: a negative quantity is not refused and is written into the item |
| Pos.RemoveKeepsValid | src/components/POS/POS.tsx:65-67 | about `Pos.RemoveFromCart`: removing keeps the cart valid |
| Pos.ProcessSaleSpec | src/components/POS/POS.tsx:69-83 | about `Pos.ProcessSale`: an empty cart emits nothing; otherwise the sale carries the cart, its total and the chosen method, and the cart and search are cleared |
| OrderBuy.FilteredOrders | src/components/OrderBuy/OrderBuy.tsx:75-77 | exactly the orders that have a provider whose business name contains the term ignoring case, in order |
| OrderBuy.EmptySearchShowsOrdersWithProvider | src/components/OrderBuy/OrderBuy.tsx:75-77 | an empty search keeps every order with a provider and drops those without one |
| OrderBuy.AgregarSpec | src/components/OrderBuy/OrderBuy.tsx:79-96 | about `OrderBuy.AgregarProductoDetalle`: no product or a quantity not above 0 changes nothing; an unknown product changes nothing; otherwise one line is appended and the selection resets to none and 1 |
| OrderBuy.NaNQuantityAdded | src/components/OrderBuy/OrderBuy.tsx:80 | about `OrderBuy.AgregarProductoDetalle`: a NaN quantity is not refused by the guard and is appended |
| OrderBuy.EliminarSpec | src/components/OrderBuy/OrderBuy.tsx:98-100 | about `OrderBuy.EliminarProductoDetalle`: an index in range removes exactly that line; any other index changes nothing |
| OrderBuy.DetailRecords | src/components/OrderBuy/OrderBuy.tsx:143-162 | one detail record per line, in order, with its quantity, product and the new order's id |
| OrderBuy.Backend.Submit | src/components/OrderBuy/OrderBuy.tsx:102-172 | refuses without a provider or without lines; otherwise one pending order and then one detail per line up to the first failed request; stock is never touched |
| OrderBuy.Backend.PutStocks | src/components/OrderBuy/OrderBuy.tsx:217-232 | the stock writes of the loop are performed in order up to the first failure, and the result says whether all of them were |
| OrderBuy.Backend.MarkDelivered | src/components/OrderBuy/OrderBuy.tsx:189-243 | without an order or on a failed first request nothing changes; otherwise the order is marked delivered now and the stock writes are applied up to the first failure |
| OrderBuy.NoWriteToWrites | src/components/OrderBuy/OrderBuy.tsx:219-228 | about `OrderBuy.DeliveryWrites`: details none of which resolves to a product with a given document id write nothing under that id |
| OrderBuy.LastDetailWins | src/components/OrderBuy/OrderBuy.tsx:219-228 | about `OrderBuy.DeliveryWrites`: each stock write is computed from the loaded snapshot, so for any detail naming a product that no later detail names, the product ends at its loaded stock plus that detail's quantity alone |
| OrderBuy.LostUpdateExample | src/components/OrderBuy/OrderBuy.tsx:219-228 | about `OrderBuy.DeliveryWrites`: two lines of 3 and 4 units for a product holding 10 leave it at 14 |
| OrderBuy.ReceivedStockValue | src/components/OrderBuy/OrderBuy.tsx:221 | about `OrderBuy.ReceivedStock`: the written stock reads back as the loaded stock plus the quantity, NaN staying NaN |
| OrderBuy.ReceiveAllAddsEverything | src/components/OrderBuy/OrderBuy.tsx:217-232 | about `OrderBuy.ReceiveAll`: with the accumulating receive, every product ends at its stock plus all the quantities its details name |
| OrderBuy.ModalActions | src/components/OrderBuy/OrderBuy.tsx:545-564 | a pending order offers "mark delivered"; every order offers "close" |
| Reports.EndOfDayCoversDay | src/services/reportService.ts:84-87 | about `Reports.EndOfDay`: a date is at or before the end date's 23:59:59.999 exactly when its day is not after the end date's day |
| Reports.InWindowByDay | src/services/reportService.ts:82-88 | about `Reports.InWindow`: the report window keeps a date exactly when it is not before the start and its day is not after the end's day |
| Reports.SalesInWindow | src/services/reportService.ts:82-88 | exactly the sales dated inside the window, in order |
| Reports.AdjustmentsInWindow | src/services/reportService.ts:410-416 | exactly the adjustments dated inside the window, in order |
| Reports.Summarize | src/services/reportService.ts:95-97 | the count is the number of sales; with no sales revenue and average are 0; otherwise average times count is the revenue |
| Reports.AverageBetween | src/services/reportService.ts:95-97 | when every total lies between two bounds, so does the average |
| Reports.Aggregate | src/services/reportService.ts:182-199 | the loop over sales and items builds the per-product tally the specification defines |
| Reports.AddItems | src/services/reportService.ts:185-198 | the inner loop extends the tally by each item in turn |
| Reports.TalliedEntries | src/services/reportService.ts:182-199 | about `Reports.Tallied`: each product's entry sums the quantities and subtotals of its items and keeps the first-seen name |
| Reports.TalliedUnits | src/services/reportService.ts:182-199 | about `Reports.Tallied`: the units over all entries equal the units over all items |
| Reports.TalliedKeys | src/services/reportService.ts:182-199 | about `Reports.Tallied`: the tally has one entry per product id that occurs in an item, and no other |
| Reports.TopProductsOf | src/services/reportService.ts:201-203 | at most 20 entries, ordered by units sold, largest first |
| Sorting.SortDesc | src/services/reportService.ts:201-203 | the result is a rearrangement of the input, largest key first, and stable: the elements sharing a key keep their input order |
| Sorting.WithKeyPrefix | src/services/reportService.ts:203 | cutting a list keeps, for each key, the first of the elements with that key |
| Reports.TopOfSorted | src/services/reportService.ts:201-203 | about `Reports.TopProductsOf`: the ranking is drawn from the tally, any entry left out sold no more than the last one kept, and among entries with equal units the kept ones are the first sold |
| Reports.TopProductsFacts | src/services/reportService.ts:182-219 | the whole top-products summary: distinct products, the ranking, and the units total, which equals all units when at most 20 products sold |
| Reports.SummarizeAdjustments | src/services/reportService.ts:423-425 | the counts of increases and decreases, which add up to the number of adjustments |
| Reports.ReasonLabel | src/services/reportService.ts:558-568 | each of the six reason codes maps to its label |
| Reports.ReasonLabelChangesOnlyCodes | src/services/reportService.ts:558-568 | about `Reports.ReasonLabel`: only the six codes are relabelled; any other reason, the empty one included, is shown as it is |
| Reports.TruncateText | src/services/reportService.ts:534-553 | a blank text gives "N/A", a text that fits is kept, and otherwise the longest fitting prefix followed by "..." |
| Reports.GenerateReport | src/services/reportService.ts:34-64 | an unknown report type fails with the generic message; each known type builds its report from the records in the window, with missing data read as an empty list |
| Reports.ReportsStayInWindow | src/services/reportService.ts:82-88 | every sale in a sales or profit report comes from the input and lies inside the window |
| Reports.NoSalesReport | src/services/reportService.ts:46 | without sales data the sales report is empty, with an average of 0 |
| Truncation.Shorten | src/services/reportService.ts:545-550 | the loop leaves the longest prefix that fits with "..." after it, or the empty prefix |
| Truncation.Truncate | src/services/reportService.ts:534-553 | the result satisfies the truncation promise for the given placeholder |
| Truncation.TruncatedUnique | src/services/reportService.ts:534-553 | the truncation promise admits one result only, so it fully determines the output |
| StockView.ParseStock | src/components/Stock/Stock.tsx:115 | a product with no stock text reads as 0; any other stock text is read with `parseInt` |
| StockView.GetStateSpec | src/components/Stock/Stock.tsx:115-121 | about `StockView.GetState`: a product is out of stock exactly when its stock reads as 0, low exactly when it reads as a non-zero number under the minimum, and normal when it does not read as a number |
| StockView.CountsAddUp | src/components/Stock/Stock.tsx:116-124 | about `StockView.LowCount`, `StockView.ZeroCount` and `StockView.NormalCount`: the low, out-of-stock and normal counts add up to the number of products |
| StockView.Filtered | src/components/Stock/Stock.tsx:126-141 | the shown products keep their order, and a product is shown exactly when it passes the text, state, category and both price filters; the price bounds are typed in currency units and the price in cents is compared with 100 times the bound |
| StockView.PriceBoundsInUnits | src/components/Stock/Stock.tsx:129-138 | about `StockView.AboveMin` and `StockView.BelowMax`: a typed bound of n admits exactly the prices of at least (minimum) or at most (maximum) 100·n cents |
| StockView.PriceBoundsSample | src/components/Stock/Stock.tsx:129-138 | about `StockView.AboveMin` and `StockView.BelowMax`: a product at 350 cents fails a minimum of 5, passes a minimum of 3 and passes a maximum of 10 |
| StockView.ClearedPasses | src/components/Stock/Stock.tsx:145-151 | about `StockView.Passes`: with the filters cleared any product passes |
| StockView.ClearedShowsAll | src/components/Stock/Stock.tsx:126-151 | about `StockView.Filtered`: after clearing the filters the list is every product, in order |
| StockView.ParseLineOfLine | src/components/Stock/Stock.tsx:177 | about `StockView.Line` and `StockView.ParseLine`: a line of quoted, comma-joined cells reads back as the same cells, quotes inside a cell included |
| StockView.ParseCsvOfCsv | src/components/Stock/Stock.tsx:176-177 | about `StockView.Csv` and `StockView.ParseCsv`: the exported file reads back as the same rows, empty rows included |
| StockView.AdjustmentSignRule | src/components/Stock/Stock.tsx:81-87 | about `StockView.AdjustmentMovement`: a nested `decrease` adjustment with a positive quantity becomes negative; a flat record keeps its quantity; any other adjustment with a non-negative quantity stays non-negative |
| StockView.Merged | src/components/Stock/Stock.tsx:89 | the merged list has one movement per sale line, purchase line and adjustment |
| StockView.RecentMovements | src/components/Stock/Stock.tsx:89-91 | at most five movements, newest first |
| StockView.RecentAreNewest | src/components/Stock/Stock.tsx:89-91 | about `StockView.RecentMovements`: the five shown are merged movements, there are five whenever at least five exist, every movement left out is no newer than the last shown, and among movements of one instant the shown ones are the first in merged order |
| Tickets.MatchingType | src/services/ticketService.ts:202-204 | a found payment type has the sale's numeric id and is in the list; a method stored by name never finds one; an id present in the list is always found |
| Tickets.PaymentMethodName | src/services/ticketService.ts:197-217 | no method prints `No especificado`; a matching type with a description prints it; otherwise ids 1 to 3 print their built-in name and anything else prints `Método ` and the key; the caption is never empty |
| Tickets.BuiltInNames | src/services/ticketService.ts:209-216 | without a matching type, ids 1, 2 and 3 print Efectivo, Tarjeta and Transferencia and any other id prints `Método ` and its decimal text |
| Tickets.FirstMatchDecides | src/services/ticketService.ts:202-207 | only the first type with the id is consulted: an empty description there falls back to the built-in names even if a later type has one |
| Tickets.NamedMethodPrinted | src/services/ticketService.ts:209-216 | a method stored by name, as the point of sale stores it, prints as `Método ` and the name |
| Tickets.TruncateText | src/services/ticketService.ts:171-192 | the ticket's truncation with `Producto sin nombre` for blank names, meeting the truncation contract |
| RoleService.ActionsValid | src/services/roleService.ts:210-214 | the action loop succeeds exactly when every listed action of the module holds a boolean |
| RoleService.ModulesValid | src/services/roleService.ts:205-215 | the module loop succeeds exactly when every listed module is a truthy object whose four actions hold booleans |
| RoleService.ValidatePermissions | src/services/roleService.ts:196-221 | a value that is falsy or not an object is refused; otherwise it is accepted exactly when every module passes |
| RoleService.ValidGivesMatrix | src/services/roleService.ts:196-221 | an accepted value holds an object for each of the six modules and a boolean in each of the 24 cells |
| RoleService.MatrixGivesValid | src/services/roleService.ts:196-221 | a value with a boolean in each of the 24 cells is accepted |
| RoleService.ValidateMeansMatrix | src/services/roleService.ts:196-221 | the validator accepts a value exactly when it is a complete six-by-four boolean matrix |
| RoleService.DefaultModule | src/services/roleService.ts:154-193 | each module of the defaults has `ver` set only for the dashboard and every other action off |
| RoleService.ModuleWithAction | src/services/roleService.ts:156-161 | in a default module every action reads as a boolean, true only for `ver` when the module may be viewed |
| RoleService.DefaultsShape | src/services/roleService.ts:154-193 | the defaults hold a boolean in all 24 cells, only `dashboard.ver` is on, and the validator accepts them |
| RoleModal.InitialState | src/components/Roles/RoleModal.tsx:27-45 | editing a role loads its fields and permissions, a missing description as empty text; a new role starts from the default form and the default permissions |
| RoleModal.NameRule | src/components/Roles/RoleModal.tsx:50-56 | a name passes exactly when it has a non-blank character and 3 to 100 UTF-16 code units counted as typed |
| RoleModal.AstralNameTooLong | src/components/Roles/RoleModal.tsx:54 | 51 emoji are 102 code units, so such a name is refused as too long |
| RoleModal.DescriptionRule | src/components/Roles/RoleModal.tsx:58-60 | a description passes exactly when it has at most 500 UTF-16 code units; otherwise it gets the length message |
| RoleModal.PaddedNamePasses | src/components/Roles/RoleModal.tsx:50-56 | `"  a"` passes the name rule: its length counts the padding that the blank check trims |
| RoleModal.FormErrorsEmpty | src/components/Roles/RoleModal.tsx:47-71 | the errors object is empty exactly when the name, description, level and permission checks all pass; a NaN level raises no level error |
| RoleModal.ValidateForm | src/components/Roles/RoleModal.tsx:47-71 | the errors hold one message per failing field with no key twice, and the form is valid exactly when every check passes, a NaN level included |
| RoleModal.IsModuleEnabled | src/components/Roles/RoleModal.tsx:173-176 | a missing or null module throws; otherwise the module is enabled when some value of it is truthy |
| RoleModal.PermissionChangeExact | src/components/Roles/RoleModal.tsx:89-97 | a permission change sets exactly the one cell; other modules and the module's other actions are unchanged |
| RoleModal.AllActionsRead | src/components/Roles/RoleModal.tsx:107-116 | the toggled module reads each of the four actions as the toggled value |
| RoleModal.ModuleToggleExact | src/components/Roles/RoleModal.tsx:107-116 | a module toggle sets all four actions of the module and leaves the other modules as they were |
| RoleModal.EnabledAfterToggle | src/components/Roles/RoleModal.tsx:107-116 | after a toggle the module reads as enabled exactly when it was toggled on |
| RoleModal.AllActionsValues | src/components/Roles/RoleModal.tsx:107-116 | a toggled module's values are the four booleans, all equal to the toggled value |
| RoleModal.ToggleFlips | src/components/Roles/RoleModal.tsx:297 | clicking the toggle of an enabled module disables it and of a disabled one enables it |
| RoleModal.PermissionChangeKeepsValid | src/components/Roles/RoleModal.tsx:89-97 | a permission change keeps an accepted permission matrix accepted |
| RoleModal.ModuleToggleKeepsValid | src/components/Roles/RoleModal.tsx:107-116 | a module toggle keeps an accepted permission matrix accepted |
| RoleModal.Submit | src/components/Roles/RoleModal.tsx:119-139 | nothing is sent while any check fails; otherwise an update of the role being edited or a creation, carrying the form and the permissions |
| RoleModal.LevelRule | src/components/Roles/RoleModal.tsx:62-64 | a level passes exactly when it is NaN or from 1 to 10; a refused level gets the range message |
| RoleModal.EmptiedLevelIsSent | src/components/Roles/RoleModal.tsx:233 | emptying the level field stores NaN, and a form whose other checks pass is then sent with the NaN level |
| RolesView.FilterRoles | src/components/Roles/Roles.tsx:42-52 | a blank term shows every role; otherwise, in their order, exactly the roles whose name or non-empty description contains the term in any case |
| RolesView.SearchIgnoresCase | src/components/Roles/Roles.tsx:42-52 | typing the term in lower case lists the same roles |
| RolesView.LevelColor | src/components/Roles/Roles.tsx:102-107 | four bands: up to 2, 3 to 5, 6 to 7, and above 7, each exactly |
| RolesView.CountModule | src/components/Roles/Roles.tsx:114-117 | the inner loop adds the number of values to the total and the number of truthy values to the active count |
| RolesView.CountModules | src/components/Roles/Roles.tsx:113-118 | the outer loop gives the counts over all modules in order, or throws once a module has no values to list |
| RolesView.GetPermissionsCount | src/components/Roles/Roles.tsx:109-121 | the active and total counts over every value of every module, or a throw when the permissions or a module is null |
| RolesView.ModulesCountsStuck | src/components/Roles/Roles.tsx:113-118 | once a module throws, the whole count throws |
| RolesView.CountsBounded | src/components/Roles/Roles.tsx:109-121 | no more permissions are active than there are |
| RolesView.DefaultCounts | src/components/Roles/Roles.tsx:109-121 | a role with the default permissions shows one active permission out of 24 |
| RoleService.Identifier | src/services/roleService.ts:131 | a role is named by its non-empty `documentId`, otherwise by its numeric id written as text that reads back as that id |
| RolesView.StatusRequest | src/components/Roles/Roles.tsx:83-85 | the request names the role by its identifier and asks for the opposite of its current status |
| RolesView.ToggleFlipsOnlyTarget | src/components/Roles/Roles.tsx:83-86 | among roles with distinct identifiers, the list read back after the request differs from the old one only in the toggled role's status, which is flipped |
| RolesView.FallbackIdentifiers | src/services/roleService.ts:131 | two roles without a `documentId` get the same identifier exactly when their numeric ids are equal |
| UserForm.PatternGivesShape | src/components/users/UserForm.tsx:79 | an address matching `^[^\s@]+@[^\s@]+\.[^\s@]+$` has exactly one `@`, not first, no white space, and a dot with text on both sides after the `@` |
| UserForm.ShapeGivesPattern | src/components/users/UserForm.tsx:79 | an address of that shape matches the pattern |
| UserForm.EmailPatternMeans | src/components/users/UserForm.tsx:79 | the e-mail pattern holds exactly when the address has that shape |
| UserForm.SampleAccepted | src/components/users/UserForm.tsx:79 | `ana@tienda.pe` is accepted |
| UserForm.SampleNoDot | src/components/users/UserForm.tsx:79 | `ana@tienda`, with no dot after the `@`, is rejected |
| UserForm.SampleNoLocalPart | src/components/users/UserForm.tsx:79 | `@tienda.pe`, with nothing before the `@`, is rejected |
| UserForm.UsernameRule | src/components/users/UserForm.tsx:69-74 | a username passes exactly when it is not blank and has at least 3 UTF-16 code units as typed |
| UserForm.EmailRule | src/components/users/UserForm.tsx:77-81 | an e-mail passes exactly when it matches the pattern, a matching address never being blank |
| UserForm.PasswordRule | src/components/users/UserForm.tsx:84-88 | a password passes exactly when it is left empty while editing or has at least 6 UTF-16 code units |
| UserForm.AstralPasswordAccepted | src/components/users/UserForm.tsx:86 | three emoji are six code units, so they pass the length check |
| Text.Utf16Length | src/components/users/UserForm.tsx:71 | `.length` lies between the number of characters and twice it, equals it exactly when no character is above U+FFFF, and is twice it when every one is |
| UserForm.FormErrorsEmpty | src/components/users/UserForm.tsx:65-97 | the errors object is empty exactly when the username, e-mail, password and role checks all pass |
| UserForm.ValidateForm | src/components/users/UserForm.tsx:65-97 | the errors hold one message per failing field with no key twice, and the form is valid exactly when every check passes |
| UserForm.CreateData | src/components/users/UserForm.tsx:129-136 | a creation always carries the password and never `blocked` or `confirmed`; an empty name is left out; the role is read with `parseInt` |
| UserForm.UpdateData | src/components/users/UserForm.tsx:111-124 | an update carries the fields, `blocked` and `confirmed`, and the password exactly when one was typed |
| UserForm.SaveErrorText | src/components/users/UserForm.tsx:143-150 | a message mentioning 400 gives the invalid-data text, else one mentioning 409 the already-in-use text, else the generic text |
| UserForm.BothCodes | src/components/users/UserForm.tsx:143-150 | a message naming both 409 and 400 gets the 400 text |
| CollaboratorModal.DefaultForm | src/components/Collaborators/CollaboratorModal.tsx:19-31 | a new collaborator starts as an active cashier joined today, with no linked user and empty names and DNI |
| CollaboratorModal.FormOf | src/components/Collaborators/CollaboratorModal.tsx:46-62 | editing loads the collaborator's fields; no linked user becomes `null`, a linked one its id |
| CollaboratorModal.Validate | src/components/Collaborators/CollaboratorModal.tsx:68-74 | the message of the first missing field, in the order names, DNI, position, joining date, and none exactly when all four are filled |
| CollaboratorModal.SpacesAreMissing | src/components/Collaborators/CollaboratorModal.tsx:69 | names made only of spaces are refused |
| CollaboratorModal.Save | src/components/Collaborators/CollaboratorModal.tsx:76-90 | nothing is sent while a field is missing, and the message is shown; otherwise an update of the collaborator being edited or a creation, carrying the form |
| CollaboratorModal.SelectUser | src/components/Collaborators/CollaboratorModal.tsx:171 | `none` clears the link and any other value sets it |
| CollaboratorModal.NumberNeverNone | src/components/Collaborators/CollaboratorModal.tsx:170 | no id is shown as `none` |
| CollaboratorModal.NoneIsNaN | src/components/Collaborators/CollaboratorModal.tsx:171 | `Number("none")` is NaN, so the clear option could not be read as an id |
| CollaboratorModal.SelectRoundTrip | src/components/Collaborators/CollaboratorModal.tsx:170-171 | choosing the option shown for a link gives that link back, an absent link coming back as `null` |
| AdjustmentService.CleanDescription | src/services/inventoryAdjustmentService.ts:33-41 | the description is kept exactly when it is present and not blank, then trimmed and non-empty; it is never left as `undefined` |
| AdjustmentService.CleanRequest | src/services/inventoryAdjustmentService.ts:31-41 | the cleaned request carries the trimmed description only when it is not blank, never an `undefined` one, and every other property unchanged |
| AdjustmentService.CleanedIdempotent | src/services/inventoryAdjustmentService.ts:31-41 | cleaning a cleaned request changes nothing |
| AdjustmentService.CleanedKeeps | src/services/inventoryAdjustmentService.ts:31-41 | a request with no description, or one already trimmed and non-empty, is sent as it is |
| AdjustmentService.CleanedDropsUndefined | src/services/inventoryAdjustmentService.ts:31-41 | a missing description and an `undefined` one both end without the property |
| AdjustmentService.NestedMessage | src/services/inventoryAdjustmentService.ts:55 | a nested message exists only under an `error` property |
| AdjustmentService.ErrorMessage | src/services/inventoryAdjustmentService.ts:51-56 | a `null` body throws a type error; any other body gives a truthy message |
| AdjustmentService.ErrorMessagePrecedence | src/services/inventoryAdjustmentService.ts:55 | a truthy nested `error.message` wins, then a truthy top-level `message`, then the default text |
| AdjustmentService.ErrorMessageNonObject | src/services/inventoryAdjustmentService.ts:51-56 | a body that is not an object gives the default text |
| InventoryAdjustmentView.RequestFor | src/components/InventoryAdjustment/InventoryAdjustment.tsx:71-91 | nothing is sent exactly when the quantity is empty or reads as a number that is not positive; otherwise the request carries the product, type, parsed quantity and reason, no user, and the description trimmed and only when not blank |
| InventoryAdjustmentView.RequestSurvivesCleaning | src/components/InventoryAdjustment/InventoryAdjustment.tsx:85-91 | the service's clean-up leaves the screen's request unchanged |
| InventoryAdjustmentView.NaNQuantityIsSent | src/components/InventoryAdjustment/InventoryAdjustment.tsx:74-81 | a non-empty quantity with no leading digits passes the guard and is sent as NaN |
| InventoryAdjustmentView.LettersQuantityIsSent | src/components/InventoryAdjustment/InventoryAdjustment.tsx:74-81 | the quantity `abc` is sent as NaN |
| InventoryAdjustmentView.AdjustForm.constructor | src/components/InventoryAdjustment/InventoryAdjustment.tsx:30-42 | no product is selected; a decrease of an empty quantity for `merma`, with the modal closed |
| InventoryAdjustmentView.AdjustForm.Pending | src/components/InventoryAdjustment/InventoryAdjustment.tsx:71-91 | without a product or a quantity nothing would be sent; a quantity sent is NaN or positive |
| InventoryAdjustmentView.AdjustForm.OpenAdjustModal | src/components/InventoryAdjustment/InventoryAdjustment.tsx:62-69 | the product is selected, the form reset and shown, and a freshly reset form sends nothing |
| InventoryAdjustmentView.AdjustForm.AdjustInventory | src/components/InventoryAdjustment/InventoryAdjustment.tsx:71-117 | the request sent is the one the form held; the modal closes only when a request was sent and accepted; the form fields are kept |
| InventoryAdjustmentView.FilteredProducts | src/components/InventoryAdjustment/InventoryAdjustment.tsx:139-142 | the products whose description or barcode contains the term in any case, in their order; an empty term keeps them all |
| InventoryAdjustmentView.LowStateShowsBadge | src/components/InventoryAdjustment/InventoryAdjustment.tsx:216 | every product the stock screen counts as low shows the badge here |
| InventoryAdjustmentView.BadgeAtMinimum | src/components/InventoryAdjustment/InventoryAdjustment.tsx:216 | a stock exactly at a non-zero minimum shows the badge here while the stock screen calls it normal |
| InventoryAdjustmentView.EmptyStockNoBadge | src/components/InventoryAdjustment/InventoryAdjustment.tsx:216 | an empty stock shows no badge here while the stock screen calls it out of stock |
| InventoryAdjustmentView.Recent | src/components/InventoryAdjustment/InventoryAdjustment.tsx:259 | the first ten adjustments, in order, all of them when there are at most ten |
| InventoryAdjustmentView.TypeBadgeOf | src/components/InventoryAdjustment/InventoryAdjustment.tsx:144-150 | an increase is green with a plus; anything else is red with a minus |
| SalesView.FilteredSales | src/components/Sales/Sales.tsx:15-29 | the shown sales are exactly those passing the search, day and payment filters, each kept with its multiplicity, newest first, with sales of the same instant in their stored order |
| SalesView.EmptySearchMatches | src/components/Sales/Sales.tsx:17-19 | an empty search term matches every sale |
| SalesView.NoFilterKeepsAll | src/components/Sales/Sales.tsx:15-29 | with no term, no day and `all`, every sale is shown |
| SalesView.IdMethodsNeverMatch | src/components/Sales/Sales.tsx:24-25 | a specific payment option never keeps a sale whose method is stored as an id or is missing |
| SalesView.PaymentOptions | src/components/Sales/Sales.tsx:24-25 | `all` keeps every sale, and a named option keeps exactly the sales stored with that name |
| SalesView.SameDaySameFate | src/components/Sales/Sales.tsx:21-22 | two sales on the same calendar day are kept or dropped together by the day filter |
| SalesView.PaymentIconOf | src/components/Sales/Sales.tsx:31-38 | cash shows a banknote and transfer a phone, each exactly; everything else, ids and missing methods included, shows a card |
| CashRegisterView.OpenRequestFor | src/components/CashRegister/CashRegister.tsx:34-49 | nothing is sent exactly when the amount is empty or reads as a negative number; a sent amount is NaN or not negative |
| CashRegisterView.CloseRequestFor | src/components/CashRegister/CashRegister.tsx:69-88 | nothing is sent exactly when the amount is refused; otherwise the request names the register, carries the parsed amount, and carries the notes exactly when they are not empty |
| CashRegisterView.ZeroIsAccepted | src/components/CashRegister/CashRegister.tsx:35 | `0` opens a register with nothing in it |
| CashRegisterView.NegativeIsRefused | src/components/CashRegister/CashRegister.tsx:35 | `-5` is refused |
| CashRegisterView.NaNIsSent | src/components/CashRegister/CashRegister.tsx:35 | a non-empty amount with no number in it passes the guard and is sent as NaN |
| CashRegisterView.CashRegisterScreen.constructor | src/components/CashRegister/CashRegister.tsx:8-15 | no current register, both modals closed, empty amounts and notes, no summary |
| CashRegisterView.CashRegisterScreen.LoadCurrent | src/components/CashRegister/CashRegister.tsx:22-32 | a loaded answer becomes the current register; a failure keeps it; nothing else changes |
| CashRegisterView.CashRegisterScreen.OpenCashRegister | src/components/CashRegister/CashRegister.tsx:34-67 | the request sent is the one the guard allows; on success the returned register is current, the modal closes and the amount is cleared; otherwise nothing changes |
| CashRegisterView.CashRegisterScreen.CloseCashRegister | src/components/CashRegister/CashRegister.tsx:69-92 | nothing is sent without a current register or with a refused amount; on success no register is current, the open button shows again, the summary is the response's and the amount and notes are cleared; otherwise nothing changes |
| CashRegisterView.CashRegisterScreen.DismissSummary | src/components/CashRegister/CashRegister.tsx:101-104 | the close modal is hidden and the summary dropped, nothing else changing |
| CashRegisterView.DifferenceTone | src/components/CashRegister/CashRegister.tsx:292-296 | green exactly above zero, red exactly below, grey exactly at zero |
| CashRegisterView.DifferenceSign | src/components/CashRegister/CashRegister.tsx:297 | a `+` exactly for a positive difference |
| CashRegisterView.DifferenceBanner | src/components/CashRegister/CashRegister.tsx:302-312 | no banner exactly at zero, the surplus text exactly above, the shortage text exactly below |
| CashRegisterView.BannerMatchesTone | src/components/CashRegister/CashRegister.tsx:292-312 | green goes with the surplus text, red with the shortage text, grey with no banner |

## Left out

- HTTP: every `fetch` and `axios` call and the header construction are left out. A handler's backend answer, or its failure, is a parameter.
- Server-side rules are left out, because their code is not part of this model: the expected amount and difference of a cash session, order receive and cancel, and the adjustment ledger's previous and new stock. A closing summary is taken as the backend returns it.
- Product stock is modelled as the string the shared types declare, not as an integer. The stock-reading code parses that string, so an integer model could not show the NaN cases.
- Price bounds and stock texts are read by an integer-only `Number`; decimal prices are not modelled. Parsed JSON numbers are integers too.
- White space for `trim` and for the `\s` class of the e-mail pattern is ASCII white space only. Unicode spaces are not modelled.
- Dates: `toDateString`, `toLocaleString`, `new Date(text)` and time zones are left out. Days are abstract, and "today" is a parameter of the dashboard totals and of the collaborator's default form.
- The PDF layout of reports and tickets is left out. So is the width of a rendered string, which is an uninterpreted function.
- The profit-margin report (src/services/reportService.ts:291-340) is left out beyond its date filter: the per-item margin computation (fixed floating-point arithmetic), the per-product `totalSold`/`totalRevenue` aggregation into its map, and the sort by revenue. The report carries the sales it is computed from.
- `toFixed` formatting of amounts, and the inventory value total on the stock screen (a floating-point sum shown only as text), are left out.
- Reports.ReasonLabel: labels are read from a plain object, so a name inherited from `Object.prototype` (such as `toString`) would yield a function. Only string results are modelled.
- Spreading an array or a string into an object is not modelled; objects come from parsed JSON or from the handlers.
- The role record and the adjustment-reason and cash-register types are not in the shared types file. Their shapes are taken from how the code uses them.
- The user form's effect that loads an edited user into the form is not modelled; validation and the payloads are.
- Loading history and adjustment lists (`handleShowHistory`, `loadAdjustments`) is left out, because it is HTTP only.
- Loading spinners and `isLoading`/`saving` flags, toasts and the stock screen's polling are left out.
- The 5-second timer after closing a register is modelled as the separate method `DismissSummary`, not as a timer.
- JsObject.ObjectValues: `Object.values` on a string gives one value per UTF-16 code unit, so a character above U+FFFF gives two; the model gives one per character. RolesView.CountModule, RolesView.CountModules and RolesView.GetPermissionsCount inherit this for permissions stored as such strings.
- `getPaymentLabel`, called by the sales list, is defined in none of the modelled files and is not modelled.
- Text.ToLower: `toLowerCase` is modelled on ASCII and the Latin-1 capitals (À to Þ except ×) only; other scripts are left unchanged. The searches Pos.FilteredProducts, OrderBuy.FilteredOrders, StockView.Filtered, RolesView.FilterRoles, RolesView.SearchIgnoresCase, InventoryAdjustmentView.FilteredProducts and SalesView.FilteredSales inherit this.
- DataService.GetStoredData: a stored value is taken to have its key's list shape. A parsed value of another shape (such as `null` or an object) is returned as it is, and the caller's array methods then throw; that case is not modelled.
- Numbers.ParseFloat, Numbers.NumberOf and Numbers.ParseInt: exponents (`1e3`), `Infinity` and `0x` prefixes are not read. `Number("1e3")` is 1000 in JavaScript and NaN here; `parseFloat("1e3")` is 1000 in JavaScript and 1 here.
- JsObject.Get: a parsed object is taken to have distinct keys. `JSON.parse` keeps the last of duplicate keys, and `Get` would return the first.
- RolesView.AfterUpdate: the backend's handling of the status PUT is not part of this model. The list read back is taken to be the old one with `activo` set on the role the identifier names.
- Truncation.Shorten: `slice(0, -1)` drops one UTF-16 code unit, so on a character above U+FFFF the source first leaves half a surrogate pair; the model drops whole characters. Reports.TruncateText and Tickets.TruncateText inherit this.
- Blob downloads, `window.open` printing and the CSV file name (built from the clock) are left out. Only the CSV text is modelled.

## Findings

| source | as written | input that shows it | evidently intended | confidence | as-written member | corrected member |
|---|---|---|---|---|---|---|
| src/components/OrderBuy/OrderBuy.tsx:219-228 | each detail writes `parseInt(snapshot stock) + cantidad` from the stock loaded before the loop, so a second detail for the same product overwrites the first | an order with two details of 3 and 4 units for a product with stock 10 leaves stock 14 | every received detail is added, giving 17 | not executed | OrderBuy.LostUpdateExample | OrderBuy.ReceiveAllAddsEverything |
