# Alltech shop point of sale — a Dafny model

This project models the client-side core of a point-of-sale front end for a shop that
sells phone screens ("LCD") and accessories. The front end keeps its inventory and orders
in a realtime document database. It mirrors every inventory record into a full-text search
index with two indexes, `LCD` and `Shop1Accessory`.

Staff work with the following:

- the two paginated, searchable inventory lists, from which an item can be deleted;
- the two "add product" forms, with a live duplicate-name check and a completeness check;
- the accessory update form;
- the screen sale form, which either parks the sale in `Saved` or completes it into
  `Complete` and `Receipt`;
- the accessory sale form, which writes `CompleteAccessory` and `ReceiptAccessory`;
- the saved-orders screen, which completes or refunds a parked sale;
- the reporting screens (low stock, detailed data, dashboard), which read a REST back end
  through an authorised request that refreshes its token once;
- the role hook, the page guard and the sign-in flow.

The model takes the source's own form:

- **React state hooks and screens are classes.** Their `useState` cells are fields, and
  their handlers are methods with `modifies` clauses.
- **The remote SDKs are two classes.** These are `Store.Database` and `Store.SearchIndex`.
  Each awaited call is one method step, and an outcome parameter decides whether it
  succeeds.
- **Each flow has a specification function.** The writes a flow makes are a pure function
  of the old database and the outcomes: `Sell.RecordSale`, `Sell.SaveSale`,
  `Saved.FileOrder`, `Saved.RefundWrites` and `AddProduct.SubmitWrites`. Each method is
  proved to leave the database equal to that function.

The properties are stated about these functions:

- fresh keys and validity preserved;
- the two order collections receiving the identical record;
- a refund restoring exactly one unit;
- the page walk of the pagination hook listing the whole collection in key order;
- the token refresh running at most once.

JavaScript's coercions are modelled explicitly by `Amounts.Amount`: not a number, the empty
text, or a number. This covers `isNaN`, comparisons with `NaN`, `parseInt` truncating
toward zero, and `"" + 1` read back as a number; a numeric text is not told apart from
its number (see "## Left out").

The environment is passed in as parameters: the server clock (`now`), whether each SDK
call succeeds (`ok…`, `reply`), the records a live query delivers, and the HTTP statuses the
back end answers (`status: nat -> int`).

## Model

| member | source | states |
|---|---|---|
| Text.CustomerNameHasLetter | src/components/Sell.jsx:191 | a customer name the sale screens accept (non-blank, letters and white space only) holds at least one letter |
| Text.ContainsIff | src/components/Sell.jsx:154-156 | `includes` holds exactly when the searched text occurs at some position |
| Text.ContainsEmpty | src/components/Saved.jsx:173-176 | the empty search text is contained in every string |
| Text.DecimalPrefixShape | src/components/Sell.jsx:256-259 | the selling-price filter returns a prefix of what was typed, with the shape digits, optionally one separator, and at most two digits |
| Text.DecimalPrefixFixes | src/components/Sell.jsx:256-259 | a text already of that shape passes the filter unchanged |
| Text.DecimalPrefixIdempotent | src/components/Sell.jsx:256-259 | filtering twice gives the same as filtering once |
| Text.DecimalPrefixNoLetters | src/components/Sell.jsx:256-259 | the filtered text holds only digits and separators |
| Amounts.ParseInt | src/components/AddLcd.jsx:55 | `parseInt` of a form field: not a number exactly when the field is not a number; a whole number; truncation of a non-negative number is at most 1 below it |
| Amounts.ReadDecimal | src/components/Sell.jsx:183 | `Number` of a filtered price text: empty exactly for the empty text, a digit string reads as its value, never negative |
| Amounts.ReadDecimalNeverNegative | src/components/Sell.jsx:183 | no filtered price text compares below 0 |
| Store.UpdateIdempotent | src/components/Sell.jsx:72-82 | sending the same `update()` or `updateDocuments` patch twice leaves the record and the index document as sending it once does |
| Store.PatchDocs | src/components/Sell.jsx:77-82 | an index update adds the id and changes no other document |
| Store.Database.Push | src/components/Sell.jsx:74 | `push()` returns a key that is in no collection, and writes nothing |
| Store.Database.Get | src/components/Saved.jsx:74-76 | a point read fails exactly when its call fails; otherwise it finds the stored record or reports it missing |
| Store.Database.NameExists | src/customHooks/useProductExists.js:9-12 | the name query reports whether some record of the collection has exactly that name, and fails when the read fails |
| Pagination.From | src/customHooks/usePagination.js:18-21 | `startAt(key)` keeps a suffix of the collection |
| Pagination.Take | src/customHooks/usePagination.js:32 | `slice(0, n)` and `limitToFirst(n)` keep a prefix of at most `n` elements |
| Pagination.Query | src/customHooks/usePagination.js:18-21 | a query returns at most `limit` records |
| Pagination.FromKeyAt | src/customHooks/usePagination.js:20 | on a key-ordered collection, restarting at the key of position `i` yields exactly the records from `i` on |
| Pagination.QueryAt | src/customHooks/usePagination.js:18-21 | a query from the key of position `i` is the window of the collection that starts there |
| Pagination.Paginator.constructor | src/customHooks/usePagination.js:9-13 | no key, no products, no further page, not loading, no error |
| Pagination.Paginator.FetchData | src/customHooks/usePagination.js:15-22 | loading starts, the error is cleared and the query from the given key becomes current; the list is unchanged |
| Pagination.Paginator.OnValue | src/customHooks/usePagination.js:23-40 | a non-empty snapshot shows its first `pageSize` records (replacing on the first page, appending after), remembers its last key, and reports a further page exactly when `pageSize + 1` arrived; an empty one only clears `hasMore`; loading ends |
| Pagination.Paginator.OnError | src/customHooks/usePagination.js:41-45 | records the error and ends loading; the list is unchanged |
| Pagination.Paginator.LoadMore | src/customHooks/usePagination.js:55-59 | fetches from the remembered key only when not loading and a further page exists, else changes nothing |
| Pagination.NextPage | src/customHooks/usePagination.js:18-36 | a page fetched from position `j` extends the shown prefix by the next records, with a further page exactly when records remain, whose first key is remembered |
| Pagination.WindowPage | src/customHooks/usePagination.js:18-36 | any window of the next records from position `j` has the facts `NextPage` states, without the key ordering |
| Pagination.FirstPage | src/customHooks/usePagination.js:18-36 | the first page is the first `pageSize` records, with a further page exactly when the collection is longer |
| Pagination.NextPageWalked | src/customHooks/usePagination.js:18-36 | appending the page fetched from the remembered position keeps the list a prefix of the collection, consistent with `hasMore` and the next key, and longer than before |
| Pagination.WindowWalked | src/customHooks/usePagination.js:18-36 | appending any such window to the first `j` records is a walk as `Walked` defines it, longer than `j` |
| Pagination.LoadNext | src/customHooks/usePagination.js:55-59 | one "Load More" answered by the store keeps the shown list a prefix of the collection and makes it longer |
| Pagination.LoadFirst | src/customHooks/usePagination.js:50-53 | the mount effect answered by the store shows a prefix of the collection consistent with `hasMore` |
| Pagination.LoadAll | src/customHooks/usePagination.js:15-59 | mounting and pressing "Load More" until no further page exists lists every record of an unchanging collection exactly once, in key order |
| Search.SearchHook.constructor | src/customHooks/useSearch.js:9-12 | the initial query text, no results, not loading, no notice |
| Search.SearchHook.Begin | src/customHooks/useSearch.js:15-23 | an empty query clears the results and sends nothing; any other starts loading, clears the notice and is sent |
| Search.SearchHook.Finish | src/customHooks/useSearch.js:24-34 | hits become the results exactly, with the "No items found" notice when there are none; a failure keeps the results and raises an error notice with its message; loading ends |
| Search.SearchHook.HandleSearch | src/customHooks/useSearch.js:14-35 | the whole search: empty query clears, otherwise the reply's hits, notice and loading as above |
| Forms.HandleChange | src/customHooks/useForm.js:5-10 | the named field takes the value, whether or not it existed; every other field is kept |
| Forms.HandleChangeLastWins | src/customHooks/useForm.js:5-10 | a second change of the same field overrides the first |
| Forms.HandleChangeCommutes | src/customHooks/useForm.js:5-10 | changes of different fields commute |
| Forms.EditIsHandleChange | src/customHooks/useForm.js:5-10 | editing the record is the generic field update applied to its object |
| Forms.FormHook.constructor | src/customHooks/useForm.js:4 | the data starts as the initial values |
| Forms.FormHook.HandleChange | src/customHooks/useForm.js:5-10 | the data becomes the edited record |
| Forms.CompleteHasNumbers | src/customHooks/useValidate.js:8-19 | a complete form holds non-negative numbers in both numeric fields |
| Forms.Validator.constructor | src/customHooks/useValidate.js:4 | `isValid` starts false |
| Forms.Validator.Validate | src/customHooks/useValidate.js:5-22 | returns and stores exactly whether the name is not blank and quantity and price are truthy and not negative |
| Forms.ProductExists.constructor | src/customHooks/useProductExists.js:6 | `exists` starts false |
| Forms.ProductExists.Check | src/customHooks/useProductExists.js:8-14 | a successful check stores whether the collection has the name; a failed one throws and keeps the state |
| Customers.MatchesEmpty | src/components/Sell.jsx:154-156 | every name matches the empty filter text |
| Customers.DistinctCustomers | src/components/Sell.jsx:132-138 | the receipts loop lists each non-empty customer name of the receipts exactly once and nothing else |
| Customers.Suggestions | src/components/Sell.jsx:154-156 | the suggestions are exactly the names that contain the typed text, ignoring case |
| Customers.SuggestionsDistinct | src/components/Sell.jsx:154-156 | filtering distinct names keeps them distinct |
| Customers.CustomerField.constructor | src/components/Sell.jsx:32-35 | empty customer, no names, no suggestions, preview hidden |
| Customers.CustomerField.OnReceipts | src/components/Sell.jsx:128-140 | a non-empty receipts snapshot replaces the names with its distinct customer names; an empty one changes nothing |
| Customers.CustomerField.HandleCustomerSearch | src/components/Sell.jsx:147-159 | the field takes the text; a blank text hides the preview, any other refilters the names and shows them |
| Customers.CustomerField.SelectCustomer | src/components/Sell.jsx:161-164 | takes the chosen name and hides the preview |
| Sell.SalePricesDiverge | src/components/Sell.jsx:65-82 | after a screen sale the record carries the selling price and the index document the stock price, both with one unit less |
| Sell.RecordSale | src/components/Sell.jsx:225-229 | the product update, then the record under two fresh keys in the two order collections, stopping at the first failure; nothing else changes and validity is kept |
| Sell.RecordSaleTwins | src/components/Sell.jsx:225-229 | when every write succeeds, each order collection gains exactly one new key, and both hold the identical record |
| Sell.WriteSale | src/components/Sell.jsx:224-229 | the awaited writes leave the database as `RecordSale` says and report whether all succeeded |
| Sell.SaveSale | src/components/Sell.jsx:72-75 | the product update, then the record under one fresh key in `Saved`, stopping at the first failure |
| Sell.Mirror | src/components/Sell.jsx:77-93 | the index changes only when every store write succeeded and the index task was enqueued; then only the sold product's document changes, taking the record's name and quantity, and a new document takes the sent price |
| Sell.ValidateForm | src/components/Sell.jsx:166-200 | accepts exactly a valid sale, and each failed check rejects with its own message, in order |
| Sell.ZeroStockSells | src/components/Sell.jsx:175 | a stock of 0 passes validation and the product is then written with quantity -1 |
| Sell.ValidSaleQuantity | src/components/Sell.jsx:175 | an accepted screen sale writes a numeric quantity of at least -1 |
| Sell.CheckValue | src/components/Sell.jsx:261-263 | the field holds a prefix of the typed text, of decimal shape, which never reads as negative |
| Sell.SellScreen.constructor | src/components/Sell.jsx:31-44 | no stock, a selling price of 0, empty customer field, nothing sent |
| Sell.SellScreen.OnProduct | src/components/Sell.jsx:105-126 | a found product becomes the stock and its price the selling price; otherwise nothing changes |
| Sell.SellScreen.OnPriceInput | src/components/Sell.jsx:261-263 | the selling price becomes the filtered text |
| Sell.SellScreen.Complete | src/components/Sell.jsx:52-102 | a rejected form writes nothing; an accepted one leaves the database as `SaveSale` and the index as `Mirror` say, and navigates exactly when all steps succeeded |
| Sell.SellScreen.HandleSubmit | src/components/Sell.jsx:202-254 | a rejected form writes nothing; an accepted one leaves the database as `RecordSale` into `Complete` and `Receipt`, and the index as `Mirror` says |
| SellAccessory.PriceText.Number | src/components/SellAccessory.jsx:139 | `parseFloat` of the unit price: a loaded number is kept, anything else loaded is not a number; a typed empty text or lone "." is not a number, a digit run reads as its decimal value, and no typed text reads as negative |
| SellAccessory.PriceChangeKeepsShape | src/components/SellAccessory.jsx:217-223 | the price field only ever holds an acceptable text |
| SellAccessory.TypedPriceNotNegative | src/components/SellAccessory.jsx:217-223 | a typed unit price never reads as negative |
| SellAccessory.QuantityInput | src/components/SellAccessory.jsx:250 | the quantity input always holds a whole number, the truncation of what was typed |
| SellAccessory.ValidateForm | src/components/SellAccessory.jsx:111-158 | accepts exactly a valid accessory sale, and each failed check rejects with its own message, in order |
| SellAccessory.SaleStaysInStock | src/components/SellAccessory.jsx:121-138 | an accepted sale of a whole quantity from a numeric stock leaves between 0 and one less than the stock |
| SellAccessory.SaleMirrorAgrees | src/components/SellAccessory.jsx:174-193 | the record keeps its name and price, and the index document carries the same name, quantity and price |
| SellAccessory.UnreadableStockPasses | src/components/SellAccessory.jsx:130 | a stock that is not a number lets any positive quantity through, and the product is written with a non-number |
| SellAccessory.SellAccessoryScreen.constructor | src/components/SellAccessory.jsx:23-33 | no stock, empty price and quantity texts, nothing sent |
| SellAccessory.SellAccessoryScreen.OnProduct | src/components/SellAccessory.jsx:45-71 | a found product becomes the stock and its price the unit price text; otherwise nothing changes |
| SellAccessory.SellAccessoryScreen.OnPriceInput | src/components/SellAccessory.jsx:217-223 | the price becomes `PriceChange` of what was typed |
| SellAccessory.SellAccessoryScreen.OnQuantityInput | src/components/SellAccessory.jsx:250 | the quantity becomes the whole-number reading of what was typed |
| SellAccessory.SellAccessoryScreen.Complete | src/components/SellAccessory.jsx:160-215 | a rejected form writes nothing; an accepted one leaves the database as `RecordSale` into the accessory order collections, and the index as `Mirror` says |
| SellAccessory.SellAccessoryScreen.Commit | src/components/SellAccessory.jsx:164-214 | the product update and the two order writes as `RecordSale`, then the index document as `Mirror`; the flag stays set and the screen navigates only when the index task is enqueued |
| Saved.Insert | src/components/Saved.jsx:130 | inserting keeps the orders as a multiset and adds one |
| Saved.InsertSorted | src/components/Saved.jsx:130 | inserting into a newest-first list keeps it newest first |
| Saved.SortByTime | src/components/Saved.jsx:130 | the sort is a permutation |
| Saved.SortByTimeSorted | src/components/Saved.jsx:130 | the sort lists newest first |
| Saved.BuildListing | src/components/Saved.jsx:119-131 | the listener's loop and sort list every saved order once, newest first |
| Saved.Find | src/components/Saved.jsx:140 | finds a listed order with the id exactly when one exists |
| Saved.FilterOrders | src/components/Saved.jsx:173-176 | keeps exactly the orders whose customer or product name contains the term, ignoring case |
| Saved.FilterKeepsNewestFirst | src/components/Saved.jsx:173-176 | filtering a newest-first listing leaves it newest first |
| Saved.FilterEmptyKeepsAll | src/components/Saved.jsx:173-176 | an empty term keeps the whole listing |
| Saved.FileOrder | src/components/Saved.jsx:45-69 | two fresh keys, the record in `Complete` and `Receipt`, then the removal from `Saved`, stopping at the first failure |
| Saved.RefundAddsOne | src/components/Saved.jsx:78-89 | a refund puts back exactly one unit whatever the order's quantity, and keeps the price of record and document |
| Saved.RefundWrites | src/components/Saved.jsx:77-92 | the product update, then the removal of the saved entry, stopping at the first failure |
| Saved.CompleteOrder | src/components/Saved.jsx:45-69 | the awaited writes leave the database as `FileOrder` says and throw exactly when a write failed |
| Saved.RefundOrder | src/components/Saved.jsx:71-101 | a failed read or a missing product writes nothing; otherwise the database is as `RefundWrites` says and the index gets the one extra unit only when that task is enqueued |
| Saved.SavedScreen.constructor | src/components/Saved.jsx:107-113 | no data, not loading, dialog closed, empty search term |
| Saved.SavedScreen.Mount | src/components/Saved.jsx:117-118 | loading starts |
| Saved.SavedScreen.OnSaved | src/components/Saved.jsx:119-133 | the data becomes the newest-first listing of the snapshot; loading ends |
| Saved.SavedScreen.Shown | src/components/Saved.jsx:173-176 | nothing before the first snapshot; then exactly the listed orders matching the term, the whole listing for an empty term, newest first when the listing is |
| Saved.SavedScreen.AskRefund | src/components/Saved.jsx:244 | opens the confirmation for the order |
| Saved.SavedScreen.Target | src/components/Saved.jsx:140-141 | the listed order with the id, none exactly when nothing is listed or no order has it |
| Saved.SavedScreen.Complete | src/components/Saved.jsx:138-149 | an unlisted id writes nothing; otherwise the order is filed as `FileOrder` says |
| Saved.SavedScreen.Refund | src/components/Saved.jsx:151-166 | an unlisted id writes nothing; otherwise the order is refunded as `RefundWrites` says, and the screen index gets the product's document with one unit more only when that update is enqueued, the accessory index untouched; the dialog closes on every path |
| AddProduct.NewDocMirrorsRecord | src/components/AddLcd.jsx:52-70 | the index document carries the record's name, quantity and price; a complete form gives non-negative numbers |
| AddProduct.SubmitWrites | src/components/AddLcd.jsx:43-60 | nothing when the gate says the name exists; otherwise a fresh key with the new record under it |
| AddProduct.StaleGateDuplicates | src/components/AddLcd.jsx:42-51 | gated by a stale `false` while the store holds the name, a submit leaves two records with that name |
| AddProduct.FreshGateNoDuplicate | src/components/AddLcd.jsx:42-51 | gated by what the store holds, a submit never adds a record with a name the collection already had |
| AddProduct.AddProductScreen.constructor | src/components/AddLcd.jsx:14-28 | empty fields, not valid, no duplicate seen, not saving |
| AddProduct.AddProductScreen.OnEdit | src/customHooks/useForm.js:5-10 | the form data becomes the edited record |
| AddProduct.AddProductScreen.OnDataChange | src/components/AddLcd.jsx:32-37 | the validity flag, and with it the submit button (`isDisabled={!isValid}`, line 162), becomes the completeness of the data; a non-empty name is checked for duplicates |
| AddProduct.AddProductScreen.Input | src/components/AddLcd.jsx:32-37 | after an edit and the effect it triggers, the submit button is enabled exactly when the edited data is complete |
| AddProduct.AddProductScreen.HandleSubmit | src/components/AddLcd.jsx:38-92 | the writes of `SubmitWrites` gated by the `exists` state from before the awaited check; a failed check writes nothing and keeps `exists`; `saving` ends false; the accessory screen (src/components/AddAccessory.jsx:41-93) is the same with `Accessory` and its index |
| AddProduct.AddProductScreen.HandleSubmitFresh | src/components/AddLcd.jsx:42-51 | the corrected submit: gated by the result of the awaited check, so an existing name writes nothing; a failed check writes nothing and keeps `exists` |
| AddProduct.AddProductScreen.Insert | src/components/AddLcd.jsx:52-81 | a fresh key, the record, then the index document; navigates only when the index task is enqueued |
| UpdateAccessory.ValidateForm | src/components/UpdateAccessories.jsx:56-79 | accepts exactly a non-blank name, a non-negative quantity and a positive price, and each failed check rejects with its own message |
| UpdateAccessory.ClearedFields | src/components/UpdateAccessories.jsx:64-76 | a cleared quantity passes validation while a cleared price does not |
| UpdateAccessory.UpdateMirrorAgrees | src/components/UpdateAccessories.jsx:88-100 | the stored record becomes the form data and the index document carries the same name, quantity and price |
| UpdateAccessory.UpdateAccessoryScreen.constructor | src/components/UpdateAccessories.jsx:16-19 | no data, not sending |
| UpdateAccessory.UpdateAccessoryScreen.OnProduct | src/components/UpdateAccessories.jsx:25-48 | a found record becomes the form data; otherwise nothing changes |
| UpdateAccessory.UpdateAccessoryScreen.HandleChange | src/components/UpdateAccessories.jsx:49-55 | the named field takes the typed value |
| UpdateAccessory.UpdateAccessoryScreen.HandleSubmit | src/components/UpdateAccessories.jsx:80-120 | an invalid form writes nothing; a valid one updates the record when that call succeeds and the index document whatever the store did; navigates only on an enqueued task |
| Listing.Display | src/components/ItemList.jsx:189-205 | skeletons exactly while either source loads; otherwise the search hits if any, else the products, else the "No items" text |
| Listing.LoadMoreExtendsProducts | src/components/ItemList.jsx:207 | whenever "Load More" shows beside cards, those cards are the loaded products |
| Listing.BadgeMatchesSell | src/components/ItemList.jsx:118-124 | for a numeric quantity, Sell is enabled exactly when the item shows in stock |
| Listing.UnreadableQuantitySellable | src/components/ItemList.jsx:118-124 | a quantity that is not a number shows out of stock, yet Sell stays enabled |
| Listing.ListingScreen.constructor | src/components/ItemList.jsx:55-59 | an empty search, dialog closed, nothing being deleted |
| Listing.ListingScreen.AskDelete | src/components/ItemList.jsx:147-150 | remembers the item and opens the dialog |
| Listing.ListingScreen.HandleDelete | src/components/ItemList.jsx:78-94 | removes the record when that succeeds, then the index document; clears the search once both calls returned; the dialog closes on every path; the accessory list (src/components/Accessories.jsx:70-86) is the same |
| Rest.FetchWithAuth | src/components/LowStock.jsx:56-83 | a response only when ok; at most one extra request and one refresh, taken exactly on a first 401 |
| Rest.FetchBounded | src/components/LowStock.jsx:65-72 | a call makes one or two requests and at most one refresh, and redirects exactly when its refresh fails |
| Rest.UnauthorizedRetriedOnce | src/components/LowStock.jsx:65-77 | after a first 401 and a good refresh, the retry's response is final, a second 401 being an error |
| Rest.OtherStatusFinal | src/components/LowStock.jsx:75-79 | any other first status is final |
| Rest.FilterRows | src/components/LowStock.jsx:119-123 | keeps exactly the rows some field of which contains the term, ignoring case |
| Rest.FilterEmptyTerm | src/components/LowStock.jsx:119-123 | an empty term keeps every row that has a field |
| Rest.FilterAppend | src/components/LowStock.jsx:92 | filtering the accumulated rows filters each loaded page and joins them |
| Rest.PagedRows.constructor | src/components/LowStock.jsx:22-25 | no rows, no next page, not loading |
| Rest.PagedRows.FetchData | src/components/LowStock.jsx:85-105 | a response appends its rows and replaces the next page; an error keeps both and ends loading; the redirect leaves loading on |
| Rest.PagedRows.Open | src/components/LowStock.jsx:107-110 | the table is emptied, then the first page fetched |
| Rest.PagedRows.LoadMore | src/components/LowStock.jsx:113-117 | fetches the next page when there is one, else changes nothing |
| Rest.PagedRows.ClickLoadMore | src/components/LowStock.jsx:167-174 | the disabled button (no next page, or a page loading) changes nothing and sends no request; the enabled one fetches the next page |
| Rest.Columns | src/components/DetailedDataView.jsx:33-37 | each report shows the product name first, then its own columns, each once: sales price, quantity and customer name; products total quantity; low stock quantity |
| Rest.DetailUrlsDistinct | src/components/DetailedDataView.jsx:120 | each report has its own address |
| Rest.LowStockIsDetailReport | src/components/LowStock.jsx:109 | the low-stock screen's address is the detailed view's low-stock report address (src/components/DetailedDataView.jsx:120) and no other report's |
| Rest.LowStockView.constructor | src/components/LowStock.jsx:22-25 | an empty table, no next page, not loading |
| Rest.LowStockView.Mount | src/components/LowStock.jsx:107-111 | the table is emptied and the low-stock report's first page fetched |
| Rest.DetailedDataView.constructor | src/components/DetailedDataView.jsx:25-29 | the low-stock report over an empty table |
| Rest.DetailedDataView.SelectType | src/components/DetailedDataView.jsx:118-121 | choosing a report empties the table and fetches that report's first page |
| Dashboard.MonthNamesInOrder | src/components/Dashboard.jsx:33-41 | 1 is January, 12 December, and different months have different names |
| Dashboard.TopCustomer | src/components/Dashboard.jsx:137-149 | the first frequent customer, a falsy name or count shown as a skeleton, or "no data" when there is none |
| Dashboard.FrequentRows | src/components/Dashboard.jsx:220 | the first five frequent customers, or five skeleton rows before the summary arrives |
| Dashboard.TopCustomerHeadsTable | src/components/Dashboard.jsx:137-149 | the top-customer card names the first row of the table |
| Dashboard.DashboardScreen.constructor | src/components/Dashboard.jsx:28 | no summary |
| Dashboard.DashboardScreen.FetchDashboardData | src/components/Dashboard.jsx:97-116 | a response becomes the summary; an error or the redirect leaves it unset |
| Access.RoleOf | src/customHooks/useUserRole.js:22-30 | the profile's role when it has one, "user" otherwise, including a failed lookup |
| Access.UserRoleHook.constructor | src/customHooks/useUserRole.js:7-8 | no role, loading |
| Access.UserRoleHook.OnAuthState | src/customHooks/useUserRole.js:11-34 | no user, no role; a signed-in user gets the derived role; loading ends |
| Access.GuardEffects | src/customHooks/useAuth.js:12-38 | no user: straight to login; a profile: nothing more; otherwise a sign-out |
| Access.GuardSignsOutBeforeRedirect | src/customHooks/useAuth.js:13-37 | a signed-in user reaches login only after a sign-out; a user with a profile is never sent away |
| Access.AuthGuard.OnAuthState | src/customHooks/useAuth.js:12-38 | appends the guard's effects, in order |
| Access.RejectedStatus | src/components/Signin.jsx:62-66 | a response outside 2xx is thrown with the message "Request failed with status code " followed by its status in decimal |
| Access.SignInOutcome | src/components/Signin.jsx:23-85 | admitted exactly for a profile with a role and a token exchange answered with 200; another 2xx status ends silently, any other status fails with the rejection's message; no profile and no role have their own outcomes |
| Access.RolelessProfileAdmittedByGuard | src/customHooks/useAuth.js:24-31 | a profile without a role passes the guard although sign-in refuses it |
| Access.SignInScreen.constructor | src/components/Signin.jsx:18 | not loading, no tokens |
| Access.SignInScreen.SignInWithGoogle | src/components/Signin.jsx:23-85 | the outcome of `SignInOutcome`; tokens stored and home opened only when admitted; loading ends on every path |

## Left out

- Rendering, colours, toasts and their texts are not modelled, except the notices the
  search hook exposes, the validators' messages and the badge texts.
- Server timestamps are the `now` parameter, one value per user action.
- Floating-point rounding and `toFixed` price formatting are left out. Numbers are reals.
- Debounce timers, the re-delivery of live snapshots after remote changes, unsubscribed
  listeners and concurrent edits by other sessions are not modelled. The sale and update
  screens require the product to be stored when they write, so a concurrent delete is
  outside the model.
- `UpdateAccessory.UpdateAccessoryScreen.HandleChange` and `HandleSubmit` require loaded
  data. The form is only rendered once the record has loaded.
- Rest.FetchWithAuth: the stored access token, the refresh token, request headers and the
  storing of a refreshed access token are not modelled. The back end is the `status` and
  `refreshOk` oracle.
- Rest.FilterRows: `toString()` of a null field value, which throws, is not modelled. Every
  field is a text.
- Dashboard: the top-product card is not modelled. It reads the first element of a list
  that may be empty. The chart library, the remaining summary cards and the skeleton
  layout are not modelled either.
- Dashboard.DashboardScreen.FetchDashboardData: the JSON body is a parameter. Parsing it is
  not modelled.
- Access: the Google popup, the identity token and the profile lookup are inputs. The
  navigation of the role hook's consumers is not modelled.
- Access.SignInOutcome: of axios, only its default rejection of a response outside 2xx,
  with that error's message, is modelled. The request itself is the `exchange` input.
- Sell.SellScreen.Complete and HandleSubmit: the `send` and `completeB` flags are modelled.
  The disabled state of the buttons they drive is not.
- The navigation bar, the chat widget, routing, the service worker and the Firebase and
  MeiliSearch configuration hold no logic of their own and are not part of this model.
- Amounts: a text that reads as a number is an `Amount` like the number, so `"5" + 1`
  (the text "51" in JavaScript) is not distinguished from `5 + 1`. `Amounts.Plus` is only
  applied to a stored screen quantity, which the add form writes as `parseInt` of its
  field, a number or `NaN` and never a text, so the distinction does not arise there.
- UpdateAccessory.ClearedFields: the inputs' `required` attribute and the browser's
  constraint validation, which blocks a submit with a cleared field before the handler
  runs, are not modelled. The lemma is about `validateForm` alone.
- Text.IsSpace: the Unicode space separators beyond U+00A0 are not modelled.
- Text.Lower: lower-casing is modelled for ASCII letters only.

## Findings

| source | as written | input that shows it | evidently intended | confidence | as-written member | corrected member |
|---|---|---|---|---|---|---|
| src/components/AddLcd.jsx:42-51 (same in src/components/AddAccessory.jsx:45-54) | `handleSubmit` awaits `checkProductExists` but then tests the `exists` state captured when the handler was created, so the result of the awaited check is ignored by this submit | the store already holds "iPhone X" but `exists` is still `false`: the effect's check has not answered yet, or it failed. Submitting "iPhone X" pushes a second record with that name | the submit is gated on the result of the check it awaits, so an existing name is never written twice | medium, not executed | AddProduct.AddProductScreen.HandleSubmit, AddProduct.StaleGateDuplicates | AddProduct.AddProductScreen.HandleSubmitFresh, AddProduct.FreshGateNoDuplicate |
