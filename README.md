# Inventory front-end: session guard, storage transitions and page state machines

This project models the client-side logic of a single-page inventory application. The
application has CRUD screens for customers, suppliers, categories, products, purchases and
sales, a dashboard, and username/password authentication with access/refresh token
rotation. The model covers these parts:

- **Local storage** (`Storage`). A process-wide `map<string,string>` behind a `LocalStorage` class with `SetItem` and `Clear`.
- **API client** (`Api`).
  - The request interceptor attaches `Authorization: Bearer <token>` (section 2.1 of RFC 6750). The token is read afresh from storage for every request.
  - The response interceptors pass results and errors through unchanged.
- **Session guard** (`PrivateRoute`).
  - `hasAccess` has three states: undecided, granted, denied.
  - It checks expiry against the `exp` claim (section 4.1.4 of RFC 7519).
  - It tries one silent refresh with the stored refresh token.
  - It renders a placeholder, the protected view, or a history-replacing redirect to `/login`.
- **Login, registration and logout** (`Login`, `Register`, `Logout`). The storage writes, clears and navigations each page performs on success and on failure.
- **Line-item editor** of the purchase and sales pages (`LineItems`).
  - Rows are added, edited (with a price looked up by product id) and removed.
  - The subtotal is kept equal to `Σ price × amount`.
  - Submit posts a header and one item per row.
- **Dashboard** (`Dashboard`).
  - The six list requests and the positional binding of their results.
  - The first three records per card.
  - The low-stock rule that decides whether the low-stock list is fetched.
  - The entry labels, the empty-card rule and the grid of six cards read from the overview.
- **Edit-mode forms** (`RecordForm`, `Supplier`).
  - The Product, Customer and Category pages share one `EditForm` class, parameterised by a `Page` value. The Supplier page keeps its own six state fields.
  - Each form is either adding or editing a record id. Its operations are populate-from-list, reset, and a submit that PUTs to `<endpoint><id>/` or POSTs to `<endpoint>`.
- **HTML `pattern` validators** (`Patterns`).
  - Price `[0-9]+(\.[0-9][0-9]?)?`, stock `[0-9]+`, phone `\d{10}`.
  - The price pattern has its own matcher, proved equal to the language of the pattern. The stock and phone patterns are stated directly as their languages.
  - The rules of section 4.10.5.3.6 of the WHATWG HTML Standard apply: the pattern must match the whole value, and an empty value is checked only by `required`.

Things outside the model are parameters:

- **HTTP outcomes** are inputs. `Response<D>` is `Ok(status, data)` or `Fail`, where `Fail` is a rejected promise.
- **Calls.** Every page operation returns the calls it issues.
- **Async handlers** with a loading flag are split in two. `Submit` runs up to the awaited call. `Settle` runs once it has settled.
- **Library and environment values.**
  - `jwtDecode` is a partial function from token to claims.
  - The current time is an integer number of milliseconds.
  - The two storage key names are a `Keys` parameter, because their values live in a constants module that is not part of this model.

Some JavaScript semantics are written out explicitly:

- `getItem` truthiness: a stored empty string counts as no token.
- `setItem(k, undefined)` stores the text `"undefined"`.
- `undefined < n` is false, so a token without `exp` never expires. `null < n` compares `null` as 0, so a token whose `exp` is `null` has expired.
- Reading `access` off a `null` refresh answer throws, and the guard's `catch` denies.
- `parseInt` on decimal text reads an optional sign and the longest digit prefix.
- `${n}` is modelled as the decimal text of `n`.

Three places where the code departs from its evident intent or from the standard it follows. The model follows the code in each:

- **Logout does not always clear storage.** The page exists to end the session. Its `finally` sends the user to `/login` in every outcome, which shows the page is meant to finish whether or not the server call works. But the code clears storage inside the `try`, after the awaited blacklist call, so a failed call skips the clear and the session survives (see Findings).
- **Expiry equal to now is still valid.** Section 4.1.4 of RFC 7519 says a token must not be accepted on or after its expiration time. The code tests `expiry < now`, so it still accepts the token at the exact instant of expiry, one instant too late (`PrivateRoute.Expired`).
- **A failed low-stock request still updates the overview.** This is the model's reading of the code's order. The dashboard fetches the low-stock list only after `setOverviewData`. If that request fails, the overview has already been replaced and only the alert list keeps its old value (`Dashboard.Load`).

## Model

| member | source | states |
|---|---|---|
| `Storage.GetItem` | src/api.js:5-7 | `getItem`: null exactly for a missing key, otherwise the stored string |
| `Storage.LocalStorage.SetItem` | src/pages/Login.jsx:21-22 | storage afterwards is the old map with that one key set |
| `Storage.LocalStorage.Clear` | src/pages/Register.jsx:21 | storage afterwards is empty |
| `Api.WithAccessToken` | src/api.js:15-20 | a truthy token gives an `Authorization` header whose Bearer credential is exactly that token; a null or empty token leaves the headers as they were; no header other than `Authorization` is added, removed or changed |
| `Api.BearerCredentials` | src/api.js:18 | the `Bearer ${token}` header value, from which `BearerToken` reads the token back |
| `Common.Truthy` | src/api.js:17 | the `if (token)` test on a stored string: false for a missing key (null) and for the empty string, true otherwise |
| `Common.JsString` | src/pages/Login.jsx:21-22 | the text `setItem` stores for a property: the string itself, or `"undefined"` when the property is missing |
| `Api.InterceptRequest` | src/api.js:14-21 | the same config object is returned; its headers become `WithAccessToken` of the token in storage at that moment; verb, url and data are untouched |
| `Api.RequestStage` | src/api.js:22-25 | a request-stage rejection is passed on with the same error; a resolved request gets the token header |
| `Api.ResponseStage` | src/api.js:28-34 | a response and an error both reach the caller unchanged |
| `Api.Dispatch` | src/api.js:14-34 | one call: the transport sees the intercepted headers once, and its outcome is the caller's outcome (no retry, no refresh at this layer); a request-stage rejection never reaches the transport |
| `PrivateRoute.Guard.constructor` | src/components/PrivateRoute.jsx:9 | the guard starts undecided |
| `PrivateRoute.Render` | src/components/PrivateRoute.jsx:57-59 | placeholder iff undecided, the children iff authorized, a replacing redirect to `/login` iff denied |
| `PrivateRoute.RefreshCall` | src/components/PrivateRoute.jsx:25 | a POST to `/api/token/refresh/` with a body of exactly `refresh`: the stored refresh token |
| `PrivateRoute.Expired` | src/components/PrivateRoute.jsx:47-50 | the integer test agrees with `expiry < Date.now() / 1000` on real numbers; a missing `exp` never expires; a `null` one compares as 0, so it has expired at any time after the epoch |
| `PrivateRoute.Renew` | src/components/PrivateRoute.jsx:16-37 | never undecided; authorized iff a refresh token is stored and the refresh call answers 200 with non-null data; one refresh call carrying the stored token iff it is stored, none otherwise; on success only the access key changes, to `data.access`; otherwise storage is unchanged |
| `PrivateRoute.Verify` | src/components/PrivateRoute.jsx:11-55 | never undecided; authorized iff the token is live, or expired and renewed with status 200 and non-null data; at most one call, sent iff the token is expired and a refresh token is stored; storage changes only at the access key and only on a granted renewal |
| `PrivateRoute.Guard.RenewAccessToken` | src/components/PrivateRoute.jsx:16-37 | `hasAccess`, storage and the calls sent are those of `Renew` on the storage it started from |
| `PrivateRoute.Guard.VerifyAuth` | src/components/PrivateRoute.jsx:40-55 | `hasAccess`, storage and the calls sent are those of `Verify` on the storage it started from |
| `PrivateRoute.NoTokenDenies` | src/components/PrivateRoute.jsx:41-45 | missing or empty access token: denied, no call, storage unchanged |
| `PrivateRoute.LiveTokenGrants` | src/components/PrivateRoute.jsx:47-53 | `exp` not before now, equality included: authorized with no call and storage unchanged |
| `PrivateRoute.ExpiredWithoutRefreshDenies` | src/components/PrivateRoute.jsx:17-22 | expired token and no refresh token: denied, no call |
| `PrivateRoute.RenewalReplacesOnlyAccess` | src/components/PrivateRoute.jsx:25-29 | expired token renewed with 200: authorized, one call with the refresh token, the access key holds the new token, every other key (the refresh key too) unchanged |
| `PrivateRoute.FailedRenewalDenies` | src/components/PrivateRoute.jsx:30-36 | non-200 or rejected refresh: denied, storage unchanged, exactly the one call, nothing thrown |
| `PrivateRoute.UndecodableDenies` | src/components/PrivateRoute.jsx:47 | a token `jwtDecode` rejects ends denied (through the effect's catch) |
| `PrivateRoute.NullExpiryRenews` | src/components/PrivateRoute.jsx:47-51 | a token whose `exp` is `null` is treated as expired: the guard goes on to `renewAccessToken` |
| `PrivateRoute.NullRefreshDataDenies` | src/components/PrivateRoute.jsx:25-36 | a 200 refresh answer with `null` data throws at `response.data.access` and ends denied, with storage unchanged and the one call sent |
| `PrivateRoute.MissingExpiryGrants` | src/components/PrivateRoute.jsx:50 | a token without `exp` is treated as live |
| `PrivateRoute.NextRequestCarriesRenewedToken` | src/api.js:16-18 | after a renewal, the next request's Bearer credential is the renewed token |
| `Login.StoreAfterLogin` | src/pages/Login.jsx:20-25 | success writes the access and refresh keys with the returned tokens; no other key changes; failure, or a `null` answer that throws at `data.access`, leaves storage as it was |
| `Login.LoginCall` | src/pages/Login.jsx:18-19 | a POST to `api/token/` with a body of exactly `username` and `password` |
| `Login.LoginPage.constructor` | src/pages/Login.jsx:9-11 | not loading, both fields empty |
| `Login.LoginPage.SetUsername` | src/pages/Login.jsx:73 | the username field takes the input value |
| `Login.LoginPage.SetPassword` | src/pages/Login.jsx:91 | the password field takes the input value |
| `Login.LoginPage.Submit` | src/pages/Login.jsx:16-19 | loading is on; the call posts to `api/token/` with a body of exactly `username` and `password` |
| `Login.LoginPage.Settle` | src/pages/Login.jsx:20-26 | loading is off; storage is `StoreAfterLogin`; navigation to `/` only on a success whose data is not `null` |
| `Login.LoginOpensSession` | src/pages/Login.jsx:20-23 | after a successful login with an unexpired token the guard authorizes without a call |
| `Register.RegisterPage.constructor` | src/pages/Register.jsx:8-11 | not loading, all fields empty |
| `Register.RegisterCall` | src/pages/Register.jsx:18-19 | a POST to `api/user/register/` with a body of exactly `username`, `email` and `password` |
| `Register.RegisterPage.SetUsername` | src/pages/Register.jsx:73 | the username field takes the input value |
| `Register.RegisterPage.SetEmail` | src/pages/Register.jsx:92 | the email field takes the input value |
| `Register.RegisterPage.SetPassword` | src/pages/Register.jsx:111 | the password field takes the input value |
| `Register.RegisterPage.Submit` | src/pages/Register.jsx:16-19 | loading is on; the call posts a body of exactly `username`, `email`, `password` |
| `Register.RegisterPage.Settle` | src/pages/Register.jsx:20-25 | loading is off; success clears all of storage and goes to `/login`; failure keeps storage and does not navigate |
| `Logout.PerformLogout` | src/pages/Logout.jsx:9-23 | as written: navigates to `/login` always; a blacklist call carrying the token iff the literal key `"refresh"` holds one; storage cleared when there is no token or the call succeeds, kept when it fails |
| `Logout.BlacklistCall` | src/pages/Logout.jsx:13 | a POST to `/api/token/blacklist/` with a body of exactly `refresh`: the token read under the literal key |
| `Logout.Run` | src/pages/Logout.jsx:10-22 | storage, calls and navigation are those of `PerformLogout` |
| `Logout.IntendedLogout` | src/pages/Logout.jsx:16 | corrected: the same calls, storage always emptied, navigation to `/login` |
| `Logout.FailedLogoutKeepsSession` | src/pages/Logout.jsx:13-20 | counterexample: after a failed blacklist call the guard still authorizes |
| `Logout.IntendedLogoutEndsSession` | src/pages/Logout.jsx:11-16 | after the corrected logout the guard denies whatever the inputs, with no call |
| `Common.Find` | src/pages/Purchase.jsx:47 | `find`: none iff no element satisfies the predicate, otherwise the first that does |
| `Decimal.ShowInt` | src/pages/Product.jsx:73 | `${n}`: a minus sign exactly for a negative n, then digits with no leading zero except for 0 itself |
| `Decimal.ParseInt` | src/pages/Purchase.jsx:47 | `parseInt` on decimal text: NaN exactly when no digit follows the optional sign; no minus sign gives a non-negative value |
| `Decimal.ParseShowInt` | src/pages/Purchase.jsx:47 | `parseInt` reads back the id written into an option value |
| `Decimal.ShowIntInjective` | src/pages/Product.jsx:73 | different ids have different decimal texts |
| `LineItems.LookupPrice` | src/pages/Purchase.jsx:46-49 | the price of the first product whose id is `parseInt` of the value (`costPrice` for purchases, `sellingPrice` for sales, src/pages/Sales.jsx:53-56), 0 when none matches, and 0 for `""` |
| `LineItems.UnitPrice` | src/pages/Purchase.jsx:48 | the product's `costPrice` on the purchase page, its `sellingPrice` on the sales page (src/pages/Sales.jsx:55) |
| `LineItems.Quantity` | src/pages/Purchase.jsx:63 | the amount as `*` reads it: a blank input counts as 0, a number as itself |
| `LineItems.LineTotal` | src/pages/Purchase.jsx:63 | `item.price * item.amount` for one row, with the blank amount as 0 |
| `LineItems.Subtotal` | src/pages/Purchase.jsx:61-67 | `calculateSubtotal`, the reduce from the left starting at 0: 0 for no rows, and equal to the first row's line total plus the subtotal of the rest, so it is the plain sum of price × amount (also src/pages/Sales.jsx:68-74) |
| `LineItems.ApplyEdit` | src/pages/Purchase.jsx:42-51 | an amount edit changes only the amount; a product edit sets the id and the looked-up price and keeps the amount |
| `LineItems.WithoutIndex` | src/pages/Purchase.jsx:55-57 | the rows without element `index`, the rest in order; an out-of-range index gives the rows unchanged |
| `LineItems.SubtotalAppend` | src/pages/Purchase.jsx:35-40 | appending a row adds exactly its line total |
| `LineItems.SubtotalConcat` | src/pages/Purchase.jsx:61-67 | the subtotal of a concatenation is the sum of the subtotals |
| `LineItems.SubtotalWithout` | src/pages/Purchase.jsx:55-58 | removing row `i` takes exactly its line total off |
| `LineItems.SubtotalReplace` | src/pages/Purchase.jsx:42-52 | replacing row `i` changes the subtotal by the difference of the line totals |
| `LineItems.SelectingListedProduct` | src/pages/Purchase.jsx:46-49 | with distinct ids, selecting a listed product sets that product's price |
| `LineItems.HeaderCall` | src/pages/Purchase.jsx:76 | a POST to `api/purchases/` with the supplier, or to `api/sales/` with the customer (src/pages/Sales.jsx:83-85) |
| `LineItems.ItemCall` | src/pages/Purchase.jsx:80-84 | a POST to the items endpoint carrying the header id, the row's product and its amount (src/pages/Sales.jsx:89-93) |
| `LineItems.ItemCalls` | src/pages/Purchase.jsx:78-86 | one item call per row, in order, each carrying the new header id |
| `LineItems.ListCall` | src/pages/Purchase.jsx:93 | the GET of `api/purchases/` or `api/sales/` that refreshes the record list (on the sales page `fetchSales`, src/pages/Sales.jsx:16-23) |
| `LineItems.LineItemEditor.constructor` | src/pages/Purchase.jsx:10-16 | no rows, subtotal 0 (the subtotal of no rows), empty party |
| `LineItems.LineItemEditor.ReceiveCatalogue` | src/pages/Purchase.jsx:21-32 | the product list is replaced on success and kept on failure |
| `LineItems.LineItemEditor.SetParty` | src/pages/Purchase.jsx:124 | the supplier (or customer) select takes the value |
| `LineItems.LineItemEditor.AddRow` | src/pages/Purchase.jsx:35-40 | exactly one blank row is appended, earlier rows unchanged, subtotal invariant kept without recomputation (also src/pages/Sales.jsx:42-47) |
| `LineItems.LineItemEditor.ChangeField` | src/pages/Purchase.jsx:42-53 | only row `index` changes, by `ApplyEdit`; the subtotal moves by the difference of its line totals and stays `Σ price × amount` (also src/pages/Sales.jsx:49-60) |
| `LineItems.LineItemEditor.RemoveRow` | src/pages/Purchase.jsx:55-59 | rows become `WithoutIndex`; subtotal drops by the removed line total; out of range changes nothing (also src/pages/Sales.jsx:62-66) |
| `LineItems.LineItemEditor.Submit` | src/pages/Purchase.jsx:69-100 | the header call first, then one item call per row with the header id, then the list call; full success empties the rows, zeroes the subtotal and clears the party; a rejected header or item call leaves rows, subtotal and party as they were; a rejected list call keeps the cleared form and the old records (also src/pages/Sales.jsx:76-107) |
| `Dashboard.ListCalls` | src/pages/Dashboard.jsx:37-44 | the six GET requests in `Promise.all` order |
| `Dashboard.FirstThree` | src/pages/Dashboard.jsx:46-53 | the first min(3, n) records in order |
| `Dashboard.AnyLowStock` | src/pages/Dashboard.jsx:55-57 | true iff some record has a stock quantity of at most 3; a missing quantity never qualifies |
| `Dashboard.LowStock` | src/pages/Dashboard.jsx:56 | `item.stockQuantity <= 3`: true for a quantity of at most 3, false for a missing one |
| `Dashboard.Bind` | src/pages/Dashboard.jsx:30-44 | positional: `suppliersRes` gets the categories data, `categoriesRes` the products data, `productsRes` the suppliers data; by resource: each name its own request |
| `Dashboard.DataOf` | src/pages/Dashboard.jsx:46-52 | the `data` of each resolved response, position by position |
| `Dashboard.OverviewOf` | src/pages/Dashboard.jsx:46-53 | `setOverviewData`: each card's list is the first three records of the response bound to its name |
| `Dashboard.Load` | src/pages/Dashboard.jsx:28-67 | the six calls always; one rejection leaves overview and alert unchanged; otherwise the overview is the first three of each bound list; the low-stock call is sent iff a record bound to `productsRes` is low; no low stock sets the alert to empty; a low-stock rejection keeps the old alert |
| `Dashboard.PositionalCardsShowOtherResources` | src/pages/Dashboard.jsx:30-53 | as written, the categories card shows products, the products card suppliers, the suppliers card categories |
| `Dashboard.LowStockMissedAsWritten` | src/pages/Dashboard.jsx:55-61 | counterexample: a product with one item left brings no banner as written, and does when bound by resource |
| `Dashboard.ByResourceMatchesRequests` | src/pages/Dashboard.jsx:30-61 | corrected: every card shows its own request, and the low-stock call goes out iff some product is low |
| `Dashboard.DashboardPage.constructor` | src/pages/Dashboard.jsx:17-25 | empty overview, empty alert |
| `Dashboard.DashboardPage.GetAllData` | src/pages/Dashboard.jsx:28-67 | state and calls are those of `Load` with the positional binding |
| `Dashboard.EntryLabel` | src/pages/Dashboard.jsx:210-212 | purchases and sales show `Total: ` and the total; others the name, or `ID: ` and the id when the name is missing or empty |
| `Dashboard.CardOf` | src/pages/Dashboard.jsx:203-230 | "No data available." iff there are no entries; otherwise one label per entry in order; "View All" to the section link iff there are entries |
| `Dashboard.EntriesOf` | src/pages/Dashboard.jsx:187 | `overviewData[section.key]`: the overview list under the section's resource |
| `Dashboard.Grid` | src/pages/Dashboard.jsx:185-230 | one card per section in order, titled by the section, empty exactly when the overview holds nothing under the section's key |
| `Dashboard.PositionalGridShowsOtherResources` | src/pages/Dashboard.jsx:30-53 | as written, the Categories, Products and Suppliers cards render the first three records of the products, suppliers and categories responses |
| `Dashboard.ByResourceGridShowsOwnRequests` | src/pages/Dashboard.jsx:37-53 | corrected binding: card i renders the first three records of request i |
| `Dashboard.FallbackLabelCarriesId` | src/pages/Dashboard.jsx:212 | the fallback label is `ID: ` followed by text `parseInt` reads back as the id |
| `Patterns.MatchesPriceIsLanguage` | src/pages/Product.jsx:147 | the price matcher accepts exactly `[0-9]+(\.[0-9][0-9]?)?` matched whole |
| `Patterns.Matches` | src/pages/Product.jsx:147-182 | each pattern accepts exactly its language: price, `[0-9]+` for stock (line 182), ten ASCII digits for phone (src/pages/Customer.jsx:97, src/pages/Supplier.jsx:92) |
| `Patterns.RequiredPatternIsWholeMatch` | src/pages/Product.jsx:143-147 | on a `required` control, the browser accepts a value iff the pattern matches all of it |
| `Patterns.PriceRejectsTrailingText` | src/pages/Product.jsx:147 | a valid price followed by a non-digit is rejected: the match is anchored |
| `Patterns.PriceFractionAtMostTwo` | src/pages/Product.jsx:147 | a valid price has one or two digits after its point |
| `RecordForm.Coerce` | src/pages/Product.jsx:47-51 | `is_active` is stored as `value === "true"`, every other field verbatim |
| `RecordForm.Request` | src/pages/Product.jsx:70-74 | PUT to `<endpoint><id>/` iff editing, POST to the endpoint iff not; the body is the form (src/pages/Customer.jsx:52-58, src/pages/Category.jsx:37-41) |
| `RecordForm.ListCall` | src/pages/Product.jsx:27-34 | the GET of the page's list path (`api/products/all/` for products) that fills the record list |
| `RecordForm.Target` | src/pages/Product.jsx:73 | the PUT path: the page endpoint, the id's `${id}` text and a closing `/` (its read-back is `RecordForm.TargetNamesRecord`) |
| `RecordForm.Selected` | src/pages/Product.jsx:87 | none iff no listed record has the id, otherwise the first that has it |
| `RecordForm.Populate` | src/pages/Product.jsx:88-97 | the page's fields copied from the selected record, undefined where it lacks one (src/pages/Customer.jsx:72-77, src/pages/Category.jsx:56) |
| `RecordForm.EditForm.constructor` | src/pages/Product.jsx:10-25 | the blank form, not editing, empty list, not loading |
| `RecordForm.EditForm.Fetch` | src/pages/Product.jsx:27-34 | one list call; the list is replaced on success and kept on failure; loading ends off |
| `RecordForm.EditForm.HandleChange` | src/pages/Product.jsx:47-51 | only the named field changes, to its coerced value (src/pages/Customer.jsx:38-41, src/pages/Category.jsx:79); while adding, `is_active` stays true |
| `RecordForm.EditForm.ResetForm` | src/pages/Product.jsx:53-64 | every field back to its blank default (`is_active` true) and not editing (src/pages/Customer.jsx:43-46, src/pages/Category.jsx:61-64) |
| `RecordForm.EditForm.StartEdit` | src/pages/Product.jsx:86-100 | a listed id fills the form by `Populate` and starts editing it; an absent id changes nothing (src/pages/Customer.jsx:69-80, src/pages/Category.jsx:53-59) |
| `RecordForm.EditForm.Submit` | src/pages/Product.jsx:66-74 | loading is on and the call is `Request` of the current form and editing id |
| `RecordForm.EditForm.Settle` | src/pages/Product.jsx:76-83 | success refetches the list and resets to not editing; failure leaves form, editing id and list unchanged; loading ends off (src/pages/Customer.jsx:57-66, src/pages/Category.jsx:43-50) |
| `RecordForm.TargetNamesRecord` | src/pages/Product.jsx:73 | the PUT path is the endpoint, the id's decimal text that reads back as the id, and `/` |
| `RecordForm.TargetsDistinct` | src/pages/Product.jsx:73 | two records never share a PUT path |
| `RecordForm.NewProductsStartActive` | src/pages/Product.jsx:218-248 | a product is always added with `is_active` true, because the status radios render only while editing |
| `RecordForm.SubmittedProductIsNumeric` | src/pages/Product.jsx:142-199 | a product form the browser submits has prices matching the price pattern whole, a digit-only stock and a chosen category |
| `RecordForm.SubmittedCustomerHasPhone` | src/pages/Customer.jsx:95-111 | a customer form the browser submits has a ten-digit phone and no empty field |
| `Supplier.Payload` | src/pages/Supplier.jsx:35-40 | the four field states under the keys `name`, `phone`, `email`, `address` |
| `Supplier.PopulatedPayload` | src/pages/Supplier.jsx:58-68 | copying the four properties one by one builds the form the shared edit form would populate |
| `Supplier.SupplierManager.constructor` | src/pages/Supplier.jsx:9-16 | blank fields, not updating, no id, empty list |
| `Supplier.SupplierManager.SetSupplierName` | src/pages/Supplier.jsx:91 | the name field takes the input value |
| `Supplier.SupplierManager.SetSupplierPhone` | src/pages/Supplier.jsx:92 | the phone field takes the input value |
| `Supplier.SupplierManager.SetSupplierEmail` | src/pages/Supplier.jsx:93 | the email field takes the input value |
| `Supplier.SupplierManager.SetAddress` | src/pages/Supplier.jsx:94 | the address field takes the input value |
| `Supplier.SupplierManager.FetchSuppliers` | src/pages/Supplier.jsx:18-25 | one list call; the list is replaced on success and kept on failure |
| `Supplier.SupplierManager.HandleUpdate` | src/pages/Supplier.jsx:58-68 | a listed id copies its four properties, sets the id and `isUpdating`; an absent id changes nothing; `isUpdating` iff an id is set |
| `Supplier.SupplierManager.HandleCancel` | src/pages/Supplier.jsx:70-77 | blank fields, no id, not updating |
| `Supplier.SupplierManager.Submit` | src/pages/Supplier.jsx:31-45 | the same request the shared edit form makes for the four-field payload and the current id |
| `Supplier.SupplierManager.Settle` | src/pages/Supplier.jsx:46-55 | success refetches and ends not updating with blank fields; failure leaves every field unchanged |
| `Supplier.UpdatingDecidesMethod` | src/pages/Supplier.jsx:42-44 | with the flag and the id in step, updating PUTs to `api/suppliers/<id>/` and otherwise POSTs to `api/suppliers/` |

## Left out

- axios itself is not modelled: the base URL, the 10-second timeout and the transport. Every call is an input outcome.
- Concurrency is not modelled:
  - the parallel requests of `Promise.all`;
  - loading flags raced by overlapping fetches;
  - the partial server state left when some item posts of a submit fail;
  - several guards refreshing at once;
  - requests still in flight after unmount.

  Each page's handlers run one at a time, and a submit settles before the next event.
- These side effects are not modelled: `alert`, `console.error`, `window.location.reload`.
- `jwtDecode` is not modelled beyond its result. Base64 and JSON decoding belong to a library.
- The values of the two storage key constants are not modelled: the constants module is not part of this model. The logout page's literal `"refresh"` is kept distinct from the refresh key parameter.
- `src/App.jsx` (routes and the `api/user/` liveness check), `src/components/Navbar.jsx` and all markup and animation are presentation and are not modelled.
- JavaScript number coercion is not modelled.
  - Prices and amounts are integers (for instance cents). A blank amount counts as 0.
  - `type="number"` inputs never hold other text.
- `Decimal.ParseInt`: reads decimal text only. It does not model the `0x`/`0X` prefix read as hexadecimal (`parseInt("0x1A")` is 26, `parseInt("0x")` is NaN) or the leading white space `parseInt` skips. The only texts it is given are `""` and option values written as `${prod.id}`, which carry neither.
- `PrivateRoute.Verify` and `PrivateRoute.Renew`: an `exp` claim may be absent, `null` or a whole number of seconds. A fractional `exp`, which the NumericDate of section 2 of RFC 7519 allows, is not modelled: at `nowMs = 1500` an `exp` of 1.5 is live, and the model cannot express it. Other JSON values (a string, a boolean) are not modelled either. A refresh answer's data may be an object or `null`. Other shapes, such as a bare string, are not modelled.
- `LineItems.LineItemEditor.Submit`: a header answer whose `data` is `null` is not modelled. In the code, destructuring `data: { id }` throws, so no item call is sent and the form is kept (src/pages/Purchase.jsx:74-76, src/pages/Sales.jsx:81-83). The model takes a resolved header to carry an id.
- `Dashboard.Load`: a list answer whose `data` is `null` is not modelled. In the code, `.data.slice` throws before `setOverviewData`, and the `catch` leaves overview and alert unchanged (src/pages/Dashboard.jsx:46-52). The model takes every resolved list to carry an array.
- `LineItems.LineItemEditor.ChangeField`: does not model the shallow copy in `handleProductChange`. That copy mutates the row object the previous state still shares. The model replaces rows by value.
- These line-item fetches are not modelled: the initial fetch of the supplier/customer select lists, the `isLoading` flag of the line-item pages, and the record list's own failure alert. The product list fetch is `ReceiveCatalogue`.
- The product page's fetch of category options is not modelled. It only fills the select's option list.
- The text of the low-stock banner is not modelled. It renders when the alert list is nonempty, and `Dashboard.Load` decides that list.
- `RecordForm.Shown`: an undefined form value is shown as empty text. This simplifies how React treats a `value` that becomes undefined.
- `RecordForm.EditForm.HandleChange`: requires that the field belongs to the page and that an edit-only field is changed only while editing. These are the controls the page renders, so no other event reaches the handler.
- Whether the form was edited between submit and settle is not modelled. `Settle` uses the state it finds.
- The browser's own `type="email"` validation is not modelled. It belongs to the browser, not the code.

## Findings

| source | as written | input that shows it | evidently intended | confidence | as-written member | corrected member |
|---|---|---|---|---|---|---|
| src/pages/Dashboard.jsx:30-44 | the destructured names (customers, suppliers, categories, products) do not follow the request order (customers, categories, products, suppliers), so `productsRes` holds the suppliers data | products `[{id: 7, stockQuantity: 1}]` and suppliers with no stock quantity: no low-stock request, and the Products card lists suppliers | each name bound to the response of its own resource | not executed | `Dashboard.LowStockMissedAsWritten` | `Dashboard.ByResourceMatchesRequests` |
| src/pages/Logout.jsx:13-20 | `localStorage.clear()` sits in the `try` after the awaited blacklist call, so a failed call skips it and the session survives logout | storage `{access: "a", refresh: "r"}`, blacklist call rejected: the guard still authorizes the next protected view | ignore the failed invalidation and clear storage in every outcome | not executed | `Logout.FailedLogoutKeepsSession` | `Logout.IntendedLogoutEndsSession` |
