# StockFlow core, modelled in Dafny

StockFlow is a single-device inventory and order app for small businesses. Its logic
lives in three state providers and a few screens. The auth provider handles the
profile, sign-in and the subscription life cycle. The product provider is an inventory
store with low-stock and search queries. The order provider stores orders and keeps a
customer list. The screens contribute the order cart, the order-history filter and
sort, the add-product form, the receipt text, the route guard and a keyword "assistant".

The model keeps each source file's own form:

- Providers and screens whose state the source updates in place are classes:
  - `Auth.AuthProvider`, `Products.ProductStore` and `Orders.OrderStore`;
  - `Cart.CreateOrderScreen`, `AddProduct.AddProductScreen` and `Assistant.AIProvider`.

  Their methods state the whole new state against `old(...)`.
- Device storage (SecureStore and AsyncStorage) is a set of fields on those classes.
  Each field has type `Stored<T>`: `Absent`, `Parsed(value)` or `Corrupt`. `Corrupt`
  stands for a payload that `JSON.parse` rejects.
- Queries and decisions are functions:
  - filters and sums;
  - the subscription recompute rule;
  - the redirect chain, the comparator sort and the keyword dispatch.
- Text the source builds step by step is an imperative method proved against a list of
  pieces:
  - the receipt text (`+=`);
  - the insight lists (`push`).

Time is an integer count of milliseconds passed in by the caller (`Auth.DAY` is one
day). Fresh ids (`Date.now().toString()`) are parameters too. A JavaScript number that
may be `NaN` is `Js.Number`. `parseInt` is `Js.ParseInt`. Letter case is folded on ASCII
only (`Text.ToLower`).

Helper modules: `Wrappers` (Option, Stored), `Seqs` (filter, sum), `Text`
(lower-casing, `includes`, `trim`, decimal rendering) and `Js` (numbers, `parseInt`).

What the code does at a few points that are easy to misread:

- An order's `total` is whatever the caller supplied. It is never recomputed from the
  items, and an update may leave it stale.
- `updateProduct` / `updateOrder` on an unknown id return `undefined` (`None`) rather
  than raising a not-found error. They still rewrite and persist the unchanged
  collection.
- Storage write failures are logged and swallowed, not propagated.
- A corrupt stored payload does not replace the in-memory collection. The load throws
  before `setProducts` / `setOrders`, so the collection keeps its previous value.
  For orders, the throw also skips loading the customers.
- The stores offer no name/price/stock sort. The only sort is order history's
  date/total comparator.

## Model

| member | source | states |
|---|---|---|
| Auth.Recompute | context/AuthContext.js:66-73 | Only the status changes. Expired iff now is past the hard end (or it was already expired). Active iff within the hard end and either active or a trial past its trial end. Trial iff an unexpired trial not yet past its trial end. A missing trial end never counts as passed. |
| Auth.RecomputeIdempotent | context/AuthContext.js:69-73 | Recomputing twice at the same instant equals recomputing once. |
| Auth.RecomputeNeverRevertsToTrial | context/AuthContext.js:69-73 | A subscription that is not a trial never becomes one. |
| Auth.IsSubscriptionActive | context/AuthContext.js:191-201 | The gate is true iff a subscription exists, now is within its hard end, and its status is trial or active. |
| Auth.RecomputePreservesActive | context/AuthContext.js:69-73 | Recomputing at `now` does not change the gate's answer at `now`. |
| Auth.NewTrial | context/AuthContext.js:110-117 | New profile: trial starting now, trial end at +30 days, hard end at +60 days, price 500 NGN, no payment yet. |
| Auth.NewTrialEndsBeforeHardEnd | context/AuthContext.js:113-114 | The new trial ends strictly before its hard end. |
| Auth.NewTrialTimeline | context/AuthContext.js:69-73 | After creation at t: trial through day 30, active through day 60, expired after. The gate is open iff now ≤ t+60 days. |
| Auth.Renewed | context/AuthContext.js:175-180 | Renewal: status active, hard end now+30 days, last payment now, other fields kept. Spreading a missing subscription leaves them unset. |
| Auth.RenewedTimeline | context/AuthContext.js:175-180 | A renewal keeps the gate open, and recompute keeps the status active, for exactly the 30 paid days. After that the status is expired. |
| Auth.AuthProvider.constructor | context/AuthContext.js:10-14 | Initial state: signed out, no user, loading, no biometrics, no subscription, over the given storage. |
| Auth.AuthProvider.CheckBiometricSupport | context/AuthContext.js:22-26 | Biometrics are supported iff the hardware is present and enrolled. Nothing else changes. |
| Auth.AuthProvider.CheckAuthState | context/AuthContext.js:28-57 | Authenticated iff a token is stored and the user data parses, and then the user is that data. A token with corrupt data clears both slots. Loading ends. |
| Auth.AuthProvider.CheckSubscriptionStatus | context/AuthContext.js:60-81 | A parsed stored subscription is recomputed at now, held and written back. Otherwise nothing changes. |
| Auth.AuthProvider.CreateProfile | context/AuthContext.js:101-131 | User = profile + id + now. Subscription = NewTrial(now). Both are persisted, the token is the id, and the user is authenticated. |
| Auth.AuthProvider.Login | context/AuthContext.js:133-157 | With biometrics, success is the prompt's result. Without, success means a token and parseable user data, and the user is loaded. It authenticates iff successful. |
| Auth.AuthProvider.Logout | context/AuthContext.js:159-170 | Clears the user, the subscription, the session and all three storage slots. |
| Auth.AuthProvider.RenewSubscription | context/AuthContext.js:173-189 | The held and stored subscription become Renewed(old subscription, now). |
| Products.Created | context/ProductContext.js:38-43 | New product: given id or the fresh one, every given field kept, created and updated at now. |
| Products.Merge | context/ProductContext.js:59 | `{...product, ...patch, updatedAt}`: each field the patch sets wins, the update time becomes now. Stated through MergeStockOnly and UpdateFindsMerged. |
| Products.MergeStockOnly | context/ProductContext.js:82-85 | A stock patch changes only the stock and the update time. |
| Products.UpdateWhere | context/ProductContext.js:57-61 | Same length. Each product with the id is merged with the patch at now. The others are unchanged. |
| Products.Find | context/ProductContext.js:64 | None iff no product has the id. Otherwise the first product with that id. |
| Products.UpdateUnknownIsNoop | context/ProductContext.js:55-64 | Updating an absent id leaves the collection unchanged and returns nothing. |
| Products.UpdateFindsMerged | context/ProductContext.js:55-64 | For a present id (with the patch keeping ids), the product returned is the first match merged with the patch. |
| Products.WithoutId | context/ProductContext.js:73 | The result holds exactly the products whose id differs. |
| Products.DeleteIdempotent | context/ProductContext.js:71-80 | Deleting an absent id changes nothing, and deleting twice equals deleting once. |
| Products.DeleteKeepsOrder | context/ProductContext.js:73 | Deletion keeps the remaining order: it distributes over concatenation. |
| Products.Threshold | context/ProductContext.js:92 | The alert level if it is set and non-zero, else 10. |
| Products.LowStock | context/ProductContext.js:91-93 | Exactly the products with stock ≤ threshold. |
| Products.LowStockBoundary | context/ProductContext.js:92 | Stock equal to the threshold is low. Stock one above it is not. |
| Products.OutOfStock | context/ProductContext.js:95-97 | Exactly the products with stock 0. |
| Products.OutOfStockIsLowStock | context/ProductContext.js:92-96 | With non-negative alert levels, every out-of-stock product is also low on stock. |
| Products.Search | context/ProductContext.js:99-106 | An empty query returns everything. Otherwise exactly the products whose name or category contains the query (case folded) or whose barcode contains it. |
| Products.SearchIgnoresCase | context/ProductContext.js:101-103 | Over products without barcodes, queries equal up to case give the same result. |
| Products.BarcodeIsCaseSensitive | context/ProductContext.js:104 | A barcode "AB12" does not match the query "ab". |
| Products.ByCategory | context/ProductContext.js:108-112 | Exactly the products whose category equals the argument, case folded. |
| Products.TotalValue | context/ProductContext.js:114-116 | The sum of price × stock over the products. Stated through TotalValueAppend and TotalValueNonNegative. |
| Products.TotalValueAppend | context/ProductContext.js:114-116 | Adding a product adds its price × stock to the total value. |
| Products.TotalValueNonNegative | context/ProductContext.js:114-116 | With non-negative prices and stocks, the total value is non-negative. |
| Products.ProductStore.constructor | context/ProductContext.js:8-9 | Initial state: empty and loading, over the given storage. |
| Products.ProductStore.LoadProducts | context/ProductContext.js:15-26 | A parsed snapshot replaces the products. A missing or corrupt one keeps them. Loading ends. |
| Products.ProductStore.AddProduct | context/ProductContext.js:36-53 | Appends Created(data, id, now), persists the collection and returns the new record. |
| Products.ProductStore.UpdateProduct | context/ProductContext.js:55-69 | The collection becomes UpdateWhere(...) and is persisted. Returns the first record with the id. |
| Products.ProductStore.DeleteProduct | context/ProductContext.js:71-80 | The collection becomes WithoutId(...) and is persisted. |
| Products.ProductStore.UpdateStock | context/ProductContext.js:82-89 | The same as updating with the patch `{stock: n}`. |
| Orders.Created | context/OrderContext.js:51-57 | New order: given id or the fresh one, every given field kept, status pending, created and updated at now. |
| Orders.CustomerOf | context/OrderContext.js:64-70 | A customer is derived iff name and phone are non-empty. It carries name and phone, and the email or "". |
| Orders.Merge | context/OrderContext.js:83 | `{...order, ...patch, updatedAt}`: each field the patch sets wins, the update time becomes now. Stated through TotalSalesIgnoresNonTotalUpdate. |
| Orders.UpdateWhere | context/OrderContext.js:81-85 | Same length. Each order with the id is merged with the patch. The others are unchanged. |
| Orders.Find | context/OrderContext.js:88 | None iff no order has the id. Otherwise the first order with it. |
| Orders.UpdateUnknownIsNoop | context/OrderContext.js:79-88 | Updating an absent id leaves the orders unchanged. |
| Orders.WithoutId | context/OrderContext.js:97 | The result holds exactly the orders whose id differs. |
| Orders.DeleteIdempotent | context/OrderContext.js:95-104 | Deleting twice equals deleting once, and deletion keeps the remaining order. |
| Orders.PhoneIndex | context/OrderContext.js:108-110 | The first index with that phone, or the length when there is none. |
| Orders.Upserted | context/OrderContext.js:106-128 | The customer list after `addOrUpdateCustomer`. Stated through UpsertKnownPhone, UpsertUnknownPhone, UpsertKeepsPhonesUnique and RepeatPhoneKeepsOneCustomer. |
| Orders.UpsertKnownPhone | context/OrderContext.js:113-119 | Known phone: same length, the first match gets the new name, phone and email and last order date now, and every other customer is unchanged. |
| Orders.UpsertUnknownPhone | context/OrderContext.js:120-128 | Unknown phone: exactly one customer is appended, created and last ordering at now. |
| Orders.UpsertKeepsPhonesUnique | context/OrderContext.js:106-128 | If phones were unique before the upsert, they are unique after it. |
| Orders.RepeatPhoneKeepsOneCustomer | context/OrderContext.js:106-128 | Two upserts with the same new phone: the earlier customers are unchanged, one customer is appended with the first id and date, the later name and email, and the later last order date. It is the only customer with that phone. |
| Orders.ByStatus | context/OrderContext.js:138-140 | Exactly the orders with that status. |
| Orders.ByDateRange | context/OrderContext.js:142-147 | Exactly the orders created within both inclusive bounds. |
| Orders.ByCustomer | context/OrderContext.js:153-155 | Exactly the orders that carry that customer id. |
| Orders.TotalSales | context/OrderContext.js:149-151 | The sum of `total || 0` over the orders. Stated through TotalSalesAppend and TotalSalesIgnoresNonTotalUpdate. |
| Orders.TotalSalesAppend | context/OrderContext.js:149-151 | A new order adds its total, or 0 when it has none. |
| Orders.TotalSalesIgnoresNonTotalUpdate | context/OrderContext.js:79-88 | An update that does not set the total leaves total sales unchanged. |
| Orders.OrderStore.constructor | context/OrderContext.js:9-11 | Initial state: empty and loading, over the given storage. |
| Orders.OrderStore.LoadData | context/OrderContext.js:17-31 | Parsed snapshots replace the held lists. A corrupt orders payload also skips the customers. Loading ends. |
| Orders.OrderStore.AddOrUpdateCustomer | context/OrderContext.js:106-136 | The customers become Upserted(old customers, data, id, now) and are persisted. |
| Orders.OrderStore.CreateOrder | context/OrderContext.js:49-77 | Appends Created(...) and persists it. Upserts the derived customer iff there is one, otherwise leaves the customers unchanged. |
| Orders.OrderStore.UpdateOrder | context/OrderContext.js:79-93 | The orders become UpdateWhere(...) and are persisted. Returns the first with the id. |
| Orders.OrderStore.DeleteOrder | context/OrderContext.js:95-104 | The orders become WithoutId(...) and are persisted. |
| Cart.LineIndex | app/create-order.jsx:22 | The first line for that product id, or the length when there is none. |
| Cart.Added | app/create-order.jsx:22-33 | The line list after adding a product with a parsed quantity. Stated through AddExisting, AddNew and AddedKeepsIdsUnique. |
| Cart.AddExisting | app/create-order.jsx:22-25 | A product already in the order: that line's quantity grows by the parsed amount, and the number of lines and the other lines are unchanged. |
| Cart.AddNew | app/create-order.jsx:27-33 | A new product: exactly one line appended, with that product and the parsed quantity. |
| Cart.AddedKeepsIdsUnique | app/create-order.jsx:22-33 | The product ids of the lines stay unique. |
| Cart.TotalPrice | app/create-order.jsx:40 | The NaN-propagating reduce of price × quantity. Stated through TotalPriceIsLineSum. |
| Cart.TotalPriceIsLineSum | app/create-order.jsx:40 | The total equals the sum of price × quantity when every quantity parsed, and NaN when one did not. |
| Cart.CreateOrderScreen.constructor | app/create-order.jsx:12-14 | Initial state: nothing selected, quantity "1", no lines. |
| Cart.CreateOrderScreen.AddToOrder | app/create-order.jsx:16-38 | Nothing changes without a selection, with empty quantity text, or when the id is unknown. Otherwise the lines become Added(...) and the selection resets to null and "1". |
| History.Compare | app/order-history.jsx:28-40 | The comparator: date or total differences in either direction, NaN when a side is missing, 0 for an unknown key. Stated through BeforeIsKeyLess, UnsortedKeepsOrder and the four order lemmas below. |
| History.Sort | app/order-history.jsx:28-41 | The sorted list is a permutation of its input. |
| History.UnsortedKeepsOrder | app/order-history.jsx:38-39 | An unrecognised key keeps the input order. |
| History.SortKeepsTies | app/order-history.jsx:28-41 | The sort is stable: when every order carries the key, the orders with any one key value come out in input order. |
| History.InsertKeepsTies | app/order-history.jsx:28-41 | Inserting a keyed order into a sorted list puts it after every order with its key. |
| History.InsertSorted | app/order-history.jsx:28-41 | Inserting into a list sorted by a present key keeps it sorted. |
| History.SortSorted | app/order-history.jsx:28-41 | When every order carries the key, the sorted keys never decrease. |
| History.FilteredOrders | app/order-history.jsx:24-41 | A permutation of the matching orders. An order is listed iff its customer name contains the search text, case folded. |
| History.EmptySearchKeepsAll | app/order-history.jsx:25-27 | An empty search lists every order, and in input order under an unknown key. |
| History.FilteredSorted | app/order-history.jsx:24-41 | Under a recognised key that every order carries, the listed orders are sorted by that key. |
| History.DateDescNewestFirst | app/order-history.jsx:30-31 | Under dateDesc, with every order dated, dates never increase down the list. |
| History.DateAscOldestFirst | app/order-history.jsx:32-33 | Under dateAsc, dates never decrease down the list. |
| History.TotalHighFirst | app/order-history.jsx:34-35 | Under totalHigh, with every total present, totals never increase down the list. |
| History.TotalLowFirst | app/order-history.jsx:36-37 | Under totalLow, totals never decrease down the list. |
| RouteGuard.Redirect | app/_layout.jsx:15-36 | At most one target, and it is one of /login, the dashboard or /subscription. |
| RouteGuard.NoRedirectWhileLoading | app/_layout.jsx:16 | No redirect while loading. |
| RouteGuard.ToLoginIff | app/_layout.jsx:21-23 | /login iff not loading, signed out and outside (auth). |
| RouteGuard.ToDashboardIff | app/_layout.jsx:24-26 | The dashboard iff not loading, signed in and inside (auth). |
| RouteGuard.ToSubscriptionIff | app/_layout.jsx:27-34 | /subscription iff not loading, signed in, subscription inactive, in (tabs), and the last segment is a protected screen. |
| RouteGuard.ActiveNeverPaywalled | app/_layout.jsx:27 | An active subscription is never sent to /subscription. |
| RouteGuard.UnprotectedTabStays | app/_layout.jsx:27-35 | A signed-in user on an unprotected tab screen is not redirected. |
| AddProduct.Form.With | app/add-product.jsx:22-24 | Sets the named field to the value and leaves every other field unchanged. |
| AddProduct.WithLaws | app/add-product.jsx:22-24 | Writing back a field's own value changes nothing. A second write to a field overrides the first. |
| AddProduct.FormsEqualByFields | app/add-product.jsx:22-24 | Helper of WithLaws: two forms agreeing on all seven fields are equal, so a field write is judged field by field. |
| AddProduct.InitialForm | app/add-product.jsx:12-20 | Every field is empty except the low-stock alert, which is "10". |
| AddProduct.AlertLevel | app/add-product.jsx:37 | parseInt of the text when that is a non-zero number. 10 when it is 0 or NaN. Never 0. |
| AddProduct.Submit | app/add-product.jsx:26-38 | Refused iff name, price or stock is empty. Otherwise name, price text, category, description and barcode are kept, stock is parseInt of its field, and the alert is AlertLevel. |
| AddProduct.InitialFormIsMissing | app/add-product.jsx:27-30 | The untouched form is refused. |
| AddProduct.AlertLevelOfTypedNumber | app/add-product.jsx:37 | A typed non-zero integer becomes the alert level. |
| AddProduct.AddProductScreen.constructor | app/add-product.jsx:12-20 | The form starts as the initial form. |
| AddProduct.AddProductScreen.HandleInputChange | app/add-product.jsx:22-24 | The form becomes old form with the field set to the value. |
| AddProduct.AddProductScreen.ResetForm | app/add-product.jsx:50-60 | The form becomes the initial form. |
| AddProduct.AddProductScreen.HandleSubmit | app/add-product.jsx:26-38 | Returns Submit(form). Refused iff a required field is empty. |
| Receipt.SelectOrder | app/generate-receipt.jsx:20-30 | The last order when there is one. Otherwise the sample, dated now. |
| Receipt.SampleTotalMatchesItems | app/generate-receipt.jsx:25-28 | The sample's total 5500 equals the sum of its items (2×2000 + 1×1500). |
| Receipt.ReceiptSegments | app/generate-receipt.jsx:56-82 | The receipt as its list of pieces: header, business and contact lines, details, two pieces per item, then total, thanks and footer. Its content is stated by StartsWithTitle, ContactLines, ItemLines, TotalIsStored and EndsWithFooter. |
| Receipt.ItemSegments | app/generate-receipt.jsx:71-74 | Two pieces per item. |
| Receipt.GenerateReceiptText | app/generate-receipt.jsx:56-82 | The text is the concatenation of ReceiptSegments, appended piece by piece. |
| Receipt.AppendHead | app/generate-receipt.jsx:57-69 | Appends the title, business, phone and address lines and the order details. |
| Receipt.AppendBusiness | app/generate-receipt.jsx:57-64 | Appends the title and the business line, then the phone and address lines when set. |
| Receipt.AppendDetails | app/generate-receipt.jsx:65-69 | Appends the divider, the receipt number, date, customer and items heading. |
| Receipt.AppendItems | app/generate-receipt.jsx:71-74 | Appends two pieces per item, in item order. |
| Receipt.AppendTail | app/generate-receipt.jsx:76-79 | Appends the divider, the total line, the thanks and the footer. |
| Receipt.StartsWithTitle | app/generate-receipt.jsx:61 | The text starts with the RECEIPT title. |
| Receipt.EndsWithFooter | app/generate-receipt.jsx:77-79 | The last piece is the footer, two pieces after the total line. |
| Receipt.ContactLines | app/generate-receipt.jsx:57-64 | The business line comes second. The phone line is third iff a phone is set. The address line follows iff an address is set. |
| Receipt.ItemLines | app/generate-receipt.jsx:71-74 | Item k gives pieces 2k and 2k+1: its name, then quantity × price = their product. |
| Receipt.TotalIsStored | app/generate-receipt.jsx:77 | The total line shows the stored total whatever the items are. |
| Receipt.AuthContextProfile | context/AuthContext.js:203-216 | Destructuring a key from the auth context gives a profile only for "user", and then the signed-in user's profile. A key the context does not export gives nothing. |
| Receipt.UserProfileNotExported | context/AuthContext.js:203-216 | The auth context exports "user" and does not export "userProfile". |
| Receipt.ScreenProfileAsWritten | app/generate-receipt.jsx:15 | Destructuring `userProfile`, a key the auth context does not export, gives no profile for any user. |
| Receipt.BusinessLineIgnoresProfile | app/generate-receipt.jsx:57 | As written, the business line is always the default. |
| Receipt.ScreenProfile | app/generate-receipt.jsx:15 | Destructuring `user` instead: the profile is present iff a user is signed in, and then it is the user's profile. |
| Receipt.BusinessLineShowsOwnBusiness | app/generate-receipt.jsx:57 | Read from the user, the business line shows the user's business name. |
| Receipt.BusinessLineDefault | app/generate-receipt.jsx:57 | Without a profile, or with an empty business name, the business line is "StockFlow Business". |
| Receipt.ScreenOrder | app/generate-receipt.jsx:16-30 | The order the screen renders when `orders` is destructured from a context with the given keys: nothing when the context lacks `orders` (the render throws), else SelectOrder. Stated through ScreenOrderCrashes and ScreenOrderFromOrderContext. |
| Receipt.ScreenOrderCrashes | app/generate-receipt.jsx:16-30 | As written, `orders` comes from the product context, which exports no `orders`: the screen has no order to render for any order list. |
| Receipt.ScreenOrderFromOrderContext | app/generate-receipt.jsx:16-30 | Read from the order context, the screen renders the last order, or the sample when there are none. |
| Receipt.ShareOutcomeOf | app/generate-receipt.jsx:34-52 | The `try`/`catch` once the text is built. Without `Linking` in scope, the error alert. Otherwise WhatsApp when supported and the open resolves, the share sheet when unsupported and the share resolves, and the error alert in every other case. Stated through ShareFailsAsWritten and ShareWithLinking. |
| Receipt.ShareFailsAsWritten | app/generate-receipt.jsx:32-53 | As written, `Linking` is not imported, so every share attempt ends in the "Unable to share receipt" alert, whatever the system calls would answer. |
| Receipt.ShareWithLinking | app/generate-receipt.jsx:32-53 | With `Linking` imported: WhatsApp opens with the customer's phone and the text iff it is supported and opens. The share sheet with the text and the title "Receipt from StockFlow" appears iff WhatsApp is unsupported and the share succeeds. The error alert appears in the remaining cases. |
| Receipt.ReceiptScreen.constructor | app/generate-receipt.jsx:17 | Not sharing. |
| Receipt.ReceiptScreen.HandleShareToWhatsApp | app/generate-receipt.jsx:32-53 | The outcome is that of sharing the text GenerateReceiptText builds for the order, given the screen's imports and the system calls' answers. The sharing flag is false afterwards. |
| Assistant.TopicOf | context/AIContext.js:20-62 | The branch the lowercased question takes. Stated through TopicIsFirstMatch, TopicIgnoresCase and TopicOfLowercase. |
| Assistant.Reply | context/AIContext.js:20-83 | The reply of the branch TopicOf selects. Stated through Answer and AskAI. |
| Assistant.StockReply | context/AIContext.js:23-30 | The low-stock list or the healthy message. Stated through LowStockLines and StockReplyHealthyIff. |
| Assistant.SalesReply | context/AIContext.js:32-38 | Total sales, order count and the rounded average, with the praise above ₦10000. Stated through RoundHalfUp and AverageOrderText. |
| Assistant.CatalogueReply | context/AIContext.js:40-46 | Product count, stock value and the distinct categories. Stated through Categories and DistinctKeepsFirstOccurrenceOrder. |
| Assistant.TopicIsFirstMatch | context/AIContext.js:20-64 | The branch taken is t iff t's keywords occur in the lowercased question and no higher-ranked branch's keywords do. |
| Assistant.TopicIgnoresCase | context/AIContext.js:20 | Questions equal up to case take the same branch. |
| Assistant.TopicOfLowercase | context/AIContext.js:20 | A question and its lowercase form take the same branch. |
| Assistant.LowStockLines | context/AIContext.js:24-26 | One line per low-stock product, in order, with its name and stock. |
| Assistant.StockReplyHealthyIff | context/AIContext.js:25-29 | The healthy message iff no product is low. |
| Assistant.RoundHalfUp | context/AIContext.js:35-37 | The rounded mean r satisfies -n < 2(rn - s) ≤ n: nearest, with halves rounded up. |
| Assistant.AverageOrderText | context/AIContext.js:35-37 | The average is "0" without orders. |
| Assistant.Distinct | context/AIContext.js:43 | The same values, each once. |
| Assistant.FirstPosition | context/AIContext.js:43 | The first index of the value, or the length iff it does not occur. |
| Assistant.DistinctKeepsFirstOccurrenceOrder | context/AIContext.js:43 | The distinct values come in the order of their first occurrences. |
| Assistant.Categories | context/AIContext.js:43 | Exactly the categories that occur. |
| Assistant.AdviceReply | context/AIContext.js:48-58 | The five recommendations joined by line breaks, between the fixed opening and closing sentences. |
| Assistant.DefaultInsightList | context/AIContext.js:65-74 | The insights the default branch pushes: the add-products hint without products, else the restock note when some are low, then the first-order hint without orders. Stated through DefaultInsightsIff and DefaultInsights. |
| Assistant.RestockNoteIsNoHint | context/AIContext.js:66-74 | The restock note differs from both hints. |
| Assistant.DefaultInsightsIff | context/AIContext.js:65-74 | The add-products hint iff there are no products. The restock note iff there are products and some are low. The first-order hint iff there are no orders. At most two. |
| Assistant.InsightReply | context/AIContext.js:76-80 | The insights joined under "Quick Business Insight" when there are any, else the generic introduction. Stated through GenericReplyIff. |
| Assistant.GenericReplyIff | context/AIContext.js:76-78 | The generic reply iff there are no insights. |
| Assistant.DefaultInsights | context/AIContext.js:65-74 | The pushed list equals DefaultInsightList. Each hint appears under its condition. |
| Assistant.BusinessInsights | context/AIContext.js:90-126 | At most three cards, in the order warning, success, info. Warning iff some product is low. Success iff sales > 0. Info iff there are both products and orders. |
| Assistant.GetBusinessInsights | context/AIContext.js:90-126 | The pushed list equals BusinessInsights. |
| Assistant.Answer | context/AIContext.js:19-83 | The reply computed with the pushed insight list equals Reply(question, products, orders). |
| Assistant.ThreeKinds | context/AIContext.js:93-123 | Three optional cards of kinds warning, success and info stay in that order, and each is present iff its condition holds. |
| Assistant.AIProvider.constructor | context/AIContext.js:9 | Not processing. |
| Assistant.AIProvider.AskAI | context/AIContext.js:13-88 | Returns Reply(question, products, orders) and leaves isProcessing false. |
| Security.IsEmail | security-config.js:67 | `/^[^\s@]+@[^\s@]+\.[^\s@]+$/`, read from the first '@'. Stated through EmailShape, EmailIntro and EmailNoSpace. |
| Security.AllEmailCharsIff | security-config.js:67 | `[^\s@]*` holds iff every character is neither white space nor '@'. |
| Security.IndexOf | security-config.js:67 | The first index of the character, or the length. |
| Security.EmailShape | security-config.js:67 | An accepted email has no white space, exactly one '@' (not at either end), and a '.' strictly inside the part after it. |
| Security.EmailFromShape | security-config.js:67 | The converse of EmailShape: every string with no white space, one inner '@' and a '.' strictly inside the part after it is accepted. |
| Security.EmailShapeIff | security-config.js:67 | The email pattern accepts exactly the strings of that shape. |
| Security.EmailIntro | security-config.js:67 | local@name.tld is accepted when the three parts are non-empty email text and name has no dot. |
| Security.IsPhone | security-config.js:69 | `/^\+?[\d\s-()]+$/`. Stated through PhoneShape. |
| Security.PhoneShape | security-config.js:69 | Accepted iff an optional '+' is followed by one or more digits, white space, '-', '(' or ')'. |
| Security.IsPrice | security-config.js:71 | `/^\d+(\.\d{1,2})?$/`, read from the first '.'. Stated through PriceShape and the two example lemmas. |
| Security.DigitsIff | security-config.js:71 | `\d+` holds iff the text is non-empty and all digits. |
| Security.PriceShape | security-config.js:71 | Accepted iff the text is digits, or digits, one '.' and one or two digits. |
| Security.PriceAcceptsExamples | security-config.js:71 | "500", "12.5" and "12.50" are accepted. |
| Security.PriceRejectsExamples | security-config.js:71 | "1.234", ".5", "5." and "" are rejected. |
| Security.EmailNoSpace | security-config.js:67 | An accepted email contains no white space. |
| Security.ValidateInput | security-config.js:64-75 | Dispatch on the kind. An email is accepted iff it has the shape of EmailShapeIff (so it has no white space). A phone or price is accepted iff it has the shape of PhoneShape or PriceShape. Any other kind is accepted iff the input has a non-white-space character. |
| Security.ValidateDefault | security-config.js:73 | True iff the input has a non-white-space character. |
| Security.RemoveAngles | security-config.js:80 | No '<' or '>' remains, and only characters of the input remain. |
| Security.RemoveAnglesConcat | security-config.js:80 | Removal distributes over concatenation, so the order of the other characters is kept. |
| Security.RemoveAnglesKeepsPlainText | security-config.js:80 | Text without angle brackets is unchanged. |
| Security.SanitizeInput | security-config.js:78-81 | Non-strings pass through. A string becomes RemoveAngles(Trim(s)): the trimmed text without any angle bracket. |
| Security.RemoveAnglesIsFilter | security-config.js:80 | Removing angle brackets is filtering by "not an angle bracket", so the other characters are kept in order. |
| Security.SanitizeIsTrimmedFilter | security-config.js:78-81 | Sanitizing a string is the trim followed by that filter. |
| Security.SanitizeOnPlainText | security-config.js:78-81 | Text without angle brackets or end white space is unchanged. |
| Security.IsSubscriptionValid | security-config.js:84-93 | A trial is valid iff now ≤ its trial end. An active subscription is valid iff now ≤ its hard end. Nothing else is valid. |
| Security.LapsedTrialDisagreement | security-config.js:91-92 | A trial past its trial end but before its hard end: the gate is open, but validity is false. |
| Security.ValidImpliesActive | security-config.js:84-93 | When the trial end is no later than the hard end, valid implies active. |
| Security.RecomputedChecksAgree | security-config.js:84-93 | After recompute, the two checks agree on any record with a trial end. |
| Text.ContainsIff | context/ProductContext.js:102 | `includes` holds iff the text occurs at some position. |
| Text.ToLowerIdempotent | context/ProductContext.js:102 | Lower-casing twice equals lower-casing once. |
| Text.ToLower | context/ProductContext.js:102 | Same length, with each character folded. |
| Text.Trim | security-config.js:73-80 | A slice of the input with no white space at either end, and only white space outside it. Empty iff the input is all white space. |
| Text.TrimUnique | security-config.js:73-80 | Any slice with non-space ends and only white space around it is the trim, so the trim is fixed. |
| Js.ParseInt | app/create-order.jsx:24 | `parseInt` with no radix: skip leading white space, one optional sign, the longest digit run, NaN without digits. Stated through ParseIntOfIntToString and ParseIntEmpty. |
| Js.ParseIntOfIntToString | app/add-product.jsx:36-37 | parseInt of a rendered integer gives back that integer. |
| Js.ParseIntEmpty | app/create-order.jsx:24-31 | parseInt of "" and of "abc" is NaN. |
| Seqs.FilterConcat | context/ProductContext.js:73 | Filtering distributes over concatenation. |
| Seqs.SumConcat | context/OrderContext.js:150 | A reduce-sum distributes over concatenation. |

## Left out

- Storage I/O and JSON: reads, writes and parse are in-memory `Stored<T>` fields. Write failures are swallowed by the source and not modelled.
- The biometric hardware query and prompt: their answers are parameters.
- The clock: `now` is a parameter. Date rendering (`toLocaleDateString`) is a `dateText` parameter.
- Math.random and `generateSecureId` (security-config.js:59-61), and the `SECURITY_CONFIG` constants. No logic reads the constants.
- Floating point:
  - `parseFloat` of the form price is kept as text in `AddProduct.Submission`;
  - prices, totals and stock are integers;
  - `toLocaleString` digit grouping is rendered as plain decimals.
- Js.ParseInt: decimal only. No `0x` prefix, and no precision loss on very long digit strings.
- Text.ToLower: folds ASCII letters only.
- Screens that only render state, and the receipt screen's view capture and save (`handleSaveReceipt`).
- Receipt.ReceiptScreen.HandleShareToWhatsApp: the answers of `Linking.canOpenURL`, `Linking.openURL` and `Share.share` are parameters, and the URL encoding of the text is not modelled. The outcome records the phone and the text instead of the `whatsapp://` URL.
- Receipt.ScreenOrder: a throw while rendering is `None`. What React shows then is not modelled.
- Cart.CreateOrderScreen.AddToOrder: does not model aliasing. The source raises an existing line's `quantity` inside the very object both arrays share. The model builds the new line list as a value.
- History.Sort: models the comparator and a stable insertion sort. The JavaScript engine's own sort algorithm is left out. With NaN in the comparator (a missing date or total), the engine's order is unspecified. The model then treats "not negative" as "keep the order". Stability is proved for orders that all carry the key (`History.SortKeepsTies`) and for an unknown key (`History.UnsortedKeepsOrder`).
- History.SortSorted: stated only for orders that all carry the sort key, for the reason above.
- Products.SearchIgnoresCase: stated for products without a barcode, because the barcode match is case-sensitive (`Products.BarcodeIsCaseSensitive`).
- Products and orders patches: they can set optional fields but not unset them. A JSON `undefined` written over a field is not modelled.
- Assistant.AIProvider.AskAI: the simulated 1.5 s delay and the catch-all error reply are left out. No step of the model can throw.
- Assistant.AverageOrderText: rounds the exact rational mean half up, the way `toFixed(0)` does. Float division error is left out.
- The intermediate `isProcessing == true` while a question is pending: the model runs `askAI` as one step.

## Findings

| source | as written | input that shows it | evidently intended | confidence | as-written member | corrected member |
|---|---|---|---|---|---|---|
| app/generate-receipt.jsx:15-59 | The screen destructures `userProfile` from the auth context. The context exposes `user` and no `userProfile` (context/AuthContext.js:203-216). So the business name, phone and address are always missing. | Signed-in user whose profile has business name "Ade Stores": the receipt line is "StockFlow Business". | The business details come from the signed-in user's stored profile. | not executed | Receipt.BusinessLineIgnoresProfile | Receipt.BusinessLineShowsOwnBusiness |
| app/generate-receipt.jsx:16-19 | The screen destructures `orders` from the product context, which exports no `orders` (context/ProductContext.js:118-130). `orders.length` then throws while rendering. | Any order list, even an empty one: the screen throws before a receipt is shown. | The orders come from the order context, and the screen shows the latest order or the sample. | not executed | Receipt.ScreenOrderCrashes | Receipt.ScreenOrderFromOrderContext |
| app/generate-receipt.jsx:32-53 | `Linking` is used at lines 39-41 but not imported (lines 2-9). The reference throws inside the `try`, so the `catch` shows the error alert on every attempt. | WhatsApp installed and the share sheet available: the alert "Unable to share receipt. Please try again." appears. | WhatsApp opens with the receipt, or the share sheet does when WhatsApp is unavailable. | not executed | Receipt.ShareFailsAsWritten | Receipt.ShareWithLinking |
