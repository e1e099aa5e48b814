# ShopHub storefront: a verified model of its client-side logic

ShopHub is a React/Redux storefront. This project models the logic that the
storefront runs in the browser, and proves properties of that model:

- **Catalogue state** (`ProductsSlice`): the Redux products slice as a class
  whose reducers and fetch transitions update its fields in place. Also the
  client-side catalogue filter: a case-insensitive category step, then a
  case-insensitive substring search.
- **Catalogue normaliser** (`Catalog`): `transformProduct`, the search
  filter, pagination arithmetic, category display names and the rating-star
  decomposition of the fake-store service.
- **Products page** (`ProductsPage`):
  - sorting a copy of the filtered list with an in-place insertion sort over
    an array;
  - the category list and the breadcrumb trail;
  - the URL query-parameter updates, as a class over the parameter list.
- **Order service** (`OrdersService`):
  - JSON-like values;
  - the recursive sanitiser that strips `undefined` at every depth;
  - the payload that `createOrder` builds.
- **Pages and components:**
  - cart pricing (`CartPage`);
  - the FAQ toggle and filter (`FaqPage`);
  - dashboard analytics and the ID/PIN gate (`AdminDashboard`);
  - the keyword chat bot and the chat state (`ContactPage`);
  - navigation-bar rules (`Navbar`);
  - home-page showcases (`HomePage`);
  - breadcrumbs (`Breadcrumbs`);
  - the order-history page (`OrdersPage`);
  - the product detail page (`ProductDetail`).
- **Shared helpers:** `Text` holds the JavaScript string operations with
  their meaning, and `Seqs` holds `filter`/`slice` with order lemmas.

Modelling conventions:

- Money and ratings are exact `real`s.
- Case mapping covers the ASCII letters.
- `trim` removes ASCII white space, the no-break space, the byte-order mark
  and the line/paragraph separators.
- A JavaScript object is its list of entries in `Object.entries` order.
- The values the program reads from the outside world are parameters of the
  model: `Math.random()`, the clock, the browser session, environment
  variables and the results of store calls.
- Dispatches to the cart store are recorded as opaque events.

## Model

| member | source | states |
|---|---|---|
| ProductsSlice.FindIndex | src/redux/slices/productsSlice.js:131 | the result is the first index holding that id, or None exactly when no product has it |
| ProductsSlice.CatalogueFilter | src/redux/slices/productsSlice.js:144-162 | the `filterProducts` pipeline: the category step when it applies, then the search step for a non-empty query; its contents and order are stated by the three lemmas below |
| ProductsSlice.CatalogueFilterMembers | src/redux/slices/productsSlice.js:144-162 | a product is kept iff it is in the catalogue, passes the category step when that applies (`category` non-empty and not exactly `'all'`; categories compared ignoring case), and matches a non-empty query in title, description or category ignoring case; a kept product appears as many times as in the catalogue |
| ProductsSlice.CatalogueFilterKeepsOrder | src/redux/slices/productsSlice.js:144-162 | the filtered list is an order-preserving subsequence of the catalogue |
| ProductsSlice.CatalogueFilterIdentity | src/redux/slices/productsSlice.js:147-162 | with category `'all'` or empty and an empty query, the filtered list is the whole catalogue |
| ProductsSlice.UpperCaseAllIsACategory | src/redux/slices/productsSlice.js:147 | the `'all'` sentinel is compared case-sensitively: `'ALL'` is filtered as an ordinary category |
| ProductsSlice.DeleteRemovesExactlyThatId | src/redux/slices/productsSlice.js:138 | after a delete no product has the id, every product with another id remains, in order |
| ProductsSlice.ProductsState.constructor | src/redux/slices/productsSlice.js:80-90 | the initial state: empty lists, category `'all'`, empty query, not loading, no error, no current product |
| ProductsSlice.ProductsState.SetProducts | src/redux/slices/productsSlice.js:96-100 | both lists become the payload and loading ends; nothing else changes |
| ProductsSlice.ProductsState.SetFilteredProducts | src/redux/slices/productsSlice.js:101-103 | only the filtered list changes |
| ProductsSlice.ProductsState.SetSelectedCategory | src/redux/slices/productsSlice.js:104-106 | only the selected category changes |
| ProductsSlice.ProductsState.SetSearchQuery | src/redux/slices/productsSlice.js:107-109 | only the search query changes |
| ProductsSlice.ProductsState.SetLoading | src/redux/slices/productsSlice.js:110-112 | only the loading flag changes |
| ProductsSlice.ProductsState.SetError | src/redux/slices/productsSlice.js:113-116 | the error is set and loading ends |
| ProductsSlice.ProductsState.ClearError | src/redux/slices/productsSlice.js:117-119 | the error is cleared |
| ProductsSlice.ProductsState.SetCurrentProduct | src/redux/slices/productsSlice.js:120-122 | only the current product changes |
| ProductsSlice.ProductsState.ClearCurrentProduct | src/redux/slices/productsSlice.js:123-125 | the current product is cleared |
| ProductsSlice.ProductsState.AddProduct | src/redux/slices/productsSlice.js:126-129 | the payload is appended to both lists |
| ProductsSlice.ProductsState.UpdateProduct | src/redux/slices/productsSlice.js:130-136 | with no product of that id nothing changes; otherwise the first such product is replaced and the filtered list becomes the catalogue |
| ProductsSlice.ProductsState.DeleteProduct | src/redux/slices/productsSlice.js:137-140 | every product with the id is removed and the filtered list becomes the catalogue |
| ProductsSlice.ProductsState.FilterProducts | src/redux/slices/productsSlice.js:142-163 | the filtered list becomes the catalogue filter of the unchanged catalogue; nothing else changes |
| ProductsSlice.ProductsState.Pending | src/redux/slices/productsSlice.js:168-234 | each fetch's pending transition: loading set (product loading for the by-id fetch), error cleared except for the categories fetch |
| ProductsSlice.ProductsState.Rejected | src/redux/slices/productsSlice.js:178-243 | each fetch's rejected transition: its loading flag cleared, the error set to the rejection payload, the catalogue untouched |
| ProductsSlice.ProductsState.FetchProductsFulfilled | src/redux/slices/productsSlice.js:172-177 | both lists become the payload, loading ends, the error is cleared |
| ProductsSlice.ProductsState.FetchProductByIdFulfilled | src/redux/slices/productsSlice.js:189-193 | the current product is set, product loading ends, the error is cleared |
| ProductsSlice.ProductsState.FetchCategoriesFulfilled | src/redux/slices/productsSlice.js:204-207 | the categories are set and loading ends; the error is left as it was |
| ProductsSlice.ProductsState.FilteredFetchFulfilled | src/redux/slices/productsSlice.js:219-223 | for the by-category and search fetches, only the filtered list takes the payload; loading ends, the error is cleared |
| Catalog.TransformProduct | src/services/fakeStoreApi.js:105-134 | copies id, price, category, description and image; name and title are the API title; images is `[image]`; list price is the rounded 1.2 × price; discount 17; in stock; stock is exactly floor(random × 50) + 10, so in 10..59; created and updated at `now`; the rate falls back to 4.0 and the vote count to 100 when the rating object or the value is missing or zero |
| Catalog.TransformProducts | src/services/fakeStoreApi.js:137-139 | one normalised product per source product, in order, each with its own random draw |
| Catalog.MissingRatingDefaults | src/services/fakeStoreApi.js:117-120 | a missing rating object, a missing rate or a zero rate becomes 4.0; a missing rating object, a missing count or a zero count becomes 100 |
| Catalog.OriginalPriceCoversPrice | src/services/fakeStoreApi.js:111 | from a price of 2.5 on, the list price is at least the price |
| Catalog.SmallPriceListedBelowPrice | src/services/fakeStoreApi.js:111 | a price of 0.30 gets a list price of 0 |
| Catalog.Round | src/services/fakeStoreApi.js:111 | `Math.round`: the integer within half a unit, halves going up |
| Catalog.SearchProducts | src/services/fakeStoreApi.js:91-95 | keeps exactly the products whose lower-cased title, description or category contains the lower-cased query, each as many times as in the input |
| Catalog.SearchKeepsOrder | src/services/fakeStoreApi.js:92-96 | the search result is an order-preserving subsequence of its input |
| Catalog.EmptyQueryMatchesAll | src/services/fakeStoreApi.js:92-96 | the empty query keeps every product |
| Catalog.SearchIgnoresQueryCase | src/services/fakeStoreApi.js:93-95 | lower-casing the query does not change the result |
| Catalog.SliceIndex | src/services/fakeStoreApi.js:161 | `slice`'s index normalisation: non-negative indices clipped to the length |
| Catalog.CeilDiv | src/services/fakeStoreApi.js:167 | `Math.ceil(n / limit)`: the least number of pages of `limit` items that holds n |
| Catalog.Paginate | src/services/fakeStoreApi.js:159-171 | the page is the list's `[(page−1)·limit, page·limit)` part clipped to the list; totalPages is ceil(n/limit); hasNextPage iff page·limit < n; hasPrevPage iff page > 1 |
| Catalog.AllPagesCoverCatalogue | src/services/fakeStoreApi.js:159-171 | pages 1 to totalPages, concatenated, are the whole list |
| Catalog.PagesInRangeAreNonEmpty | src/services/fakeStoreApi.js:159-171 | every page from 1 to totalPages holds at least one product |
| Catalog.CategoryDisplayName | src/services/fakeStoreApi.js:181-191 | the mapped name for the four known categories, otherwise the category with its first character upper-cased |
| Catalog.RatingStars | src/services/fakeStoreApi.js:202-213 | fullStars is floor(rating); a half star iff the rating is not whole; full + half + empty = 5; all in 0..5 for ratings in [0, 5]; percentage = rating × 20 |
| Catalog.RateOrZero | src/pages/Products.jsx:115 | the product's rate when it has a rating, otherwise 0 |
| ProductsPage.SortKeyOf | src/pages/Products.jsx:107-118 | only `'price-low'`, `'price-high'`, `'name'` and `'rating'` sort; any other key leaves the order alone |
| ProductsPage.InOrderTotal | src/pages/Products.jsx:108-115 | every comparator totally orders any two products, the name order when the locale comparison is a total preorder |
| ProductsPage.InOrderTransitive | src/pages/Products.jsx:108-115 | every comparator's order is transitive |
| ProductsPage.Swap | src/pages/Products.jsx:109 | exchanges two array cells, keeping the multiset |
| ProductsPage.InsertAt | src/pages/Products.jsx:109 | one insertion step: the prefix up to i becomes sorted, the array stays a permutation, and an element already in place moves nothing |
| ProductsPage.SortInPlace | src/pages/Products.jsx:108-115 | the array ends sorted by the key and is a permutation of its old contents; an already sorted array is left as it was |
| ProductsPage.GetSortedProducts | src/pages/Products.jsx:104-119 | sorts a fresh copy: the result is a permutation of the filtered list, ordered by the key: `'price-low'` non-decreasing price, `'price-high'` non-increasing price, `'rating'` non-increasing rate (missing counts as 0), `'name'` titles in `localeCompare` order; an unknown key or an already sorted list gives the input order |
| ProductsPage.AllCategories | src/pages/Products.jsx:122 | `'all'` followed by the fetched categories in order |
| ProductsPage.BreadcrumbItems | src/pages/Products.jsx:125-133 | Products, plus the category's display name (no link) exactly when a category other than `'all'` is selected |
| ProductsPage.ProductsCrumbLinksIffCategory | src/pages/Products.jsx:125-133 | rendered, the Products crumb is a link iff a category crumb follows it |
| ProductsPage.Heading | src/pages/Products.jsx:144-146 | the category's display name when one is selected, else `'All Products'` |
| ProductsPage.ParamGet | src/pages/Products.jsx:37-38 | `URLSearchParams.get`: None exactly when no entry has the name |
| ProductsPage.SetThenGet | src/pages/Products.jsx:79 | after `set`, `get` returns the new value |
| ProductsPage.SetFirstThenGet | src/pages/Products.jsx:79 | setting an existing name overwrites the first entry's value |
| ProductsPage.AppendGet | src/pages/Products.jsx:79 | setting an absent name appends it |
| ProductsPage.DeleteThenGet | src/pages/Products.jsx:77 | after `delete`, `get` returns nothing |
| ProductsPage.SetKeepsOthers | src/pages/Products.jsx:79 | `set` leaves every entry of another name as it was, in order |
| ProductsPage.SetFirstKeepsOthers | src/pages/Products.jsx:79 | replacing the first entry leaves every entry of another name as it was |
| ProductsPage.DeleteIdempotent | src/pages/Products.jsx:77 | deleting twice is deleting once |
| ProductsPage.SearchParams.constructor | src/pages/Products.jsx:75 | the copy starts with the current parameters |
| ProductsPage.SearchParams.Set | src/pages/Products.jsx:79 | the entries become the `set` result |
| ProductsPage.SearchParams.Delete | src/pages/Products.jsx:77 | the entries become the `delete` result |
| ProductsPage.HandleCategoryChange | src/pages/Products.jsx:73-82 | the slice's category is set; the `category` parameter is deleted for `'all'` and set otherwise; other parameters keep their values |
| ProductsPage.HandleSearch | src/pages/Products.jsx:85-95 | the slice's query is set; the `search` parameter is deleted when the query is blank after trimming, otherwise set to the untrimmed query |
| ProductsPage.SyncFromUrl | src/pages/Products.jsx:47-55 | non-empty `category` and `search` parameters are copied into the slice, and a non-empty `search` is returned as the search box's new text; nothing else changes |
| ProductsPage.RefreshFilter | src/pages/Products.jsx:58-63 | re-runs the catalogue filter with the slice's own category and query |
| OrdersService.Sanitized | src/services/ordersService.js:15-29 | returns undefined only for undefined; null and primitives unchanged; arrays stay arrays and objects stay objects |
| OrdersService.Sanitize | src/services/ordersService.js:15-29 | the recursive copy equals `Sanitized` of its input |
| OrdersService.SanitizeArray | src/services/ordersService.js:16-17 | elements are sanitized and the undefined ones dropped, in order |
| OrdersService.SanitizeObject | src/services/ordersService.js:19-25 | the loop keeps each entry whose sanitized value is not undefined, with that value, in entry order |
| OrdersService.SanitizedHasNoUndefined | src/services/ordersService.js:15-29 | no undefined is left at any depth of a sanitized defined value |
| OrdersService.SanitizeFixesClean | src/services/ordersService.js:15-29 | a value without undefined anywhere is returned unchanged |
| OrdersService.SanitizeIdempotent | src/services/ordersService.js:15-29 | sanitizing twice is sanitizing once |
| OrdersService.SanitizedArrayKeepsOrder | src/services/ordersService.js:16-17 | the sanitized array is an order-preserving subsequence of the sanitized elements and keeps every defined one |
| OrdersService.SanitizedGet | src/services/ordersService.js:19-25 | reading a key of a sanitized object gives the sanitized value of that key |
| OrdersService.IndexOf | src/services/ordersService.js:46 | the first entry with the key, or None exactly when there is none |
| OrdersService.Get | src/services/ordersService.js:34 | undefined for a missing key, otherwise the value of an entry with that key |
| OrdersService.SetFieldGet | src/services/ordersService.js:46-50 | after writing a key, reading it gives the new value and reading any other key gives the old one |
| OrdersService.SetFieldKeepsUnique | src/services/ordersService.js:46-50 | writing a key never duplicates it |
| OrdersService.SpreadGet | src/services/ordersService.js:46 | after `{...base, ...fs}`, a key of `fs` reads from `fs`, any other from `base` |
| OrdersService.SpreadKeepsUnique | src/services/ordersService.js:46 | spreading keeps keys unique |
| OrdersService.ProjectItem | src/services/ordersService.js:35-42 | an item becomes an object with exactly the keys id, name, price, quantity, image, totalPrice, in that order, each read from the item; null or undefined throws |
| OrdersService.ProjectItems | src/services/ordersService.js:34-43 | one projection per item, in order; fails iff some item fails |
| OrdersService.OrderItems | src/services/ordersService.js:34-43 | the projection of `orderData.items` when it is an array, else `[]`; stated by OrderItemsShape |
| OrdersService.OrderItemsShape | src/services/ordersService.js:34-43 | the item count is kept and a non-array `items` becomes `[]` |
| OrdersService.PayloadRaw | src/services/ordersService.js:45-51 | the spread of the caller's fields followed by `userId`, `items`, `createdAt` and `status`; stated by PayloadRawGet |
| OrdersService.PayloadRawGet | src/services/ordersService.js:45-51 | the raw payload: `userId` and `status` fall back to `'guest'` / `'pending'` when falsy, `items` is the projection, `createdAt` the clock, every other field the caller's |
| OrdersService.CreateOrder | src/services/ordersService.js:31-60 | fails iff the projection throws or the store write fails; stores the sanitized payload; returns `{id, ...orderData}` |
| OrdersService.StoredPayloadFields | src/services/ordersService.js:45-53 | the stored `userId`, `status`, `createdAt` and every other field, as sanitized |
| OrdersService.StoredItems | src/services/ordersService.js:34-53 | the stored `items` is an array with one object per ordered item, or `[]` |
| OrdersService.ReturnedOrder | src/services/ordersService.js:56 | the returned record is the caller's unsanitized input with the store's id, unless the caller supplied an `id` |
| CartPage.ShippingCost | src/pages/Cart.jsx:21 | free iff the total is strictly above 50, else 5.99 |
| CartPage.Tax | src/pages/Cart.jsx:22 | a tenth of the total |
| CartPage.FinalTotal | src/pages/Cart.jsx:23 | total + shipping + tax, never below the total for non-negative totals |
| CartPage.ShowsSummary | src/pages/Cart.jsx:39-53 | the summary, and with it the banner and the shipping line, is rendered only for a non-empty cart |
| CartPage.FreeShippingBanner | src/pages/Cart.jsx:39-112 | shown iff the cart is non-empty and the total is below 50, with the amount that brings it to 50; the empty-cart view shows no banner |
| CartPage.ShowsFree | src/pages/Cart.jsx:88-93 | "FREE" shows iff the cart is non-empty and the total is strictly above 50 |
| CartPage.BannerAndFreeShippingExclusive | src/pages/Cart.jsx:39-112 | banner and FREE never show together; on a non-empty cart at exactly 50 neither shows and at every other total one of them does; the empty-cart view shows neither |
| CartPage.BannerAmountFallsShort | src/pages/Cart.jsx:21-111 | adding exactly the amount the banner suggests still pays shipping |
| CartPage.CheckoutRoute | src/pages/Cart.jsx:25-32 | `/login` iff not signed in, `/checkout` iff signed in |
| CartPage.FinalTotalNotMonotone | src/pages/Cart.jsx:21-23 | the grand total for 50.00 is higher than for 50.01 |
| FaqPage.Toggled | src/pages/FAQ.jsx:136-144 | flips the membership of the id and keeps every other id |
| FaqPage.ToggleTwice | src/pages/FAQ.jsx:136-144 | toggling twice restores the open set |
| FaqPage.FilteredFaqs | src/pages/FAQ.jsx:146-154 | keeps exactly the entries in the active category (or all for `'all'`) whose question, answer or some tag contains the term ignoring case (any entry for an empty term), each as many times as in the list |
| FaqPage.UnfilteredListsAll | src/pages/FAQ.jsx:146-154 | with `'all'` and an empty term every entry is listed, in order |
| FaqPage.FilteredKeepsOrder | src/pages/FAQ.jsx:146-154 | the listed entries keep their order |
| FaqPage.SearchIgnoresTermCase | src/pages/FAQ.jsx:148-151 | terms equal after lower-casing list the same entries |
| FaqPage.PopularQuestions | src/pages/FAQ.jsx:156 | the first min(6, n) entries |
| FaqPage.ResultNoun | src/pages/FAQ.jsx:268 | singular exactly when the count is 1 |
| FaqPage.FaqPageState.constructor | src/pages/FAQ.jsx:15-17 | empty term, category `'all'`, nothing open |
| FaqPage.FaqPageState.ToggleItem | src/pages/FAQ.jsx:136-144 | the open set becomes the toggled copy; the filters are untouched |
| FaqPage.FaqPageState.SetSearchTerm | src/pages/FAQ.jsx:180 | only the term changes |
| FaqPage.FaqPageState.SetActiveCategory | src/pages/FAQ.jsx:245 | only the category changes |
| FaqPage.FaqPageState.ClearFilters | src/pages/FAQ.jsx:284-285 | term and category are reset; the open set is kept |
| FaqPage.FaqPageState.Filtered | src/pages/FAQ.jsx:146-154 | the list rendered for the current filters: FilteredFaqs of the state's term and category, the whole list when neither filter is set |
| AdminDashboard.AccentClass | src/pages/AdminDashboard.jsx:11-16 | the four accents map to their classes; any other falls back to blue |
| AdminDashboard.OrderAmount | src/pages/AdminDashboard.jsx:99 | `totalAmount`, else `price`, else 0, skipping falsy values |
| AdminDashboard.TotalRevenue | src/pages/AdminDashboard.jsx:99 | the `reduce` of OrderAmount from 0; what it sums to is stated by the three lemmas below |
| AdminDashboard.TotalRevenueAppend | src/pages/AdminDashboard.jsx:99 | revenue of two lists is the sum of their revenues |
| AdminDashboard.TotalRevenueBounds | src/pages/AdminDashboard.jsx:99 | with non-negative amounts the revenue is at least any one order's amount |
| AdminDashboard.NonNegativeRevenue | src/pages/AdminDashboard.jsx:99 | with non-negative amounts the revenue is non-negative |
| AdminDashboard.PendingOrders | src/pages/AdminDashboard.jsx:100 | at most the number of orders, and 0 exactly when no order's status is `'pending'` |
| AdminDashboard.CompletedOrders | src/pages/AdminDashboard.jsx:101 | at most the number of orders, and 0 exactly when no order's status is `'completed'` or `'delivered'` |
| AdminDashboard.StatusCountsBounded | src/pages/AdminDashboard.jsx:100-101 | pending plus completed orders never exceed the order count |
| AdminDashboard.AvgOrder | src/pages/AdminDashboard.jsx:102 | 0 for no orders, otherwise the value that times the count gives the revenue |
| AdminDashboard.CanAccess | src/pages/AdminDashboard.jsx:106 | access iff the gate is open or the user is an admin |
| AdminDashboard.Matches | src/pages/AdminDashboard.jsx:59-60 | typed and configured values (a missing one read as empty) agree after trimming both; the lemmas below state its behaviour |
| AdminDashboard.GateAccepts | src/pages/AdminDashboard.jsx:59-61 | both the ID and the PIN match |
| AdminDashboard.UnsetCredentialsAcceptBlank | src/pages/AdminDashboard.jsx:59-60 | with no configured ID and PIN, white-space-only inputs open the gate (empty ones never reach the handler: both fields are `required`) |
| AdminDashboard.GateIgnoresPadding | src/pages/AdminDashboard.jsx:59 | white space around the typed ID does not change the verdict |
| AdminDashboard.AdminGate.constructor | src/pages/AdminDashboard.jsx:46-49 | gate closed, empty inputs, no error |
| AdminDashboard.AdminGate.RestoreSession | src/pages/AdminDashboard.jsx:51-54 | a stored session `'true'` opens the gate; nothing else changes |
| AdminDashboard.AdminGate.SetGateId | src/pages/AdminDashboard.jsx:47 | only the typed ID changes |
| AdminDashboard.AdminGate.SetGatePin | src/pages/AdminDashboard.jsx:48 | only the typed PIN changes |
| AdminDashboard.AdminGate.HandleGateLogin | src/pages/AdminDashboard.jsx:56-69 | trimmed ID and PIN both equal the trimmed configured ones: gate opens, inputs cleared, no error; otherwise error `'Invalid ID or PIN'`, gate and inputs unchanged |
| AdminDashboard.AdminGate.HandleGateLogout | src/pages/AdminDashboard.jsx:71-74 | the gate closes |
| ContactPage.BotReply | src/pages/Contact.jsx:94-112 | the reply of the first keyword group that matches the lower-cased text |
| ContactPage.FirstMatchUnique | src/pages/Contact.jsx:96-111 | at most one group is the first match |
| ContactPage.RepliesDistinct | src/pages/Contact.jsx:97-111 | the six replies differ |
| ContactPage.BotReplyIgnoresCase | src/pages/Contact.jsx:95 | texts equal after lower-casing get the same reply |
| ContactPage.OrderBeatsRefund | src/pages/Contact.jsx:96-101 | text containing "order" gets the tracking reply even if it also mentions a refund |
| ContactPage.NoKeywordFallsBack | src/pages/Contact.jsx:111 | text with no keyword gets the generic reply |
| ContactPage.SubstringMatchesInsideWords | src/pages/Contact.jsx:102 | keywords match inside words: "Ships" gets the shipping reply |
| ContactPage.ContactPageState.constructor | src/pages/Contact.jsx:13-27 | the empty form with category `'general'`, an empty chat input and the greeting |
| ContactPage.ContactPageState.HandleInputChange | src/pages/Contact.jsx:85-91 | only the named form field changes |
| ContactPage.ContactPageState.SetChatInput | src/pages/Contact.jsx:24 | only the chat input changes |
| ContactPage.ContactPageState.SendChat | src/pages/Contact.jsx:114-118 | blank input is ignored; otherwise one user message with the trimmed text is appended and the input cleared |
| ContactPage.ContactPageState.DeliverBotReply | src/pages/Contact.jsx:119-121 | appends the bot's reply to the text |
| ContactPage.ContactPageState.HandleKeyDown | src/pages/Contact.jsx:124-129 | Enter without Shift sends: with a blank input nothing changes, otherwise the trimmed input is appended as a user message and the input is cleared; any other key changes nothing |
| Navbar.IsActiveLink | src/components/Navbar.jsx:87-92 | `/` is active only on `/`; any other link is active iff it is a plain prefix of the path |
| Navbar.LinkActiveOnItsPath | src/components/Navbar.jsx:87-92 | every link is active on its own path |
| Navbar.HomeNotActiveElsewhere | src/components/Navbar.jsx:88-90 | `/` is not active on `/products`, though it is a prefix of it |
| Navbar.PrefixNotSegment | src/components/Navbar.jsx:91 | `/products` is active on `/productsX` |
| Navbar.SearchNavigation | src/components/Navbar.jsx:80-85 | navigates iff the query is not all white space, to the search URL with the untrimmed query |
| Navbar.ShowCartBadge | src/components/Navbar.jsx:178 | the badge shows iff the quantity is positive |
| Navbar.CharAt0 | src/components/Navbar.jsx:194 | `charAt(0)`: the first character, or empty |
| Navbar.AvatarInitial | src/components/Navbar.jsx:194 | the first character of the display name, else of the email, else `'U'` |
| Navbar.DisplayNameLabel | src/components/Navbar.jsx:197 | the display name when present and non-empty; no user, no display name or an empty one gives `'User'` |
| Navbar.ShowAdminLink | src/components/Navbar.jsx:221 | shown only to a user whose role is `'admin'` |
| HomePage.FeaturedProducts | src/pages/Home.jsx:28 | the first min(8, n) products |
| HomePage.ProductsByCategory | src/pages/Home.jsx:31-35 | at most four products, each in the catalogue and in the named category ignoring case |
| HomePage.ShowcaseIsFirstMatches | src/pages/Home.jsx:31-35 | the showcase is the first min(4, n) of the n matching products in catalogue order: a prefix of the matches of exactly that length, so all of them when there are at most four |
| HomePage.ShowcaseIgnoresNameCase | src/pages/Home.jsx:33 | names equal after lower-casing give the same showcase |
| Breadcrumbs.AllItems | src/components/Breadcrumbs.jsx:5-8 | Home (`/`) followed by the given entries |
| Breadcrumbs.Render | src/components/Breadcrumbs.jsx:12-31 | one rendered entry per item; a separator before all but the first; a link iff a non-empty target and not last |
| Breadcrumbs.LastIsPlainText | src/components/Breadcrumbs.jsx:18 | the last entry is never a link |
| Breadcrumbs.HomeAlone | src/components/Breadcrumbs.jsx:5-18 | with no entries, Home renders alone as plain text |
| Breadcrumbs.HomeLinksWhenFollowed | src/components/Breadcrumbs.jsx:5-18 | with entries, Home links to `/` |
| OrdersPage.StatusColor | src/pages/Orders.jsx:33-48 | the five known statuses get their classes; exactly the other statuses get gray |
| OrdersPage.StatusColorsDistinct | src/pages/Orders.jsx:33-48 | different known statuses get different classes |
| OrdersPage.StatusLabel | src/pages/Orders.jsx:119 | the status with its first character upper-cased and the rest unchanged |
| OrdersPage.ShowReorder | src/pages/Orders.jsx:169 | Reorder shows iff the status is `'delivered'` |
| OrdersPage.OrdersPageState.constructor | src/pages/Orders.jsx:9-10 | no orders, loading |
| OrdersPage.OrdersPageState.FetchOrders | src/pages/Orders.jsx:12-31 | without a user nothing changes (so loading stays on); otherwise the fetched orders, or none after a failure, and loading ends |
| ProductDetail.RepeatCount | src/pages/ProductDetail.jsx:49-51 | n repeated events hold the event exactly n times |
| ProductDetail.DisplayedStars | src/pages/ProductDetail.jsx:105 | an unrated product shows no full or half star and five empty ones |
| ProductDetail.Savings | src/pages/ProductDetail.jsx:214-217 | shown iff there is a discount, and then price + saving = list price |
| ProductDetail.CheapProductShowsNegativeSaving | src/pages/ProductDetail.jsx:214-217 | a normalised product priced 0.30 shows a saving of −0.30 |
| ProductDetail.NormalisedSavingNonNegative | src/pages/ProductDetail.jsx:214-217 | from a price of 2.5 on, a normalised product's saving is non-negative |
| ProductDetail.DetailCrumbs | src/pages/ProductDetail.jsx:106-110 | Products, the category's display name linking to its filter, then the title without a link |
| ProductDetail.DetailTrailLinks | src/pages/ProductDetail.jsx:106-110 | rendered: Home, Products and the category link; the title is plain text |
| ProductDetail.ProductDetailState.constructor | src/pages/ProductDetail.jsx:27 | quantity starts at 1, nothing dispatched |
| ProductDetail.ProductDetailState.Decrement | src/pages/ProductDetail.jsx:251 | quantity drops by one but never below 1 |
| ProductDetail.ProductDetailState.Increment | src/pages/ProductDetail.jsx:259-261 | quantity rises by exactly one while in stock; the disabled button changes nothing |
| ProductDetail.ProductDetailState.HandleAddToCart | src/pages/ProductDetail.jsx:46-53 | nothing without a product; otherwise `addItem(product)` exactly `quantity` times |
| ProductDetail.ProductDetailState.HandleBuyNow | src/pages/ProductDetail.jsx:55-58 | adds to the cart as above, then routes to `/cart` |
| Text.TrimEmptyIff | src/pages/Products.jsx:89 | a string is blank after `trim` exactly when it is all white space |
| Text.TrimIgnoresPadding | src/pages/AdminDashboard.jsx:59-60 | white space on both sides does not change the trimmed string |
| Seqs.FilterCounts | src/services/fakeStoreApi.js:91-95 | `filter` keeps every copy of a kept element and no copy of a dropped one |
| Text.ContainsIff | src/services/fakeStoreApi.js:92-94 | `includes` holds exactly when the needle occurs at some offset |

## Left out

- The cart, auth and favourites slices, and the favourites toggle, are not part of this model. Cart dispatches appear only as opaque `AddItem` events, and the cart total and quantity are inputs.
- Network and persistence I/O is not modelled: the fake-store fetches, Firestore reads and writes, and Firebase set-up. Their results are parameters.
- `createAsyncThunk` plumbing, `Promise.all`, and the `setTimeout` before the bot reply are left out. The bot reply is a separate step (`DeliverBotReply`).
- Money is exact: `Intl.NumberFormat` output, IEEE rounding, `NaN` and `Infinity` are not modelled.
- Case mapping and `trim` cover the characters listed above. Full Unicode case folding is not modelled.
- `localeCompare` is an abstract comparator, assumed to be a total preorder.
- ProductsPage.GetSortedProducts: the sort is shown to yield a sorted permutation. Which of several equal elements comes first is not promised, and JavaScript's sort is stable.
- Catalog.Paginate: `limit` must be at least 1. With 0 or a negative limit, `Math.ceil` yields `Infinity` or a negative page count.
- Catalog.Paginate: the exact slice is stated for pages from 1. Page 0 and negative pages use `slice`'s negative-index rule, which is modelled but not restated.
- Catalog.CategoryDisplayName: `CATEGORY_DISPLAY_NAMES[category]` is a plain-object lookup, so a category named like an inherited `Object.prototype` member (`constructor`, `toString`, `valueOf`) yields that inherited function. The model looks up only the four own entries and capitalises every other name.
- URL encoding and decoding of query parameters are not modelled: parameters are the decoded name/value pairs.
- `localStorage` writes on gate login and logout are not modelled. Only the read at mount is, as a parameter.
- Contact-form submission (`handleSubmit`), `navigator.share` and the clipboard are left out: they are I/O only.
- OrdersService.CreateOrder: the store's own handling of the payload is not modelled, and property order in the stored object is not promised.
- OrdersService: objects are assumed to have unique keys wherever lookups are stated, as JavaScript objects do.
- Navbar.CharAt0 and Navbar.AvatarInitial: strings are sequences of Unicode scalar values, while JavaScript's `charAt(0)` returns a UTF-16 code unit. For a name starting outside the Basic Multilingual Plane the source shows half a surrogate pair and the model shows the whole character.
- ProductsPage.SyncFromUrl: the call to `setLocalSearchQuery` is modelled as the returned text; the search box itself is view state.
- Catalog.TransformProduct: `createdAt` and `updatedAt` both take the one `now` parameter, while the source reads the clock twice, so they may differ by a millisecond there.
- Catalog.TransformProduct: the `reviews: []` field is not part of `Product`; nothing in the modelled core reads it.
- ProductDetail.ProductDetailState.HandleAddToCart: the handler has no stock check, as in the source; the view disables its button when the product is out of stock, and that markup is not modelled.
- JSX markup, static pages (About, Terms, Footer, OrderConfirmation, Profile) and skeleton loaders are not part of this model.
