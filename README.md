# SHITSU storefront — a Dafny model

This project models the logic of the SHITSU artist storefront: a React shop front over a Convex database, where orders are sent to the artist as pre-filled Telegram messages. The model covers:

- **Cart** (`CartEngine`). The shopping cart's lines, with add, remove, update-quantity and clear, its total and its open flag. `CartEngine.Cart` is a class whose methods update its fields. They are proved against the functions `Added`, `Removed` and `QuantityUpdated`. The invariant (one line per product id, every quantity at least one) and the totals are proved as lemmas.
- **Checkout links** (`Telegram`, `UriComponent`, `CartSidebar`, `CustomPage`):
  - `createTelegramLink` filters, trims, strips angle brackets, labels and joins the entries, then percent-encodes the text into a `t.me` link.
  - `encodeURIComponent` and `decodeURIComponent` are modelled over UTF-8, and their round trip is proved.
  - The cart panel and the custom-order page build the order text, gate the send link on a non-blank field, and pick what to show.
- **Administrator sign-in** (`AdminAuth`, `AdminRoutes`, `AdminLogin`, `AdminSettings`):
  - the single-administrator password store, with the SHA-256 digest as a function parameter and its lower-case hex rendering;
  - the token decisions of the admin routes;
  - the sign-in and change-password forms.
- **Catalogue and orders** (`ProductsApi`, `OrdersApi`, `ImageUrl`, `HomePage`, `ProductPage`, `AdminOrders`, `AdminProducts`):
  - the database queries and mutations over tables modelled as sequences in creation order;
  - image URL resolution;
  - the storefront's list filters;
  - the admin order list and the admin product editor.
- **Search-engine output** (`SeoConfig`, `Sitemap`, `SchemaOrg`, `SeoHead`): the page configuration, the sitemap XML, the schema.org objects, and the head tags with their fallback chains.

Shared modules:

- `Wrappers`: Option and Result.
- `Types`: the stored documents.
- `Seqs`: filter, map and reverse.
- `JsText`: JavaScript `trim`, `join`, `startsWith` and UTF-16 length.
- `Numbers`: decimal rendering and parsing, and `toLocaleString("ru-RU")` for whole numbers.

Conventions:

- Everything the program takes from its environment is a parameter. This covers database ids, `Date.now()`, today's date, the digest, storage URL lookups, stored browser data and the confirmation dialog's answer.
- A query's `order("desc")` is the reversed table.
- An asynchronous handler is split into its synchronous part and the part after `await`.

## Model

| member | source | states |
|---|---|---|
| CartEngine.Find | src/contexts/CartContext.tsx:13 | the index of the first line with the id, or none exactly when no line has it |
| CartEngine.Added | src/contexts/CartContext.tsx:13-30 | a present id gets one more piece on its line and every other line is untouched; an absent product is appended as one new line |
| CartEngine.Removed | src/contexts/CartContext.tsx:35-37 | no line with the id remains, and every other line is kept |
| CartEngine.QuantityUpdated | src/contexts/CartContext.tsx:39-49 | a quantity of zero or less removes the id; a positive one sets only the matching line's quantity |
| CartEngine.Sum | src/contexts/CartContext.tsx:53-56 | the total of an empty cart is 0 |
| CartEngine.SumConcat | src/contexts/CartContext.tsx:53-56 | the total of two carts joined is the sum of their totals |
| CartEngine.AddedWellFormed | src/contexts/CartContext.tsx:13-30 | adding keeps one line per id and every quantity at least 1 |
| CartEngine.RemovedWellFormed | src/contexts/CartContext.tsx:35-37 | removing keeps the cart invariant |
| CartEngine.QuantityUpdatedWellFormed | src/contexts/CartContext.tsx:39-49 | updating a quantity keeps the cart invariant, since only positive quantities are written |
| CartEngine.RemoveAbsent | src/contexts/CartContext.tsx:35-37 | removing an id not in the cart changes nothing |
| CartEngine.RemoveIdempotent | src/contexts/CartContext.tsx:35-37 | removing twice is removing once |
| CartEngine.RemoveCutsLine | src/contexts/CartContext.tsx:35-37 | with unique ids, removing cuts exactly that line out and keeps the others in order |
| CartEngine.RemoveUndoesAdd | src/contexts/CartContext.tsx:21-37 | removing a product just added for the first time restores the cart |
| CartEngine.UpdateAbsent | src/contexts/CartContext.tsx:39-49 | updating an unknown id changes nothing |
| CartEngine.SumSetQuantity | src/contexts/CartContext.tsx:44-56 | setting line k to q changes the total by its price times the change |
| CartEngine.AddedTotal | src/contexts/CartContext.tsx:13-30 | adding raises the total by one piece's price: the stored line's price, or the product's price for a new line |
| CartEngine.RemovedTotal | src/contexts/CartContext.tsx:35-37 | removing a line lowers the total by exactly that line's amount |
| CartEngine.QuantityUpdatedTotal | src/contexts/CartContext.tsx:39-56 | a positive quantity changes the total by price times the change |
| CartEngine.Cart.constructor | src/contexts/CartContext.tsx:7-8 | the cart starts empty and closed |
| CartEngine.Cart.AddItem | src/contexts/CartContext.tsx:10-33 | the lines become `Added(old lines, p)`, the panel opens whichever branch ran, the invariant holds, and the total rises by one piece |
| CartEngine.Cart.RemoveItem | src/contexts/CartContext.tsx:35-37 | the lines become `Removed`, the open flag is kept, and the invariant holds |
| CartEngine.Cart.UpdateQuantity | src/contexts/CartContext.tsx:39-49 | the lines become `QuantityUpdated`; q ≤ 0 is exactly a removal; the invariant holds |
| CartEngine.Cart.ClearCart | src/contexts/CartContext.tsx:51 | the lines are emptied and the open flag is kept, so the total is 0 |
| CartEngine.Cart.SetIsOpen | src/contexts/CartContext.tsx:68 | only the open flag changes |
| Telegram.Clean | src/lib/telegram.ts:7 | a cleaned value has no angle bracket and is no longer than the trimmed value |
| Telegram.CleanWithoutAngles | src/lib/telegram.ts:7 | a value without angle brackets is only trimmed |
| Telegram.Lines | src/lib/telegram.ts:4-9 | at most one line per entry |
| Telegram.CreateTelegramLink | src/lib/telegram.ts:1-14 | the link is the fixed `t.me` prefix followed by a percent-form text that decodes to the lines joined by newlines |
| Telegram.LinkQueryIsOneValue | src/lib/telegram.ts:12-13 | the encoded text holds no raw space, newline, `&`, `#`, `=` or `?` |
| Telegram.BlankValueKept | src/lib/telegram.ts:5-8 | a white-space-only value is kept and renders as nothing after its key |
| Telegram.DroppedFieldAddsNothing | src/lib/telegram.ts:5 | an `undefined` or `""` entry leaves the text as it was |
| Telegram.LinesAllKept | src/lib/telegram.ts:4-9 | when every entry is kept there is one line per entry, in entry order |
| Telegram.TextOfOne | src/lib/telegram.ts:8-11 | a single kept entry is the whole text, with no separator |
| Telegram.TextOfFour | src/lib/telegram.ts:4-11 | four kept entries give their four lines joined by newlines |
| Telegram.FieldsSnoc | src/lib/telegram.ts:4-9 | appending an entry appends its line if it is kept |
| Telegram.TextSnoc | src/lib/telegram.ts:11 | a kept entry appended after others adds one newline and its line |
| Telegram.LineNoAngles | src/lib/telegram.ts:7-8 | a line carries no angle bracket when its key carries none |
| Telegram.TextNoAngles | src/lib/telegram.ts:4-11 | the whole text carries no angle bracket when no key does |
| UriComponent.Utf8 | src/lib/telegram.ts:12 | one to four bytes per character, as UTF-8 (section 3 of RFC 3629) writes it |
| UriComponent.Escape | src/lib/telegram.ts:12 | a byte is written as `%` followed by two upper-case hex digits |
| UriComponent.DecodeEscape | src/lib/telegram.ts:12 | a decoded escape consumes at least three and at most all remaining characters |
| UriComponent.EscapedByteOfEscape | src/lib/telegram.ts:12 | a written `%XX` reads back as the same byte |
| UriComponent.Utf8Recombines | src/lib/telegram.ts:12 | the UTF-8 bytes of a character recombine to its code point |
| UriComponent.DecodeEscapeOfChar | src/lib/telegram.ts:12 | decoding the escapes of one reserved character gives back that character |
| UriComponent.DecodeEncode | src/lib/telegram.ts:12 | `decodeURIComponent(encodeURIComponent(s)) == s` for every string |
| UriComponent.EncodeIsPercentForm | src/lib/telegram.ts:12 | the encoding holds only unreserved characters and `%XX` triples |
| UriComponent.PercentFormChars | src/lib/telegram.ts:12 | every character of a percent-form text is unreserved, `%` or an upper-case hex digit |
| UriComponent.EncodeHasNoDelimiters | src/lib/telegram.ts:12 | the encoding contains no space, newline, `&`, `#`, `=` or `?` |
| CartSidebar.DeliveryLabel | src/components/CartSidebar.tsx:182-187 | "post" reads "Почта России", "cdek" reads "СДЭК" and anything else reads "OZON", each exactly |
| CartSidebar.OrderLink | src/components/CartSidebar.tsx:171-190 | with a non-blank address, the link decodes to the message; for a non-empty cart the message is "ЗАКАЗ", a blank line, each cart line cleaned on a line of its own in cart order, then the Доставка, Адрес and Итого lines; the message holds no angle bracket |
| CartSidebar.ItemLineClean | src/components/CartSidebar.tsx:179 | a cart line whose product name has no angle bracket reaches the message unchanged |
| CartSidebar.OrderHeaderClean | src/components/CartSidebar.tsx:174-181 | cleaning the first entry of a non-empty cart keeps the heading and each cart line on its own line, in cart order, with only angle brackets dropped |
| CartSidebar.OrderHeaderUnchanged | src/components/CartSidebar.tsx:174-181 | when no product name holds an angle bracket, the first entry passes cleaning unchanged |
| CartSidebar.FilterItemLines | src/components/CartSidebar.tsx:176-181 | dropping angle brackets from the joined cart lines drops them line by line, keeping the newlines |
| CartSidebar.LinesTrimmed | src/components/CartSidebar.tsx:174-181 | cart lines after a heading that does not start with white space are kept whole by trimming, since the last line ends with "₽" |
| CartSidebar.ItemLineEnds | src/components/CartSidebar.tsx:179 | every cart line ends with the rouble sign |
| CartSidebar.CleanFixed | src/lib/telegram.ts:7 | a value with no edge white space and no angle bracket passes cleaning unchanged |
| CartSidebar.DeliveryLabelClean | src/components/CartSidebar.tsx:182-187 | the delivery label survives cleaning unchanged |
| CartSidebar.RoubleTextClean | src/components/CartSidebar.tsx:189 | a formatted rouble total survives cleaning unchanged |
| CartSidebar.OrderText | src/components/CartSidebar.tsx:173-190 | with a non-blank address all four entries are kept and joined in order |
| CartSidebar.MessageOfFields | src/components/CartSidebar.tsx:173-190 | the four entries render as the header, then `Доставка: `, `Адрес: ` and `Итого: ` lines |
| CartSidebar.CheckoutSend | src/components/CartSidebar.tsx:171-207 | the send link appears exactly when `address.trim()` is non-empty, else a disabled button |
| CartSidebar.View | src/components/CartSidebar.tsx:59-88 | precedence: empty cart, then submitted order, then checkout form, then item list, each an if-and-only-if |
| CartSidebar.FooterWithItemList | src/components/CartSidebar.tsx:276 | the checkout footer shows exactly when the item list does |
| CartSidebar.MinusAtOneRemoves | src/components/CartSidebar.tsx:237-238 | minus on a line of one piece removes that line and keeps the others in order |
| CartSidebar.Sidebar.constructor | src/components/CartSidebar.tsx:27-30 | not checking out, not submitted, delivery "post", empty address |
| CartSidebar.Sidebar.HandleCheckout | src/components/CartSidebar.tsx:32-35 | submitting a non-empty address (the input is `required`, line 139) only marks the order as submitted |
| CartSidebar.Sidebar.StartCheckout | src/components/CartSidebar.tsx:285 | only the checking-out flag is set |
| CartSidebar.Sidebar.SetDeliveryMethod | src/components/CartSidebar.tsx:96 | only the delivery method changes |
| CartSidebar.Sidebar.SetAddress | src/components/CartSidebar.tsx:137 | only the address changes |
| CartSidebar.Sidebar.Minus | src/components/CartSidebar.tsx:237-238 | quantity minus one through `updateQuantity`; at one the line disappears, otherwise the total falls by the price; the cart stays open or closed as it was |
| CartSidebar.Sidebar.Plus | src/components/CartSidebar.tsx:250-251 | quantity plus one; the total rises by the price; the open flag is kept |
| CartSidebar.Sidebar.Remove | src/components/CartSidebar.tsx:262 | exactly that line is cut out and the total falls by its amount; the open flag is kept |
| CustomPage.CustomLink | src/pages/CustomPage.tsx:118-120 | for a non-blank concept, the link decodes to the heading followed by the concept, trimmed at the end and without angle brackets, with no key prefix |
| CustomPage.CustomText | src/pages/CustomPage.tsx:118-120 | the single empty-key entry renders as the heading plus the cleaned concept |
| CustomPage.CleanAfterHeading | src/lib/telegram.ts:7 | cleaning the heading plus a concept trims only the concept's end and strips its brackets |
| CustomPage.HeadingStartsTrimmed | src/pages/CustomPage.tsx:119 | the heading shields the concept's leading white space from trimming |
| CustomPage.HeadingHasNoAngles | src/pages/CustomPage.tsx:119 | the heading survives bracket stripping |
| CustomPage.CustomSend | src/pages/CustomPage.tsx:116-137 | a link exactly when `concept.trim()` is non-empty, else a disabled button |
| CustomPage.PageView | src/pages/CustomPage.tsx:81-137 | the confirmation shows exactly when submitted; otherwise the form with its send control |
| CustomPage.CustomOrderForm.constructor | src/pages/CustomPage.tsx:16-19 | not submitted, empty concept |
| CustomPage.CustomOrderForm.HandleSubmit | src/pages/CustomPage.tsx:21-24 | submitting a non-empty concept (the text area is `required`, line 110) only sets `submitted` |
| CustomPage.CustomOrderForm.SetConcept | src/pages/CustomPage.tsx:105-107 | only the concept changes |
| AdminAuth.LowerHexDigit | convex/admin.ts:9 | a lower-case hex digit |
| AdminAuth.LowerHexValue | convex/admin.ts:9 | reading a lower-case hex digit inverts `LowerHexDigit` |
| AdminAuth.LowerHexDigitValue | convex/admin.ts:9 | writing then reading a hex digit gives the value back |
| AdminAuth.HexByte | convex/admin.ts:10 | exactly two lower-case hex digits whose value is the byte (zero padded) |
| AdminAuth.HexOfBytes | convex/admin.ts:10 | twice as many characters as bytes, all lower-case hex digits |
| AdminAuth.HexOfBytesIsJoin | convex/admin.ts:10 | the rendering is the byte groups mapped and joined with "" |
| AdminAuth.ParseHex | convex/admin.ts:10 | one byte per two hex digits |
| AdminAuth.ParseHexOfBytes | convex/admin.ts:10 | parsing a rendered hash gives the digest bytes back |
| AdminAuth.HexInjective | convex/admin.ts:10 | different digests never render to the same hash |
| AdminAuth.HashPassword | convex/admin.ts:6-11 | the hash is twice the digest's length in lower-case hex and parses back to the digest |
| AdminAuth.VerifyMeansSameDigest | convex/admin.ts:13-19 | a password verifies against a stored hash exactly when the digests agree |
| AdminAuth.Login | convex/admin.ts:39-61 | an empty table fails with no token; success iff the first admin's hash verifies; a token exactly on success, hashing the password and the time |
| AdminAuth.SetupThenLogin | convex/admin.ts:21-61 | a password just set up logs in |
| AdminAuth.LoginAfterChange | convex/admin.ts:39-86 | after a change the new password logs in, and the old one only if it has the same digest |
| AdminAuth.AdminStore.constructor | convex/admin.ts:21-37 | the admins table starts empty |
| AdminAuth.AdminStore.SetupAdmin | convex/admin.ts:21-37 | throws and changes nothing when an admin exists; otherwise inserts exactly one admin with the password's hash and returns true |
| AdminAuth.AdminStore.ChangePassword | convex/admin.ts:63-86 | throws with no admin or a wrong current password, changing nothing; otherwise replaces only the first admin's hash |
| AdminRoutes.GetAdminToken | src/lib/hooks.ts:6-10 | `null` exactly when nothing is stored |
| AdminRoutes.AdminAuthGuard | src/App.tsx:23-49 | `null` shows loading with no navigation; `""` navigates to the login and shows nothing; a non-empty token shows the children, and only it does |
| AdminRoutes.AdminIndex | src/App.tsx:51-64 | always blank; a truthy token goes to the products, `null` to the login, and `""` nowhere |
| AdminRoutes.AdminNotFound | src/App.tsx:66-99 | `null` shows loading; `""` redirects to the login; a token shows the 404 page |
| AdminRoutes.GuardWithoutTokenNeverRedirects | src/App.tsx:28-30 | with nothing stored, the guard stays on loading and never redirects |
| AdminRoutes.NotFoundWithoutTokenNeverRedirects | src/App.tsx:70-76 | with nothing stored, the 404 route stays on loading |
| AdminRoutes.IndexWithEmptyTokenStaysBlank | src/App.tsx:55-63 | an empty stored token leaves the index blank with no navigation |
| AdminRoutes.ReadSession | src/lib/hooks.ts:6-16 | a read session is never unknown; it is authenticated exactly when a non-empty token is stored |
| AdminRoutes.SessionGuard | src/App.tsx:23-49 | waits while unknown, redirects when unauthenticated, admits when authenticated |
| AdminRoutes.SessionIndex | src/App.tsx:51-64 | navigates in every settled state: products when authenticated, login otherwise |
| AdminRoutes.SessionNotFound | src/App.tsx:66-99 | loading only while unknown; login redirect when unauthenticated; 404 otherwise |
| AdminRoutes.SessionGuardSettles | src/App.tsx:23-49 | once storage is read the guard never stays loading; it admits exactly the holders of a non-empty token and redirects everyone else |
| AdminRoutes.SessionGuardAgreesWhenStored | src/App.tsx:23-49 | the corrected guard equals the original whenever a token string is stored |
| AdminRoutes.SessionScreensSettle | src/App.tsx:51-99 | once storage is read the index always navigates and the 404 route never stays loading |
| AdminRoutes.RouteElement | src/App.tsx:101-139 | "/" is the index and "/auth" the login page, exactly |
| AdminRoutes.GuardedRoutes | src/App.tsx:104-134 | exactly /products, /orders and /settings are guarded; /auth is not |
| AdminRoutes.AdminScreen | src/App.tsx:101-139 | the corrected routes over a session: guarded pages go through `SessionGuard`, the index through `SessionIndex`, other paths through `SessionNotFound`, and /auth always shows the login page |
| AdminRoutes.AdminScreenAsWritten | src/App.tsx:101-139 | the routes as written over a token: guarded pages go through `AdminAuthGuard`, the index through `AdminIndex`, other paths through `AdminNotFound`, and /auth always shows the login page |
| AdminRoutes.AdminScreenAgreesWhenStored | src/App.tsx:101-139 | with a token string stored, the corrected routes show what the routes as written show on every path except the index with an empty token |
| AdminRoutes.AdminScreenSettles | src/App.tsx:101-139 | once storage is read, no corrected route stays on the loading screen |
| AdminLogin.CaughtMessage | src/pages/admin/Login.tsx:43 | an Error's message, otherwise "Произошла ошибка" |
| AdminLogin.View | src/pages/admin/Login.tsx:52-58 | loading exactly while `adminExists` is unknown, then the setup or the sign-in form |
| AdminLogin.LoginForm.constructor | src/pages/admin/Login.tsx:14-17 | empty password and error, not loading, nothing navigated |
| AdminLogin.LoginForm.HandleSubmit | src/pages/admin/Login.tsx:19-22 | for a non-empty password (the input is `required`, line 98), clears the error and sets loading, nothing else |
| AdminLogin.LoginForm.SignIn | src/pages/admin/Login.tsx:29-31 | stores `token \|\| ""` and navigates to the products |
| AdminLogin.LoginForm.FinishSubmit | src/pages/admin/Login.tsx:24-47 | the setup branch logs the new admin in or shows the setup error as the Convex client words it; the sign-in branch stores the token and navigates, or shows "Неверный пароль"; loading always ends |
| AdminSettings.Validate | src/pages/admin/Settings.tsx:21-29 | a mismatch is reported before the length; accepted iff the passwords match and are at least 4 UTF-16 units long |
| AdminSettings.AcceptedPasswordLength | src/pages/admin/Settings.tsx:26 | an accepted password has at least 2 characters, and at least 4 within the Basic Multilingual Plane |
| AdminSettings.SettingsForm.constructor | src/pages/admin/Settings.tsx:9-14 | empty fields, no error, no success, not loading |
| AdminSettings.SettingsForm.HandleSubmit | src/pages/admin/Settings.tsx:16-31 | with the three `required` fields filled (lines 71, 82, 93), clears success, sets the validation error, proceeds and sets loading only when valid; the fields are kept |
| AdminSettings.SettingsForm.FinishSubmit | src/pages/admin/Settings.tsx:33-47 | on an accepted change shows success, clears the three fields and stores the new hash; otherwise shows the server's message as the Convex client words it and keeps everything |
| ProductsApi.ListProducts | convex/products.ts:25-35 | only products passing the filter; with no filter the whole table, newest first |
| ProductsApi.ListProductsMembers | convex/products.ts:25-35 | a product is listed iff it is in the table and passes the filter |
| ProductsApi.SoldFilterIgnoresCategory | convex/products.ts:28-29 | when `isSold` is given, the category argument has no effect |
| ProductsApi.ListProductsIsFilter | convex/products.ts:26-34 | the listing is one order-keeping filter over the newest-first table |
| ProductsApi.ListProductsKeepsOrder | convex/products.ts:26-34 | listed products sit at strictly increasing positions of the newest-first table |
| ProductsApi.SeriesKeysExactly | convex/products.ts:173-179 | a key is grouped iff some product carries it as a non-empty series id |
| ProductsApi.SeriesKeysDistinct | convex/products.ts:171-181 | no series key appears twice |
| ProductsApi.SeriesKeysOfPrefix | convex/products.ts:171-181 | groups come in first-appearance order |
| ProductsApi.AllSeries | convex/products.ts:181-184 | one group per series key, in key order |
| ProductsApi.SeriesPartition | convex/products.ts:173-184 | a product with no series id is in no group; one with a series id is in exactly one group, keyed by it |
| ProductsApi.SeriesMemberListed | convex/products.ts:173-184 | a product with a series id is listed in its group |
| ProductsApi.SeriesStep | convex/products.ts:173-179 | one loop step keeps the insertion-ordered map consistent with the products seen so far |
| ProductsApi.GetAllSeries | convex/products.ts:169-185 | the loop's result equals `AllSeries` of the table |
| ProductsApi.GetImageUrls | convex/products.ts:125-136 | one URL per id in order; an `http…` id unchanged, otherwise the storage URL or "" |
| ProductsApi.Patched | convex/products.ts:106-110 | each of the eight fields is overwritten when supplied and kept when absent; the id and the creation times are kept |
| ProductsApi.PatchLaws | convex/products.ts:106-110 | an empty patch changes nothing and a patch applied twice is applied once |
| ProductsApi.ProductTable.constructor | convex/products.ts:72-91 | an empty table with unique ids |
| ProductsApi.ProductTable.CreateProduct | convex/products.ts:84-90 | appends the arguments plus `createdAt` under the fresh id |
| ProductsApi.ProductTable.UpdateProduct | convex/products.ts:106-110 | patches exactly the document with the id and no other; `found` iff it exists |
| ProductsApi.ProductTable.DeleteProduct | convex/products.ts:116-119 | the id is gone, every other product is kept in order |
| OrdersApi.ListOrders | convex/orders.ts:80-90 | with a status only orders having it; without one all orders, newest first |
| OrdersApi.ListOrdersMembers | convex/orders.ts:80-90 | an order is listed iff it is in the table and matches the status, if one is given |
| OrdersApi.CountsAddUp | convex/orders.ts:139-147 | status counts plus status-less orders make up the total |
| OrdersApi.UnsetNone | convex/orders.ts:68-76 | no order is status-less iff none is counted as unset |
| OrdersApi.GetOrderCount | convex/orders.ts:138-148 | total is the number of orders; the five counts sum to at most the total, and to exactly the total iff every order has a status |
| OrdersApi.CountMatchesListing | convex/orders.ts:80-147 | each per-status count equals the length of that status's listing |
| OrdersApi.OrdersTable.constructor | convex/orders.ts:4-36 | an empty table with unique ids |
| OrdersApi.OrdersTable.CreateOrder | convex/orders.ts:22-35 | appends the arguments unchanged with status "pending" and `createdAt` |
| OrdersApi.OrdersTable.UpdateOrderStatus | convex/orders.ts:113-116 | only that order's status changes; `found` iff it exists |
| OrdersApi.OrdersTable.DeleteOrder | convex/orders.ts:122-125 | removes exactly the order with the id, keeping the rest in order |
| ImageUrl.BaseUrl | src/lib/utils.ts:15-18 | the site URL, else the Convex URL, else the default; never empty |
| ImageUrl.GetImageUrl | src/lib/utils.ts:8-20 | "" gives the placeholder; an absolute URL is returned unchanged; anything else is the base, `/getImage?storageId=` and the image |
| ImageUrl.ResolveTwice | src/lib/utils.ts:8-20 | with an absolute base, resolving is idempotent |
| ImageUrl.DefaultBaseIsAbsolute | src/lib/utils.ts:18 | the default base is absolute |
| ImageUrl.FirstImageUrl | src/lib/utils.ts:8-9 | a product without images shows the placeholder, otherwise its first image resolved |
| HomePage.CollectionProducts | src/pages/HomePage.tsx:18-20 | only unsold products of the two shop categories |
| HomePage.CollectionMembers | src/pages/HomePage.tsx:18-20 | an unsold shop product is shown iff it is in the list |
| HomePage.Cards | src/pages/HomePage.tsx:27-36 | one card per product in order, featured iff its index is a multiple of 5 |
| HomePage.View | src/pages/HomePage.tsx:9-45 | loading until the products arrive; the empty message iff no card |
| HomePage.FeaturedShare | src/pages/HomePage.tsx:31-34 | among n cards, ⌈n/5⌉ are featured |
| ProductPage.FindById | src/pages/ProductPage.tsx:16 | the first product with the id, or none when no product has it |
| ProductPage.SelectProduct | src/pages/ProductPage.tsx:15-16 | the matching product, else the first one; none only for an empty list |
| ProductPage.View | src/pages/ProductPage.tsx:24-40 | a skeleton iff loading, "not found" iff the list is empty, otherwise a listed product |
| ProductPage.SeriesProducts | src/pages/ProductPage.tsx:42-46 | same series, other id; none without a series |
| ProductPage.RelatedProducts | src/pages/ProductPage.tsx:48-54 | every entry is related: same category, other id, unsold, outside the series |
| ProductPage.RelatedMembers | src/pages/ProductPage.tsx:48-54 | a product is related iff it is listed and meets the four conditions |
| ProductPage.SeriesMembers | src/pages/ProductPage.tsx:42-46 | a product is a variant iff it is listed, in the same series and not the product |
| ProductPage.SeriesAndRelatedDisjoint | src/pages/ProductPage.tsx:44-53 | no product is both a variant and related |
| ProductPage.ShownRelated | src/pages/ProductPage.tsx:263 | at most four related products, a prefix of the related list |
| ProductPage.Purchase | src/pages/ProductPage.tsx:230-247 | a sold product gets the disabled button, and only it does; otherwise adding this product |
| ProductPage.Press | src/pages/ProductPage.tsx:230-247 | the disabled button changes nothing; the enabled one leaves the product in the cart and opens it |
| AdminOrders.FilteredOrders | src/pages/admin/Orders.tsx:38-40 | "all" shows every order; a status shows only orders having it |
| AdminOrders.FilteredMembers | src/pages/admin/Orders.tsx:38-40 | an order is shown iff it matches; a status-less order appears only under "all" |
| AdminOrders.StatusLabelsDistinct | src/pages/admin/Orders.tsx:15-21 | every status has its own label |
| AdminOrders.OrderBadge | src/pages/admin/Orders.tsx:113-119 | a missing status shows as "Новый" with the pending colour |
| AdminOrders.DeliveryShown | src/pages/admin/Orders.tsx:145-149 | "post", "cdek" and anything else map to the three labels, each an if-and-only-if |
| AdminOrders.ItemAmount | src/pages/admin/Orders.tsx:166 | ends in " ₽", and its digits are those of price × quantity |
| AdminOrders.ShortId | src/pages/admin/Orders.tsx:109 | the last eight characters, or the whole id when it is shorter |
| AdminOrders.View | src/pages/admin/Orders.tsx:95-103 | a skeleton while loading; the empty state iff nothing matches; otherwise the filtered orders |
| AdminOrders.OrdersScreen.constructor | src/pages/admin/Orders.tsx:35-36 | filter "all", nothing expanded |
| AdminOrders.OrdersScreen.SetFilter | src/pages/admin/Orders.tsx:82 | only the filter changes |
| AdminOrders.OrdersScreen.Toggle | src/pages/admin/Orders.tsx:201-204 | collapses the open order, otherwise opens the clicked one |
| AdminOrders.OrdersScreen.ChangeStatus | src/pages/admin/Orders.tsx:42-44 | only that order's status changes in the table |
| AdminOrders.AtMostOneExpanded | src/pages/admin/Orders.tsx:173 | among orders with distinct ids, at most one is expanded |
| AdminProducts.SanitizePrice | src/pages/admin/Products.tsx:200-203 | no digits gives 0; otherwise the price's decimal form is the digits typed (when they have no leading zero) |
| AdminProducts.DecimalOfParsed | src/pages/admin/Products.tsx:202 | digits without a leading zero are the decimal form of their value |
| AdminProducts.DigitsCanonical | src/pages/admin/Products.tsx:202 | canonical digit strings of equal value are equal |
| AdminProducts.PriceInputRoundTrip | src/pages/admin/Products.tsx:199-202 | re-reading what the price input shows gives the price back |
| AdminProducts.PastedPrice | src/pages/admin/Products.tsx:201-202 | pasting a price as the shop displays it (ru-RU grouping and " ₽") yields that price |
| AdminProducts.SanitizeIdempotent | src/pages/admin/Products.tsx:199-202 | sanitising what was sanitised changes nothing |
| AdminProducts.WithoutIndex | src/pages/admin/Products.tsx:161-166 | a valid index removes exactly that image, keeping the others in order; any other index changes nothing |
| AdminProducts.SubmittedFields | src/pages/admin/Products.tsx:136-145 | empty subcategory or series become absent, and every other field is copied |
| AdminProducts.EditForm | src/pages/admin/Products.tsx:105-118 | a missing subcategory or series shows as "" |
| AdminProducts.EditThenSubmit | src/pages/admin/Products.tsx:105-145 | editing and saving an untouched form sends the product's own fields |
| AdminProducts.EditPatch | src/pages/admin/Products.tsx:140-148 | cleared optional fields are left out of the update |
| AdminProducts.ClearedSeriesKept | src/pages/admin/Products.tsx:140-148 | clearing a product's series in the editor and saving leaves the old series stored |
| AdminProducts.IntendedEdit | src/pages/admin/Products.tsx:136-148 | the edited product carries every form field, and a cleared optional field is removed |
| AdminProducts.IntendedEditAgrees | src/pages/admin/Products.tsx:105-148 | agrees with the update as sent when nothing is cleared, and reopening it shows the saved form |
| AdminProducts.ProductsForm.constructor | src/pages/admin/Products.tsx:56-59 | not editing, the empty form, empty URL input |
| AdminProducts.ProductsForm.HandleAddImageUrl | src/pages/admin/Products.tsx:98-103 | a new non-empty URL is appended and the input cleared; otherwise nothing changes |
| AdminProducts.ProductsForm.RemoveImage | src/pages/admin/Products.tsx:161-166 | only the images change, by `WithoutIndex` |
| AdminProducts.ProductsForm.SetPrice | src/pages/admin/Products.tsx:200-203 | only the price changes, to the sanitised input |
| AdminProducts.ProductsForm.ToggleSold | src/pages/admin/Products.tsx:321-323 | only `isSold` flips |
| AdminProducts.ProductsForm.HandleEdit | src/pages/admin/Products.tsx:105-118 | editing this product with its form |
| AdminProducts.ProductsForm.HandleCreate | src/pages/admin/Products.tsx:120-124 | editing a new product with the empty form (merch, price 0, unsold, no images) |
| AdminProducts.ProductsForm.HandleSubmit | src/pages/admin/Products.tsx:132-159 | with a name and a non-zero price (the `required` inputs at lines 189 and 205), creates the submitted fields or patches the edited product, then closes the editor with the empty form |
| AdminProducts.ProductsForm.HandleDelete | src/pages/admin/Products.tsx:126-130 | deletes only when confirmed; the rest of the table is kept |
| Numbers.Decimal | src/pages/admin/Products.tsx:199 | digits only, with no leading zero |
| Numbers.ParseDecimal | src/pages/admin/Products.tsx:199-202 | parsing a rendering gives the number back |
| Numbers.DecimalInjective | src/pages/admin/Products.tsx:199 | different numbers render differently |
| Numbers.DigitsOnly | src/pages/admin/Products.tsx:201 | keeps only digits and is no longer than the input |
| Numbers.DigitsOnlyConcat | src/pages/admin/Products.tsx:201 | removing non-digits distributes over concatenation |
| Numbers.GroupThousands | src/components/CartSidebar.tsx:179 | separators only are added, and the first and last digits stay in place; the layout is `Numbers.GroupThousandsLayout` |
| Numbers.GroupThousandsLayout | src/components/CartSidebar.tsx:179 | counted from the right every fourth character is the separator and the rest are digits: groups of exactly three after a first group of one to three; the length grows by one separator per further group |
| Numbers.ShortGroup | src/components/CartSidebar.tsx:179 | up to three digits form one group |
| Numbers.NextGroup | src/components/CartSidebar.tsx:179 | a separator and three more digits after a grouped text keep it grouped |
| Numbers.DigitsOnlyOfGrouped | src/components/CartSidebar.tsx:179 | removing the separators restores the digits |
| Numbers.FormatRu | src/components/CartSidebar.tsx:179 | only digits, separators and a sign, ending in a digit |
| Numbers.FormatRuGrouped | src/components/CartSidebar.tsx:189 | a formatted amount is its digits in groups of three from the right, after a minus sign when negative |
| Numbers.FormatRuDigits | src/components/CartSidebar.tsx:189 | the digits of a formatted amount are its decimal rendering |
| Numbers.FormatRuNoAngles | src/components/CartSidebar.tsx:189 | a formatted amount never contains an angle bracket |
| JsText.TrimIsSlice | src/lib/telegram.ts:7 | the trimmed text is a slice of the input, and what is cut off is white space |
| JsText.TrimEdges | src/lib/telegram.ts:7 | a trimmed text neither starts nor ends with white space |
| JsText.TrimEmptyIffBlank | src/components/CartSidebar.tsx:171 | `trim()` is empty iff the text is all white space |
| JsText.TrimOfTrimmed | src/lib/telegram.ts:7 | trimming is idempotent |
| JsText.JoinOffset | src/lib/sitemap.ts:45-54 | where each part sits in a joined text |
| JsText.Utf16LengthBmp | src/pages/admin/Settings.tsx:26 | within the Basic Multilingual Plane the UTF-16 length is the number of characters |
| SeoConfig.PagePathAbsolute | src/lib/seo-config.ts:40-102 | every configured path starts with "/" |
| SeoConfig.PagePathsDistinct | src/lib/seo-config.ts:40-102 | different pages have different paths |
| SeoConfig.PageOrderComplete | src/lib/seo-config.ts:40-102 | every page appears exactly once in declaration order |
| SeoConfig.GenerateProductMeta | src/lib/seo-config.ts:113-134 | title is the name and the suffix; description and product description fall back when empty; the image is the first image in both places; name, price and sold flag copied |
| SeoConfig.FallbackMentionsPrice | src/lib/seo-config.ts:124 | the fallback description contains the name and the formatted price in roubles |
| Sitemap.FreqTextInjective | src/lib/sitemap.ts:24 | different frequencies render differently |
| Sitemap.PriorityText | src/lib/sitemap.ts:51 | 1.0 prints "1", 0.0 prints "0", others "0." and their digit |
| Sitemap.PagePriority | src/lib/sitemap.ts:25-30 | 1.0 iff "/", 0.9 iff "/originals" or "/merch", 0.7 otherwise |
| Sitemap.StaticUrls | src/lib/sitemap.ts:20-32 | one entry per configured page, in declaration order |
| Sitemap.ProductUrls | src/lib/sitemap.ts:34-39 | one weekly 0.8 entry per id, in order; none when ids are absent |
| Sitemap.AllUrls | src/lib/sitemap.ts:20-41 | pages then products; count, shared date, page locations and frequencies, product entries |
| Sitemap.StaticPriorities | src/lib/sitemap.ts:25-30 | in configuration order the priorities are 1.0, 0.9, 0.9, then 0.7 |
| Sitemap.ProductRanking | src/lib/sitemap.ts:25-38 | only the first entry has priority 1.0; every product entry ranks below a 0.9 page and above a 0.7 page |
| Sitemap.ProductLocInjective | src/lib/sitemap.ts:35 | different ids give different addresses |
| Sitemap.UrlXml | src/lib/sitemap.ts:47-52 | the entry's address sits right after the opening tags |
| Sitemap.GenerateSitemap | src/lib/sitemap.ts:43-57 | the document starts with the XML declaration and `urlset` opening and ends with its closing |
| Sitemap.EntryLocWritten | src/lib/sitemap.ts:41-57 | every entry's address occurs in the document |
| Sitemap.ProductListed | src/lib/sitemap.ts:34-57 | every product id given is listed by its address |
| SchemaOrg.SameAs | src/lib/schema.ts:19-24 | a link is kept iff it is non-empty; nothing is added |
| SchemaOrg.SocialLinksKept | src/lib/schema.ts:61-65 | the configured links are all kept |
| SchemaOrg.VkDropped | src/lib/schema.ts:19-24 | the empty VK link is dropped |
| SchemaOrg.OrganizationSchema | src/lib/schema.ts:3-33 | sameAs is the three social links; logo and url are under the site; the contact point is a sales contact by the organization's own e-mail, for RU, in Russian |
| SchemaOrg.LocalBusinessSchema | src/lib/schema.ts:35-67 | sameAs is the social links; the image is the OG image under the site; it serves its own city, at the Moscow coordinates, daily 10:00-20:00, price range "₽₽" |
| SchemaOrg.PersonSchema | src/lib/schema.ts:69-91 | sameAs is the social links; the address has no region |
| SchemaOrg.WebsiteSchema | src/lib/schema.ts:149-170 | url is the site and the language is Russian |
| SchemaOrg.AvailabilityUrl | src/lib/schema.ts:119-122 | SoldOut iff declared sold out, otherwise InStock |
| SchemaOrg.ProductSchema | src/lib/schema.ts:103-129 | brand and seller are the shop; fields copied; currency defaults to RUB; availability as declared |
| SchemaOrg.BreadcrumbSchema | src/lib/schema.ts:136-147 | one item per input, positions i+1, names and urls copied |
| SchemaOrg.BreadcrumbRoundTrip | src/lib/schema.ts:140-145 | reading the items back gives the trail; positions increase from 1 to n |
| SchemaOrg.FaqSchema | src/lib/schema.ts:172-187 | one question per item, with its name and answer |
| SchemaOrg.FaqRoundTrip | src/lib/schema.ts:178-185 | reading the questions back gives the items |
| SeoHead.PageField | src/components/SEO.tsx:41-43 | a field exactly when a page is named |
| SeoHead.FirstTruthy | src/components/SEO.tsx:45-50 | the first non-empty of the prop and the page field, else the fallback |
| SeoHead.FinalTitle | src/components/SEO.tsx:45 | never empty; the prop, then the page's title, then the site name |
| SeoHead.FinalDescription | src/components/SEO.tsx:46-47 | the prop, then the page's description, then the site description |
| SeoHead.FinalKeywords | src/components/SEO.tsx:48-49 | the prop, then the page's keywords, then the site keywords joined by ", " |
| SeoHead.FinalPath | src/components/SEO.tsx:50 | never empty; the prop, then the page's path, then "/" |
| SeoHead.FullUrl | src/components/SEO.tsx:54 | the site URL followed by the final path |
| SeoHead.FinalImage | src/components/SEO.tsx:51 | the prop, else the OG image |
| SeoHead.FullImageUrl | src/components/SEO.tsx:55-57 | always starts with "http"; an http image is kept, otherwise it is put under the site |
| SeoHead.Robots | src/components/SEO.tsx:52-101 | "noindex, nofollow" iff the prop says so, since no configured page opts out |
| SeoHead.OgType | src/components/SEO.tsx:110 | "product" iff a product is given, otherwise "website" |
| SeoHead.HeadOf | src/components/SEO.tsx:93-121 | canonical equals og:url; title, description and image agree across the tags |
| SeoHead.ProductParamsOf | src/components/SEO.tsx:67-74 | the page's own URL, and SoldOut iff the product is sold |
| SeoHead.ProductOffer | src/components/SEO.tsx:65-76 | the offer is in RUB, sold out iff sold, at the page's URL |
| SeoHead.CrumbItems | src/components/SEO.tsx:81-84 | each crumb's path put under the site URL |
| SeoHead.BuildSchemas | src/components/SEO.tsx:59-91 | Organization, LocalBusiness, WebSite first; Product iff a product, Breadcrumb iff crumbs, Person iff the about page, in that order |
| Seqs.FilterKeepsSlice | src/lib/telegram.ts:7 | filtering a slice whose every element passes leaves it unchanged |
| Seqs.ReversedMembers | convex/products.ts:26 | reversing keeps the members |

## Left out

- The image upload handler (src/pages/admin/Products.tsx:63-96), `generateUploadUrl`, `deleteImage` and the `/getImage` HTTP route. These are storage and network I/O. The storage lookup is a function parameter of `ProductsApi.GetImageUrls`.
- `getProduct`, `getOrder` and `getProductsBySeries`. These are single database reads that no modelled page uses.
- SHA-256 is a function parameter (`AdminAuth.Digest`). Its own properties are not modelled.
- `Date.now()`, `new Date()`, fresh document ids, stored browser data and the confirmation dialog are parameters.
- Database failures are not modelled. A patch or a delete of a missing id is reported as `found == false` or is a no-op.
- `toLocaleString("ru-RU")` is modelled for whole numbers only, as three-digit groups with a non-breaking space. Fractional prices and the 53-bit precision of JavaScript numbers are not modelled: prices are unbounded integers.
- `JSON.stringify` of the JSON-LD objects, the Helmet rendering, CSS classes, images and animations are not modelled. Neither are the React render cycle, effect timing and batching of state updates.
- The static pages (About, Contacts, Delivery, Category) and the navigation are not modelled.
- The JSON-LD `@context` and the `@type` of nested objects (`PostalAddress`, `ContactPoint`, `GeoCoordinates`, `City`) are implied by the constructors. The coordinates are exact decimals: JavaScript's binary floating point is not modelled.
- `AdminProducts.SanitizePrice`: states the decimal value only for digit strings without a leading zero. With a leading zero (`Number("007")` is 7) its contract leaves the value unstated.
- `AdminAuth.AdminStore.CheckAdminExists` carries no contract: it is `admins` being non-empty, as in convex/admin.ts:88-95.
- `AdminProducts.ProductsForm.HandleSubmit`: models the code as written (the update leaves out cleared fields). The corrected edit is `AdminProducts.IntendedEdit` (see Findings).
- `Telegram.CreateTelegramLink`: the record's values are modelled as strings, entries keep the order they are given in, and a sequence of entries may repeat a key. `String(value)` of a number value, the `Object.entries` rule that lists integer-like keys first, and the uniqueness of record keys are not modelled. Every caller (the cart panel and the custom-order page) passes string values under distinct keys that are not integer-like. The same holds for `Telegram.Lines` and `Telegram.Text`.
- `UriComponent.DecodeEncode`: proved for Dafny strings, which hold only Unicode scalar values. A JavaScript string can also hold a lone surrogate, on which `encodeURIComponent` throws `URIError`. That case is not modelled.
- `AdminLogin.LoginForm.FinishSubmit` and `AdminSettings.SettingsForm.FinishSubmit` take the client's wording of a server error as the parameter `clientMessage`. The mutations in convex/admin.ts throw plain `Error`s, and the Convex client wraps their text or replaces it depending on the deployment. That wording is not modelled.
- The browser's `required` check on form inputs is a precondition of the submit handlers (`CartSidebar.Sidebar.HandleCheckout`, `CustomPage.CustomOrderForm.HandleSubmit`, `AdminLogin.LoginForm.HandleSubmit`, `AdminSettings.SettingsForm.HandleSubmit`, `AdminProducts.ProductsForm.HandleSubmit`). The browser's own validation message is not modelled.
- `Sitemap.GenerateSitemap`: states the XML framing and, through `Sitemap.EntryLocWritten`, that every address occurs. The full text of each `<url>` element is given by `Sitemap.UrlXml` but is not proved character by character.

## Findings

| source | as written | input that shows it | evidently intended | confidence | as-written member | corrected member |
|---|---|---|---|---|---|---|
| src/App.tsx:28-30 with src/lib/hooks.ts:6-10 | `AdminAuthGuard` waits while the token is `null`, and `getAdminToken` returns `null` whenever nothing is stored | a visitor with no `adminToken` in storage opens /admin/products | an absent token sends the visitor to /admin/auth; only a not-yet-read session waits | not executed | AdminRoutes.GuardWithoutTokenNeverRedirects | AdminRoutes.SessionGuardSettles |
| src/App.tsx:70-76 | `AdminNotFound` shows loading for `null` | no stored token, any unknown admin path | redirect to /admin/auth | not executed | AdminRoutes.NotFoundWithoutTokenNeverRedirects | AdminRoutes.SessionScreensSettle |
| src/App.tsx:55-63 | `AdminIndex` navigates for a truthy token and for `null`, but not for `""` | stored token `""` (written by the login page's `token \|\| ""`), path /admin | an empty token is sent to /admin/auth | not executed | AdminRoutes.IndexWithEmptyTokenStaysBlank | AdminRoutes.SessionIndex |
| src/pages/admin/Products.tsx:140,144 with convex/products.ts:107-108 | clearing the series (or subcategory) maps it to `undefined`, which leaves it out of the patch, so the stored value stays | edit a product in series "a", clear the series field, save | the series is removed | not executed; relies on `undefined` arguments being dropped before the patch | AdminProducts.ClearedSeriesKept | AdminProducts.IntendedEditAgrees |
