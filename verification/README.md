# AGRO-LINK frontend kernels in Dafny

AGRO-LINK is a farmer/buyer marketplace. Its web frontend has no engine of
its own. It does hold a set of small, deterministic kernels inside its
routes and components. This project models those kernels as pure Dafny
functions over immutable datatypes and proves what the pages and routes
promise about them.

- **Proof-of-payment store** (`ProofSchema`, `UploadProof`). This is the
  `Proof` collection and the `/api/orders/upload-proof` route. `POST`
  validates its form, names the stored file after the upload's extension,
  and upserts one proof per order. `GET` validates its query and looks the
  proof up; a missing proof is a 404.
- **Farmer order gating** (`FarmerOrders`). It decides which buttons an
  order offers, how the status and payment badges are coloured, and how
  each action's success or failure changes the order list and the detail
  view.
- **My listings** (`MyListings`): loading, deleting by id after
  confirmation, and adding after the pre-request checks.
- **Sign-up** (`SignUp`): field edits, user-type switching, the endpoint
  and payload choice (including comma-list splitting and trimming), the
  form reset, and the error text.
- **Marketplace transforms**:
  - `ProductImages`: the ordered keyword-to-picture rules.
  - `FarmerMarket`: the case-insensitive search filter.
  - `BuyerMarket`: the null-normalisation of fetched products and the
    farmer-profile dialog.
- **Dashboard aggregations**:
  - `TopSelling`: the left-fold sum and the arg-max whose ties go to the
    later item.
  - `OrderStatusChart`: the three slices, their total, the view precedence
    and the colours.
- **Chat log** (`MessageSchema`, `MessagesRoute`): append-only, required
  fields, read back newest first.
- **Small dispatchers**:
  - `Login`: storage writes, role routing and error text.
  - `FarmerLayout`: the sidebar dispatch and highlight.
  - `Navbar`: the avatar letter, the dropdown and logout.

Shared modules:

- `Web` models JavaScript truthiness and `||` fallbacks, `localStorage` as a
  map, and fetch outcomes.
- `Text` models `toLowerCase`/`toUpperCase` over ASCII, `includes`,
  `split`, `pop` after a split, and `trim` with the ECMAScript whitespace
  set.
- `Seqs` models `Array.prototype.map` and `Array.prototype.filter`.

The network, the database, the file system, the clock and random names
are all parameters. A server reply is a value of a reply datatype. An I/O
fault is a `Fault` value. `Date.now()` and `new Date()` are `now`. The
random file-name stem is `stem`.

Some behaviours of the code are easy to misread, and the model keeps them
as written:

- **The order-status string.** The collect action requests status
  `COMPLETED` (src/app/views/farmer/orders/page.tsx:83), but the status
  badge colours only `COLLECTED` green (page.tsx:183-189).
  `FarmerOrders.CollectedRequestShowsRed` proves that such an order shows
  red.
- **When the upload route connects.** The upload route connects to the
  database (route.ts:11) before it validates the form (route.ts:21). A
  connection failure therefore answers 500 even for a request that is
  missing its fields.
- **Sign-up error text.** A thrown `Error` with an empty message shows the
  empty message (sign-up/page.tsx:112). Only a non-`Error` value, or an
  empty response body, falls back to "Registration failed".
- **Who may cancel or collect.** The page offers collect and cancel only
  for a PENDING order (page.tsx:210 and 343). The request itself is sent
  to the backend, whose answer is a parameter here.

## Model

| member | source | states |
|---|---|---|
| ProofSchema.Create | src/app/views/Interface/ProofSchema.ts:3-7 | a proof is created exactly when orderId is given and proofUrl is a non-empty string; the fields are kept; a missing uploadedAt takes the creation time |
| ProofSchema.FindOne | src/app/api/orders/upload-proof/route.ts:96 | finds a proof exactly when some stored proof has the order, and what it finds is a stored proof for that order |
| ProofSchema.Upsert | src/app/api/orders/upload-proof/route.ts:52-56 | the upsert keeps the collection size when the order is present and adds exactly one document when it is absent |
| ProofSchema.UpsertThenFind | src/app/api/orders/upload-proof/route.ts:52-56 | after the upsert, looking the order up yields the new url and time |
| ProofSchema.UpsertKeepsOthers | src/app/api/orders/upload-proof/route.ts:52-56 | the upsert leaves the lookup of every other order unchanged |
| ProofSchema.UpsertOrders | src/app/api/orders/upload-proof/route.ts:52-56 | the upsert introduces no order other than its own |
| ProofSchema.UpsertKeepsUnique | src/app/views/Interface/ProofSchema.ts:4 | the upsert preserves the unique index on orderId |
| UploadProof.Post | src/app/api/orders/upload-proof/route.ts:7-72 | a connection failure gives 500 and a missing orderId or file gives 400 "Missing orderId or file", both with the store untouched; after validation a write or store failure gives 500 "Server error", a write failure with the store untouched and a store failure with the file already written; a 200 comes exactly with no fault and both fields; the 200 stores the bytes under the generated name and upserts "/uploads/"+name; every non-200 leaves the proofs as they were |
| UploadProof.Get | src/app/api/orders/upload-proof/route.ts:74-118 | a connection failure, or a lookup failure after validation, gives 500 "Server error"; a missing orderId gives 400; an order with no proof gives 404 "Proof not found"; a 200 comes exactly when the order has a proof, and returns that stored proof's url |
| UploadProof.UploadUrlKeepsExtension | src/app/api/orders/upload-proof/route.ts:41-49 | the returned url starts with "/uploads/" and ends with "." plus the text after the last dot of the uploaded name (the whole name when it has none) |
| UploadProof.PostElsewhereKeepsLookup | src/app/api/orders/upload-proof/route.ts:52-56 | a POST for another order leaves this order's lookup unchanged |
| UploadProof.KeepsLookup | src/app/api/orders/upload-proof/route.ts:52-56 | a run of requests none of which posts for order k leaves k's lookup unchanged |
| UploadProof.UploadThenGet | src/app/api/orders/upload-proof/route.ts:49-110 | round trip: after a successful POST for k returning url u, GET for k returns 200 with u through any requests that do not POST for k |
| UploadProof.RunKeepsUnique | src/app/views/Interface/ProofSchema.ts:4 | no sequence of requests ever stores two proofs for one order |
| MessageSchema.Create | src/app/messaging/Message.ts:10-14 | a message is created exactly when senderEmail and content are non-empty strings; the fields are kept; a missing timestamp takes the creation time |
| MessagesRoute.Insert | src/app/messages/route.ts:8 | inserting adds exactly the one message to the multiset of messages |
| MessagesRoute.InsertKeepsOrder | src/app/messages/route.ts:8 | inserting into a newest-first list keeps it newest first |
| MessagesRoute.SortNewestFirst | src/app/messages/route.ts:8 | the result is ordered by descending timestamp and is a permutation of the input |
| MessagesRoute.Get | src/app/messages/route.ts:6-10 | GET returns every stored message exactly once, newest first |
| MessagesRoute.Post | src/app/messages/route.ts:12-23 | 201 exactly when sender and content are non-empty; the created message carries them and the time now and is appended at the end; existing messages are unchanged; a rejected message stores nothing |
| MessagesRoute.PostedMessageReadFirst | src/app/messages/route.ts:8-20 | a message posted later than everything stored is the first one the next GET returns |
| FarmerOrders.StatusColour | src/app/views/farmer/orders/page.tsx:183-189 | the status badge is yellow exactly for PENDING, green exactly for COLLECTED, red for anything else |
| FarmerOrders.PaymentBadge | src/app/views/farmer/orders/page.tsx:196-206 | the label falls back to PENDING; green exactly for PAID, red exactly for CANCELLED, blue exactly for REFUNDED, yellow otherwise |
| FarmerOrders.PaymentBadgeAgreesWithLabel | src/app/views/farmer/orders/page.tsx:196-206 | the badge colour agrees with the label it shows, and a missing status looks like PENDING |
| FarmerOrders.RowActions | src/app/views/farmer/orders/page.tsx:210-230 | the row offers collect and cancel exactly for a PENDING order, and always offers View Details |
| FarmerOrders.Panel | src/app/views/farmer/orders/page.tsx:307-338 | Confirm Payment's section shows exactly when a proof is loaded and the order is not PAID, "already confirmed" exactly when a proof is loaded and it is PAID, and "no proof" exactly when none is loaded |
| FarmerOrders.DetailActions | src/app/views/farmer/orders/page.tsx:307-370 | the detail view offers Confirm Payment exactly when a proof is loaded and the order is unpaid, and collect and cancel exactly for PENDING |
| FarmerOrders.RowAndDetailAgree | src/app/views/farmer/orders/page.tsx:343-364 | the row and the detail view offer collect and cancel under the same condition |
| FarmerOrders.FetchOrders | src/app/views/farmer/orders/page.tsx:26-46 | with a stored email a successful fetch replaces the list; otherwise the list is kept; loading ends |
| FarmerOrders.MarkCollected | src/app/views/farmer/orders/page.tsx:81-97 | one request for status COMPLETED; on success the refetched list and the success notice; on failure the list unchanged and the failure notice |
| FarmerOrders.Cancel | src/app/views/farmer/orders/page.tsx:99-116 | one cancel request; on success the refetched list; on failure the list unchanged |
| FarmerOrders.ConfirmPay | src/app/views/farmer/orders/page.tsx:118-140 | one request for payment PAID; success refetches and closes the detail view; failure keeps the list and the view |
| FarmerOrders.DetailCollect | src/app/views/farmer/orders/page.tsx:343-352 | asks for COMPLETED on the open order and closes the view; success refetches with the success notice, failure keeps the list with the failure notice |
| FarmerOrders.DetailCancel | src/app/views/farmer/orders/page.tsx:353-361 | cancels the open order and closes the view; success refetches with the success notice, failure keeps the list with the failure notice |
| FarmerOrders.DetailViewClosing | src/app/views/farmer/orders/page.tsx:343-364 | the detail view's collect and cancel close it on success and failure alike; Confirm Payment closes it exactly on success |
| FarmerOrders.CollectedRequestShowsRed | src/app/views/farmer/orders/page.tsx:83-189 | the status the collect action requests is coloured red by the status badge |
| FarmerOrders.Open | src/app/views/farmer/orders/page.tsx:74-79 | opening an order selects it, starts the proof lookup and shows no proof yet |
| FarmerOrders.ProofArrived | src/app/views/farmer/orders/page.tsx:48-69 | a proof is loaded exactly when the lookup succeeded with a url; a failed lookup leaves none |
| FarmerOrders.CloseDetail | src/app/views/farmer/orders/page.tsx:365-369 | closing drops the selection and the loaded proof |
| FarmerOrders.ProofLookupGatesConfirm | src/app/views/farmer/orders/page.tsx:55-64 | after a failed lookup the view shows no proof and no payment action; after one with a url, Confirm Payment is offered exactly while unpaid |
| MyListings.FetchMyProducts | src/app/views/farmer/my-listings/page.tsx:38-61 | no request without a stored email; success replaces the list; failure keeps it with "Failed to load products"; loading ends |
| MyListings.DeleteProduct | src/app/views/farmer/my-listings/page.tsx:68-88 | declining sends nothing and changes nothing; success keeps exactly the products of another id, each as often as before; failure keeps the list |
| MyListings.DeleteKeepsOrder | src/app/views/farmer/my-listings/page.tsx:80 | the products that survive a delete keep their order |
| MyListings.AddProduct | src/app/views/farmer/my-listings/page.tsx:91-140 | no request without an email or a product type, with the matching notice; success appends the saved product, closes the form and clears the draft; otherwise the list and the draft are kept |
| MyListings.AddAppendsLast | src/app/views/farmer/my-listings/page.tsx:124 | a successful add puts the saved product last with every earlier product in its old place; deleting it again when its id is new gives back the earlier list |
| MyListings.ProductTypeChoicesPassCheck | src/app/views/farmer/my-listings/page.tsx:16-22 | the five product types are distinct and each passes the product-type check |
| SignUp.Set | src/app/views/sign-up/page.tsx:30-32 | setting a field changes that field and no other |
| SignUp.RoleFor | src/app/views/sign-up/page.tsx:38 | FARMER registers as FARMER and BUYER as USER |
| SignUp.EmptyForm | src/app/views/sign-up/page.tsx:93-110 | the reset form is empty except gender MALE and the role of the user type |
| SignUp.Change | src/app/views/sign-up/page.tsx:30-32 | an edit changes exactly the named field |
| SignUp.ChangeUserType | src/app/views/sign-up/page.tsx:34-40 | switching user type sets role FARMER or USER and changes no other field |
| SignUp.TrimEach | src/app/views/sign-up/page.tsx:57-61 | each piece is trimmed, and the count is kept |
| SignUp.CommaList | src/app/views/sign-up/page.tsx:57-61 | a list field has one piece more than it has commas |
| SignUp.CommaListPieces | src/app/views/sign-up/page.tsx:57-61 | each piece is its comma-separated text with only surrounding whitespace removed, holds no comma and neither begins nor ends with whitespace |
| SignUp.EmptyCommaList | src/app/views/sign-up/page.tsx:57 | an empty list field is sent as [""] |
| SignUp.KeysDistinct | src/app/views/sign-up/page.tsx:7-25 | distinct form fields have distinct JSON keys |
| SignUp.Object | src/app/views/sign-up/page.tsx:54-73 | the object holds exactly the listed fields' keys with their values |
| SignUp.FieldListed | src/app/views/sign-up/page.tsx:7-25 | every form field is among the sixteen |
| SignUp.FarmerValue | src/app/views/sign-up/page.tsx:54-62 | the five list fields are split and trimmed, farm size goes to number parsing, the rest is sent as typed |
| SignUp.BuyerValue | src/app/views/sign-up/page.tsx:66-73 | the buyer role is USER whatever the form holds, the other fields are as typed |
| SignUp.FarmerPayload | src/app/views/sign-up/page.tsx:54-62 | the farmer payload holds every form field |
| SignUp.BuyerPayload | src/app/views/sign-up/page.tsx:66-73 | the buyer payload holds exactly fullname, username, email, password, gender and role |
| SignUp.SubmitRequest | src/app/views/sign-up/page.tsx:51-74 | a farmer posts the farmer payload to /api/farmers/register, a buyer the buyer payload to /api/user/sign-up |
| SignUp.FailureText | src/app/views/sign-up/page.tsx:84-113 | a rejection shows its body, or "Registration failed" when the body is empty; a thrown Error shows its message; anything else thrown shows "Registration failed" |
| SignUp.Submit | src/app/views/sign-up/page.tsx:42-117 | success resets the form for the current user type; failure keeps the form and shows the failure text; loading ends |
| SignUp.RoleStaysInStep | src/app/views/sign-up/page.tsx:6-40 | the role stays in step with the user type initially and through edits, switches and submits |
| SignUp.SubmittedRole | src/app/views/sign-up/page.tsx:51-74 | the submitted role is that of the user type whenever the form's role is in step |
| ProductImages.FirstRule | src/app/views/farmer/market/page.tsx:20-28 | the first rule from a position whose keyword is included, none skipped |
| ProductImages.ProductImage | src/app/views/farmer/market/page.tsx:20-29 | a rule's picture exactly when it is the first keyword the lower-cased type includes, in the order maize, mango, beef, fertilizer, beans, tomato; the default exactly when none is included |
| ProductImages.ImageIgnoresCase | src/app/views/farmer/market/page.tsx:21 | upper- or lower-casing the type does not change the picture |
| ProductImages.EarlierRuleWins | src/app/views/buyer/market-place/page.tsx:104-113 | a type including both maize and beans shows maize |
| FarmerMarket.FetchProducts | src/app/views/farmer/market/page.tsx:31-43 | a failed fetch leaves the list empty; loading ends |
| FarmerMarket.Search | src/app/views/farmer/market/page.tsx:80 | typing sets the search term and leaves the products and loading as they were |
| FarmerMarket.Filtered | src/app/views/farmer/market/page.tsx:49-51 | exactly the products whose lower-cased type includes the lower-cased term are kept, each as often as in the list |
| FarmerMarket.FilteredKeepsOrder | src/app/views/farmer/market/page.tsx:49-51 | the filtered list is an ordered subsequence, and an empty term keeps every product |
| FarmerMarket.SearchIgnoresCase | src/app/views/farmer/market/page.tsx:50 | upper- or lower-casing the term does not change the result |
| FarmerMarket.CommentLine | src/app/views/farmer/market/page.tsx:133-136 | the comment line appears exactly for a non-empty comment list |
| FarmerMarket.Render | src/app/views/farmer/market/page.tsx:53-140 | the spinner exactly while loading, "No products found" exactly when the filter is empty, otherwise one card per match with its type and picture |
| FarmerMarket.LoadedShowsAll | src/app/views/farmer/market/page.tsx:31-51 | with an empty search, every fetched product has a card |
| BuyerMarket.NumberOr | src/app/views/buyer/market-place/page.tsx:80 | a missing or zero quantity gives the fallback, any other is kept |
| BuyerMarket.ListOr | src/app/views/buyer/market-place/page.tsx:77 | a missing comment list becomes [], any list is kept |
| BuyerMarket.Normalize | src/app/views/buyer/market-place/page.tsx:75-81 | the id is kept; falsy type becomes "Unknown Product", falsy email "Unknown", missing quantity 0, missing comments []; present values are kept |
| BuyerMarket.NormalizeIdempotent | src/app/views/buyer/market-place/page.tsx:75-81 | normalising a normalised product changes nothing |
| BuyerMarket.Load | src/app/views/buyer/market-place/page.tsx:68-91 | an array is normalised element by element with ids kept; a non-array or failure gives []; loading ends |
| BuyerMarket.SelectFarmer | src/app/views/buyer/market-place/page.tsx:157 | clicking a farmer opens the dialog for that product and keeps the list |
| BuyerMarket.CloseDialog | src/app/views/buyer/market-place/page.tsx:192 | closing the dialog clears the selection and keeps the list |
| BuyerMarket.SafeComments | src/app/views/buyer/market-place/page.tsx:22 | missing comments become [] |
| BuyerMarket.DialogEmail | src/app/views/buyer/market-place/page.tsx:33 | an empty email shows "N/A", any other is kept |
| BuyerMarket.OpenDialog | src/app/views/buyer/market-place/page.tsx:38-47 | "No comments available." exactly when there are no comments |
| BuyerMarket.DialogShowsNormalized | src/app/views/buyer/market-place/page.tsx:22-47 | for a normalised product the dialog shows its own email and comments, with the note exactly when the raw list was missing or empty |
| BuyerMarket.Render | src/app/views/buyer/market-place/page.tsx:93-183 | the spinner exactly while loading, otherwise one card per product and the empty note exactly when there are none |
| BuyerMarket.LoadedCardsFilled | src/app/views/buyer/market-place/page.tsx:74-83 | after loading, no card has an empty title or email |
| TopSelling.TotalQuantity | src/app/Charts/TopSellingProducts.tsx:61 | the loop's total is the left-fold sum of the quantities |
| TopSelling.SumCons | src/app/Charts/TopSellingProducts.tsx:61 | the left fold equals the first quantity plus the rest's sum |
| TopSelling.ItemAtMostTotal | src/app/Charts/TopSellingProducts.tsx:61 | with no negative quantity, no item exceeds the total |
| TopSelling.SumNonNegative | src/app/Charts/TopSellingProducts.tsx:61 | with no negative quantity, the total is not negative |
| TopSelling.TopIndex | src/app/Charts/TopSellingProducts.tsx:62-64 | the index of a largest quantity, with every later item strictly smaller |
| TopSelling.TopProduct | src/app/Charts/TopSellingProducts.tsx:62-64 | none exactly for empty data; otherwise an element at least as large as every element |
| TopSelling.TieGoesToLater | src/app/Charts/TopSellingProducts.tsx:63 | of two equal quantities the later one wins |
| TopSelling.Load | src/app/Charts/TopSellingProducts.tsx:33-56 | no stored email gives "No email found" and no request; a reply without the list gives []; a failure gives "Failed to load products"; loading ends |
| TopSelling.Rows | src/app/Charts/TopSellingProducts.tsx:176-185 | each row carries its item and its 1-based rank |
| TopSelling.Render | src/app/Charts/TopSellingProducts.tsx:77-114 | precedence spinner, error, "No sales data yet", chart; the chart shows the sum and the top product |
| TopSelling.StatsShowChart | src/app/Charts/TopSellingProducts.tsx:49-64 | non-empty statistics show the chart, and its top quantity is at most the total |
| OrderStatusChart.Slices | src/app/Charts/OrderStatusChart.tsx:47-51 | exactly three slices Pending, Completed, Cancelled from the matching counts |
| OrderStatusChart.TotalOfSlices | src/app/Charts/OrderStatusChart.tsx:61 | the total is the sum of the three counts, and zero exactly when all are (for counts that are not negative) |
| OrderStatusChart.SliceColor | src/app/Charts/OrderStatusChart.tsx:143 | slice i takes colour i mod 3 |
| OrderStatusChart.ColorsMatchCards | src/app/Charts/OrderStatusChart.tsx:105-143 | each summary card and its slice share a colour, and the three colours differ |
| OrderStatusChart.Load | src/app/Charts/OrderStatusChart.tsx:33-59 | no stored email gives "No email found" and no request; a failure gives "Failed to load data"; a reply sets the slices; loading ends |
| OrderStatusChart.Render | src/app/Charts/OrderStatusChart.tsx:75-101 | precedence spinner, error, "No orders yet" when the total is zero, chart |
| OrderStatusChart.ReplyShowsChart | src/app/Charts/OrderStatusChart.tsx:46-101 | after a reply the chart shows exactly when some order exists, with the counts' sum as its total |
| Login.Stored | src/app/views/login-page/page.tsx:39-40 | a missing field is stored as "undefined" |
| Login.RouteFor | src/app/views/login-page/page.tsx:43-49 | FARMER routes to the farmer layout, USER to the buyer layout, any other role nowhere |
| Login.Submit | src/app/views/login-page/page.tsx:17-60 | an ok reply stores token and username (as email) before routing, an unknown role keeps them and shows "Unknown role. Cannot redirect."; non-ok shows "Invalid credentials" and stores nothing; a thrown Error shows its message, anything else "Login failed"; loading ends |
| Login.FarmerLoginStoresEmail | src/app/views/login-page/page.tsx:39-44 | a farmer login routes to the farmer layout with the username stored under "email" |
| FarmerLayout.RenderContent | src/app/views/farmer/layout/page.tsx:40-59 | each of the seven names shows its page, any other name the home page |
| FarmerLayout.Click | src/app/views/farmer/layout/page.tsx:73 | a click makes that entry active and shows its page |
| FarmerLayout.Highlighted | src/app/views/farmer/layout/page.tsx:74-78 | exactly the entries named like the active one are highlighted |
| FarmerLayout.DispatchIsInjective | src/app/views/farmer/layout/page.tsx:28-59 | the seven names, and their pages, are pairwise distinct |
| FarmerLayout.ExactlyOneHighlighted | src/app/views/farmer/layout/page.tsx:26-75 | initially Home alone is highlighted, and after a click exactly the clicked entry |
| Navbar.DisplayEmail | src/app/views/navbar/page.tsx:9-12 | the stored email, or "F" when it is absent or empty |
| Navbar.AvatarLetter | src/app/views/navbar/page.tsx:15 | the upper-cased first character |
| Navbar.AvatarIsOneLetter | src/app/views/navbar/page.tsx:9-15 | the avatar is always one character that is not a lower-case ASCII letter |
| Navbar.ToggleDropdown | src/app/views/navbar/page.tsx:30 | an avatar click flips the dropdown |
| Navbar.ClickBackdrop | src/app/views/navbar/page.tsx:41 | the backdrop click closes the dropdown |
| Navbar.ToggleTwice | src/app/views/navbar/page.tsx:6-41 | two clicks restore the dropdown, and opening then clicking the backdrop returns to the initial closed state |
| Navbar.Logout | src/app/views/navbar/page.tsx:73-76 | logout empties storage and goes to /login |
| Navbar.LogoutForgetsEmail | src/app/views/navbar/page.tsx:9-76 | after logout the navbar shows "F" |
| Text.Lower | src/app/views/farmer/market/page.tsx:50 | `toLowerCase()`: the same length, each character lower-cased at its own index |
| Text.Upper | src/app/views/navbar/page.tsx:15 | `toUpperCase()`: the same length, each character upper-cased at its own index |
| Web.GetItem | src/app/views/farmer/my-listings/page.tsx:40 | `localStorage.getItem`: a value exactly when the key is stored, and then the stored value |
| Web.OrElse | src/app/views/navbar/page.tsx:11 | JavaScript `or` on a string: the value when it is present and non-empty, otherwise the fallback |
| Text.Split | src/app/views/sign-up/page.tsx:57 | `split(",")` gives one piece more than there are separators, and no piece holds one |
| Text.Join | src/app/views/farmer/market/page.tsx:136 | `join`: no pieces give the empty text, one piece gives itself, and otherwise the text starts with the first piece followed by the separator |
| Text.JoinSplit | src/app/views/sign-up/page.tsx:57 | joining the pieces back gives the original text |
| Text.AfterLast | src/app/api/orders/upload-proof/route.ts:41 | `split('.').pop()`: the text after the last separator, which holds none |
| Text.Trim | src/app/views/sign-up/page.tsx:57 | `trim()`: the text with only whitespace removed at either end, neither end whitespace |
| Text.ContainsIffOccurs | src/app/views/farmer/market/page.tsx:50 | `includes` holds exactly when the needle occurs at some position |
| Seqs.Map | src/app/views/buyer/market-place/page.tsx:75 | `map` gives one result per element, each the function of the element at the same index |
| Seqs.Filter | src/app/views/farmer/my-listings/page.tsx:80 | `filter` keeps exactly the elements the predicate accepts, each as often as in the input |
| Seqs.FilterIsSubsequence | src/app/views/farmer/my-listings/page.tsx:80 | `filter` keeps the order |
| Seqs.FilterAppend | src/app/views/farmer/my-listings/page.tsx:80 | filtering a concatenation filters each part and concatenates the results |

## Left out

- Network, database and file system: `fetch`, the Mongo connection cache in `src/app/lib/mongodb.ts`, and `fs` writes. Each reply or fault is a parameter.
- The clock and randomness: `Date.now()`, `new Date()` and `Math.random()` are the parameters `now` and `stem`.
- Floating point: `toFixed`, the percentage labels, `quantity * pricePerUnit`, `parseFloat` of farm size and price, and the buyer marketplace's random price. Farm size travels as its text in `SignUp.Number`; `pricePerUnit` is a `real` that no operation computes on.
- `parseInt`: order ids arrive already parsed as `Option<int>`, where `None` stands for an absent or empty field. The upload reply's `orderId` is this number rather than the raw string.
- MyListings.AddProduct: the add request carries quantity and price as the typed text, where the page sends `parseInt(quantity)` and `parseFloat(pricePerUnit)` (src/app/views/farmer/my-listings/page.tsx:108-109); the numeric parsing is not modelled.
- Login.Stored: only a field absent from the login reply is modelled, stored as "undefined". A field that is JSON `null` would be stored as "null" and is not modelled.
- `setTimeout`: the three-second dismissal of notices is not modelled.
- React rendering, styling, recharts, next/image and icons: views are datatypes saying which state is shown.
- The static pages (farmer home, settings and message, buyer orders, my-farm) and the type-only interface files.
- Unicode case mapping beyond ASCII: `Text.Lower` and `Text.Upper` change ASCII letters only.
- MessagesRoute.Get: the order among messages with equal timestamps is not promised. The contract promises descending order and a permutation only, as the database's sort does.
- The `alert` after a sign-up, the login page's input handlers and the link to sign-up are not modelled.
- The error detail that 500 responses carry is not modelled; only the status and "Server error".
- The host and port of each request are not modelled; paths are kept where a contract names them.
- TopSelling.Load: the early return when rendering without a browser, which leaves the card loading, is not modelled; the stored email is a parameter.
- MessagesRoute.Post: a failure to connect or to parse the body is not modelled. A rejected message is the 500 the framework answers when the handler throws.
