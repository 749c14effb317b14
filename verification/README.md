# Storefront checkout pipeline, modelled in Dafny

This project models the part of a React Native storefront (Firebase backed) that holds logic beyond form binding:

- **The cart screen** (`AddToCartScreen`). It keeps a dictionary from product id to line item. A product that arrives
  through navigation is merged into its entry (one more unit) or inserted as a new entry of one unit. The +/- buttons
  change a quantity but never take it below one. The total is the sum of price times quantity. Checking out passes the
  entries, stripped of their ids, to the address screen.
- **The address screen** (`AddressScreen.handleSubmit`). It refuses to submit without a signed-in user, then without
  six non-blank address fields. Otherwise it writes one `addresses` document per received item, in order, with
  defaults for missing item fields. It shows the success modal only when every write succeeds, and one error alert
  otherwise.
- **The order history screen** (`OrderHistoryScreen`). It keeps, of the newest-first `addresses` list, the documents
  whose `userId` is the signed-in user's, in order.
- **The new-product screen** (`NewProductScreen`). It checks that the form is filled in, uploads the picked image to
  `products/<file name>` (the text after the last `/` of its uri), and writes the product document with the download
  url.

Modules follow the source files:

| module | file | source |
|---|---|---|
| `AddCart` | `add_cart.dfy` | `src/screen/AddCart.tsx` |
| `Checkout` | `address_screen.dfy` | `src/screen/AddressScreen.tsx` |
| `OrderHistory` | `order_screen.dfy` | `src/screen/OrderScreen.tsx` |
| `NewProduct` | `add_product.dfy` | `src/screen/AddProduct.tsx` |

They share four small modules:

- `Wrappers`: `Option`, with `GetOr` for JavaScript's `x || default`.
- `JsString`: `trim` over the ECMAScript white-space set, and `lastIndexOf`.
- `Catalog`: the product and order-item records passed between screens.
- `Platform`: an `Alert`, and a Firestore collection and a Storage bucket as small classes. Each success or failure of
  theirs is a parameter.

Each screen's React state is a class whose fields its handlers update. The pure parts are functions with lemmas:
merge/insert, clamping, the total, the projection for checkout, record construction, the user filter, the file name
and the storage path.

Some conventions hold throughout:

- Prices are whole cents. A price is one numeric reading of the stored price text, `None` when the text is absent
  or not a number. The cart's `product.price || 0` and the checkout's `parseFloat(item.price) || 0` both use that one
  reading and read `None` as 0.
- A JavaScript object used as a dictionary is a `Dict`: its keys in insertion order (the order `Object.values`
  reports) and a map from key to entry.
- `Promise.all` over the writes is modelled as dispatching every write in order. `outcomes[i]` says whether the i-th
  write succeeds. Writes that succeed stay written (nothing is rolled back), and the batch succeeds exactly when all
  of them do.

## Model

| member | source | states |
|---|---|---|
| `JsString.TrimStartDropsLeadingSpace` | src/screen/AddressScreen.tsx:37-42 | trimming the front removes exactly the leading white space; what is left is a suffix that is empty or starts with a non-space |
| `JsString.TrimEndDropsTrailingSpace` | src/screen/AddressScreen.tsx:37-42 | trimming the back removes exactly the trailing white space; what is left is a prefix that is empty or ends with a non-space |
| `JsString.TrimIsMiddle` | src/screen/AddressScreen.tsx:37-42 | `s.trim()` is a slice of `s` with only white space on either side, and it neither starts nor ends with white space |
| `JsString.TrimEmptyIffBlank` | src/screen/AddProduct.tsx:61 | `s.trim()` is empty (falsy) if and only if every character of `s` is white space |
| `JsString.LastIndexOf` | src/screen/AddProduct.tsx:54 | the result is -1 or a position holding the character, and no later position holds it |
| `AddCart.Values` | src/screen/AddCart.tsx:50 | `Object.values` lists one entry per key in key order, each holding at least one unit |
| `AddCart.Added` | src/screen/AddCart.tsx:20-36 | the cart stays well formed; the keys become the old keys plus the product id; other entries are unchanged; a present id gains exactly one unit with name, price and image unchanged and no new key; an absent id is appended with one unit, price `product.price` or 0, and the product's name and image |
| `AddCart.Updated` | src/screen/AddCart.tsx:40-48 | keys unchanged; an absent id leaves the cart unchanged; the entry's quantity becomes max(q + change, 1) with its other fields unchanged; other entries are untouched |
| `AddCart.Run` | src/screen/AddCart.tsx:17-48 | after any sequence of adds and quantity changes the cart is well formed and every quantity is at least 1 |
| `AddCart.RepeatedAddsMerge` | src/screen/AddCart.tsx:20-36 | adding one product n ≥ 1 times to an empty cart gives a single key holding the new line with quantity n |
| `AddCart.RepeatedDecrementsStopAtOne` | src/screen/AddCart.tsx:44 | pressing - n times leaves quantity max(q - n, 1) |
| `AddCart.TotalNonNegative` | src/screen/AddCart.tsx:50-53 | the reduce is non-negative when no price or quantity is negative |
| `AddCart.TotalAppend` | src/screen/AddCart.tsx:50-53 | one more line adds its price × quantity to the reduce |
| `AddCart.TotalReplace` | src/screen/AddCart.tsx:50-53 | replacing one line changes the reduce by the difference of the two subtotals |
| `AddCart.EmptyCartTotalIsZero` | src/screen/AddCart.tsx:15 | the empty cart totals 0 |
| `AddCart.CartTotalAfterMerge` | src/screen/AddCart.tsx:22-24 | adding a product already in the cart raises the total by that line's price |
| `AddCart.CartTotalAfterInsert` | src/screen/AddCart.tsx:26-33 | adding a new product raises the total by `product.price` or 0 |
| `AddCart.CartTotalAfterAdd` | src/screen/AddCart.tsx:20-36 | any add raises the total by exactly one unit price |
| `AddCart.CartTotalAfterChange` | src/screen/AddCart.tsx:40-53 | a quantity change moves the total by price × (max(q + change, 1) - q), and not at all for an absent id |
| `AddCart.CartTotalNonNegative` | src/screen/AddCart.tsx:50-53 | a cart with no negative price has a non-negative total |
| `AddCart.RemoveIdFromItems` | src/screen/AddCart.tsx:55-57 | one item per cart entry, in cart order, with the same name, price, quantity and image, and no id |
| `AddCart.AddToCartScreen.constructor` | src/screen/AddCart.tsx:15 | the cart starts empty |
| `AddCart.AddToCartScreen.ReceiveProduct` | src/screen/AddCart.tsx:17-38 | with a product in the route data the new cart is `Added(old cart, product)`, otherwise the cart is unchanged; well-formedness is kept |
| `AddCart.AddToCartScreen.UpdateQuantity` | src/screen/AddCart.tsx:40-48 | the new cart is `Updated(old cart, id, change)`; well-formedness is kept |
| `Checkout.CompleteIffNoBlankField` | src/screen/AddressScreen.tsx:36-43 | the form passes exactly when none of the six fields is empty or white space only |
| `Checkout.MakeRecord` | src/screen/AddressScreen.tsx:46-59 | the record carries the uid and the six fields as typed (untrimmed); `img` and `ProductName` default to '', `price` to 0 and `quantity` to 1 (for undefined and 0 alike) and is otherwise kept, so the quantity is never 0 |
| `Checkout.Records` | src/screen/AddressScreen.tsx:45-62 | exactly one record per item, in the items' order, each with the caller's uid and address |
| `Checkout.NoItemsNoWrites` | src/screen/AddressScreen.tsx:26 | with no route data there are no records and no writes, and the empty batch counts as success |
| `Checkout.Persisted` | src/screen/AddressScreen.tsx:61-64 | never more documents persist than were written |
| `Checkout.SucceededWritesPersist` | src/screen/AddressScreen.tsx:61-69 | every write that succeeds stays written, whatever happens to the others (no rollback) |
| `Checkout.OnlySucceededWritesPersist` | src/screen/AddressScreen.tsx:61-64 | every persisted document is one whose write succeeded |
| `Checkout.AllWritesPersistWhenAllSucceed` | src/screen/AddressScreen.tsx:61-66 | when every write succeeds, the persisted documents are exactly the records, in order |
| `Checkout.PersistedStep` | src/screen/AddressScreen.tsx:61-64 | one more write extends the persisted documents by that write if it succeeds, and keeps "all succeeded" only if it does |
| `Checkout.WriteExtends` | src/screen/AddressScreen.tsx:61-64 | the loop step of `WriteAll`: `PersistedStep` with the collection's documents from before the batch put in front |
| `Checkout.BuyNowOrdersOneUnit` | src/screen/AddressScreen.tsx:54-57 | the item "Buy Now" passes (`Catalog.BuyNowItem`, src/screen/ProductDatilsScreen.tsx:55-58: the product with no quantity) becomes one record of quantity 1 at the product's price or 0, with its name and image or '' |
| `Checkout.RecordsKeepLineTotals` | src/screen/AddressScreen.tsx:54-57 | lines of one unit or more keep their price and quantity in the records, so the records' total equals the cart reduce |
| `Checkout.CartCheckoutKeepsLines` | src/screen/AddCart.tsx:119-122 | checking out a cart writes, per line and in cart order, its name, image, price and quantity, and the records add up to the cart's total |
| `Checkout.WriteAll` | src/screen/AddressScreen.tsx:45-64 | the collection gains exactly the records whose write succeeded, in dispatch order, and the result is true iff every write succeeded |
| `Checkout.AddressScreen.constructor` | src/screen/AddressScreen.tsx:17-26 | the six fields start empty, the modal hidden, and `data` is the route data or `[]` |
| `Checkout.AddressScreen.HandleSubmit` | src/screen/AddressScreen.tsx:29-73 | no user: alert "User not authenticated" and no write; incomplete form: alert "Please fill out all fields" and no write; otherwise the successful records are written, and the modal shows iff all succeeded, else alert "Failed to submit data: " + message |
| `Checkout.AddressScreen.SubmitAs` | src/screen/AddressScreen.tsx:36-72 | the field check and the batch for a signed-in user, with the same outcomes as `HandleSubmit` |
| `Checkout.AddressScreen.ReportBatch` | src/screen/AddressScreen.tsx:64-69 | a successful batch shows the modal, a failed one shows the submit error and leaves the modal as it was |
| `OrderHistory.OwnOrders` | src/screen/OrderScreen.tsx:39 | every kept order has the user's uid, comes from the fetched list, and there are never more than were fetched |
| `OrderHistory.OwnOrdersComplete` | src/screen/OrderScreen.tsx:39 | every fetched order with the user's uid is kept |
| `OrderHistory.OwnOrdersKeepOrder` | src/screen/OrderScreen.tsx:33-39 | the kept orders are a subsequence of the fetched list (relative order preserved) |
| `OrderHistory.OwnOrdersNewestFirst` | src/screen/OrderScreen.tsx:29-39 | a createdAt-descending list stays descending after the filter |
| `OrderHistory.OthersOrdersHidden` | src/screen/OrderScreen.tsx:39 | a list holding only other users' orders shows nothing |
| `OrderHistory.OwnOrdersKeepAllOfOneUser` | src/screen/OrderScreen.tsx:39 | a list holding only the user's own orders is shown whole |
| `OrderHistory.CheckoutVisibleOnlyToBuyer` | src/screen/OrderScreen.tsx:39 | the records one checkout writes are all shown to the buyer and none to any other user |
| `OrderHistory.OrderHistoryScreen.constructor` | src/screen/OrderScreen.tsx:17-18 | no orders, loading |
| `OrderHistory.OrderHistoryScreen.Open` | src/screen/OrderScreen.tsx:19-49 | without a user: alert "User not authenticated", render nothing, fetch nothing, state unchanged; with one: the fetch runs |
| `OrderHistory.OrderHistoryScreen.FetchOrders` | src/screen/OrderScreen.tsx:27-46 | on success the orders are the user's own of the fetched list; on a failed query they stay as they were; loading ends either way |
| `NewProduct.FileName` | src/screen/AddProduct.tsx:54 | the file name is a suffix of the uri with no '/', and the character before it, if any, is '/' |
| `NewProduct.FileNameWithoutSlash` | src/screen/AddProduct.tsx:54 | a uri without '/' is its own file name |
| `NewProduct.FileNameAfterTrailingSlash` | src/screen/AddProduct.tsx:54 | a uri ending in '/' has an empty file name |
| `NewProduct.FileNameSplitsUri` | src/screen/AddProduct.tsx:54 | a uri with a '/' is its directory part, '/', and its file name |
| `NewProduct.StoragePathIsInFolder` | src/screen/AddProduct.tsx:55 | the storage path is "products/" followed by the file name, and its only '/' ends the folder |
| `NewProduct.SameFileNameSamePath` | src/screen/AddProduct.tsx:55 | two uris with the same file name upload to the same path |
| `NewProduct.AllFieldsFilledIff` | src/screen/AddProduct.tsx:61 | the gate passes exactly when name, description and price are not blank and an image uri is set |
| `NewProduct.NewProductScreen.constructor` | src/screen/AddProduct.tsx:22-27 | empty texts, no image, no modal, not loading |
| `NewProduct.NewProductScreen.UploadImage` | src/screen/AddProduct.tsx:49-58 | no image: null and no upload; otherwise the file is stored at its storage path unless `putFile` fails, and the result is the download url or a rejection |
| `NewProduct.NewProductScreen.HandleSubmit` | src/screen/AddProduct.tsx:60-86 | an incomplete form alerts "Please fill out all fields" with no upload, no write and no loading change; otherwise the product (texts untrimmed, plus the url) is written only when a non-empty url came back and the write succeeds; the modal shows only then, otherwise "Failed to save product"; loading ends false either way |
| `NewProduct.NewProductScreen.Save` | src/screen/AddProduct.tsx:62-82 | the upload, the write and the report of a validated submit, with the outcomes `HandleSubmit` states |
| `NewProduct.NewProductScreen.Publish` | src/screen/AddProduct.tsx:64-82 | with a non-empty url the product (texts untrimmed, plus the url) is written; the modal shows only when that write succeeds, otherwise "Failed to save product"; loading ends false either way |

## Left out

- Firebase Auth, Firestore and Storage are not called. The signed-in user, each write's success, the fetched snapshot
  and the upload result are parameters.
- `Promise.all` runs its writes concurrently. The model dispatches them in order. Which rejection it reports first is
  the `failure` parameter.
- `parseFloat`, `toFixed(2)` and JavaScript number coercion are not modelled. Prices are whole cents, and a price text
  that is not a number reads as absent.
  - In the cart, such a text would be kept as the line's price and make the total `NaN`. The model counts it as 0.
  - The source converts the price text twice, in two different ways. The cart total multiplies it with JavaScript
    number coercion (src/screen/AddCart.tsx:51). The checkout record uses `parseFloat(item.price) || 0`
    (src/screen/AddressScreen.tsx:56).
  - The two conversions disagree on some texts. "12,50" and "12abc" are `NaN` in the cart but 12 in the record. "0x10"
    is 16 in the cart but 0 in the record.
  - The model uses one reading for both, so for such texts it writes a record price of 0 where the source writes 12.
- Checkout.CartCheckoutKeepsLines: the records' total equals the cart's total only because one price reading serves
  both screens. It holds in the source only for price texts that coercion and `parseFloat` read alike, such as
  plain decimal numerals.
- Checkout.RecordsKeepLineTotals: same restriction as `CartCheckoutKeepsLines`, for the same reason.
- Server timestamps are not modelled. `createdAt` is a given integer on fetched documents, and the server-side
  `orderBy('createdAt', 'desc')` is the `NewestFirst` precondition of `OwnOrdersNewestFirst`.
- `Object.values` puts integer-like keys first in numeric order. The model uses insertion order, which is what it
  reports for Firestore's alphanumeric document ids.
- The cart screen copies the dictionary but writes the quantity on the item object the old copy shares. The add
  effect does this with `+= 1` (src/screen/AddCart.tsx:24), and `updateQuantity` with the clamped assignment
  (src/screen/AddCart.tsx:44). The model uses value semantics: the old dictionary is never changed, so that aliasing
  is not captured.
- NewProduct.NewProductScreen.HandleSubmit: states `isLoading` only after the submit has settled. The `true` it holds
  while the upload and the write are pending is not observable in a postcondition.
- Typing into the form inputs (`onChangeText` setters) is not modelled as separate operations: the form fields are
  the screen's state as typed.
- Not modelled: the image picker (`handleImagePick`), closing the modal (`handleCloseModal`) and navigation. These
  are UI plumbing around the modelled handlers.
- Not modelled: rendering, styles, `console` logging, and React's effect scheduling. This includes the hook called
  after the early return in the order history screen.
- Not modelled: the login, sign-up, profile and home screens, the product details screen (except the Buy-Now item),
  the bottom bar, root navigation and `App.tsx`. These are sign-in wrappers, key-value storage, and UI and
  navigation.
