# Storefront client logic in Dafny

This project models the client-side logic of a React storefront and proves properties of
that model. The storefront is a shop with a cart, a wishlist, accounts and checkout, plus an
admin area for products, images, categories, orders and users. The model keeps the in-memory
state handling and decision logic between rendering and HTTP calls:

- **The client stores.** The cart (`CartContext`), the wishlist (`WishlistContext`) and the
  session (`AuthContext`) are classes. Their lines are a `seq` field; each change keeps the
  ids distinct once they are, but the saved copy and the backend rows are taken as they
  come, as the stores take them. Local storage is a ghost `stored` field that always equals
  the state. The remote calls a handler intends to make form a ghost `requests` log. A remote call is made
  only when both a user and a token exist (`Session.BearerOf`). The stores' methods and the
  pages that call them (the product card, the product page, the wishlist page) take this as
  a `session` parameter, which stands for the caller's `AuthStore.Auth.Bearer()`.
- **Pure helpers.** Image URL resolution, the product filter pipeline, category toggling,
  slider and gallery index arithmetic, avatar initials, the route guard, and the
  "recent products" selection.
- **Admin editors.** File validation (an `image/` type and at most 5 MB), the pending-image
  list, the display-order swap, the order edit form with its fallbacks and merge-on-save,
  the date-filter query string, and the status badges.
- **Page rules.** Checkout validation, payload and headers, and the sequencing of the two
  payment paths. Login and signup validation. Quantity clamps. The wishlist-to-cart move.

Names follow the storefront: a Dafny member says in its doc comment which handler or
expression it models.

Conventions:

- JavaScript falsy values are not modelled as separate values. A text field is a `string`
  in which `""` stands for `null`, `undefined` and `""` alike. A numeric amount is an `int`
  in which `0` stands for `null`, `undefined` and `0`. This is exact for every `x || d` and
  `Number(x || d)` in the code, because those cannot tell the cases apart either.
- Prices are integers. `parseFloat` in the search filter is read by its integer prefix.
  `Number(text)` in the product forms is read as a decimal numeral: its digits and the
  number of them after the point, or `NaN`.
- A backend reply (success, non-OK status, or a thrown fetch) is a method parameter. The
  request is appended to the ghost log. The image reorder is the exception: its two updates
  are awaited together and their status is never read, so it takes a `PutOutcome` (both
  settled, whatever the status, or one rejected) instead.
- The keys of the checkout order body are an enumeration, each written under its JSON
  name (`KeyName`). Distinct keys have distinct names (`Checkout.KeyNamesDistinct`).
- Where a handler shows `alert(...)` or navigates, the page class records the text or the
  target in a field (`alert`, `navigatedTo`).
- Every method of a page class names, in its contract, each field it leaves unchanged, so
  a row's "nothing else changes" is part of the proved contract.

## Model

| member | source | states |
|---|---|---|
| Session.BearerOf | src/context/CartContext.jsx:22 | there is a bearer exactly when both a user and a non-empty token exist, and the bearer is that token (`user && token`) |
| Session.SendIf | src/context/CartContext.jsx:68 | a handler issues exactly one call, carrying the token, when signed in, and none otherwise |
| CartStore.Increment | src/context/CartContext.jsx:57-63 | the length is kept; every line with the id gains `q` and every other line is unchanged |
| CartStore.AddLine | src/context/CartContext.jsx:56-65 | an id already present: same length, only that line's quantity grows. A new id: `{...product, quantity}` is appended at the end. The product is in the result, no other id appears, and distinct ids stay distinct |
| CartStore.HasIdAppend | src/context/CartContext.jsx:64 | after appending a line, the ids present are the old ones plus the line's |
| CartStore.RemoveLines | src/context/CartContext.jsx:86 | the result holds exactly the lines whose id differs, the id is gone, and an absent id leaves the lines unchanged |
| CartStore.SetQuantity | src/context/CartContext.jsx:101-103 | the length and products are kept; matching lines take the new quantity, unclamped, and the other lines keep theirs |
| CartStore.TotalPrice | src/context/CartContext.jsx:134-139 | an empty cart totals 0, and non-negative prices and quantities give a non-negative total |
| CartStore.TotalItems | src/context/CartContext.jsx:141-142 | an empty cart counts 0, and a cart whose lines have quantity at least 1 counts at least its number of lines |
| CartStore.FromBackend | src/context/CartContext.jsx:40-47 | one line per backend row, in order; `product_id` becomes the id, and quantity, price, name, image and description are copied |
| CartStore.QuantityOfIncrement | src/context/CartContext.jsx:57-63 | with distinct ids, incrementing one id raises its quantity by `q` when it is present, and leaves every other id's quantity alone |
| CartStore.QuantityOfAppend | src/context/CartContext.jsx:64 | the quantity of an id over two concatenated carts is the sum of its quantities in each |
| CartStore.AddLineQuantity | src/context/CartContext.jsx:56-65 | with distinct ids, adding raises exactly that product's quantity by `quantity`, whether it was present or new |
| CartStore.AddLineTwice | src/context/CartContext.jsx:56-65 | adding `a` and then `b` of one product equals adding `a + b` of it |
| CartStore.AddTwoThenThree | src/context/CartContext.jsx:56-65 | adding 2 and then 3 of one product to an empty cart yields a single line of quantity 5 |
| CartStore.TotalItemsIsQuantitySum | src/context/CartContext.jsx:141-142 | the item count splits into one id's quantity plus the count of the cart without that id |
| CartStore.RemoveLinesItems | src/context/CartContext.jsx:86 | removing a product lowers the item count by exactly its quantity |
| CartStore.AddLineItems | src/context/CartContext.jsx:56-65 | with distinct ids, adding raises the item count by exactly `quantity` |
| CartStore.RemoveAfterAdd | src/context/CartContext.jsx:56-65 | removing a product after adding it gives the same cart as removing it without the add |
| CartStore.FilterIncrement | src/context/CartContext.jsx:57-63 | incrementing an id changes nothing among the lines of the other ids |
| CartStore.TotalPriceAppend | src/context/CartContext.jsx:134-139 | the price total of two concatenated carts is the sum of their totals |
| CartStore.AddNewLinePrice | src/context/CartContext.jsx:134-139 | adding a new product raises the total by price times quantity, with a quantity of 0 charged as 1 |
| CartStore.ZeroQuantityLine | src/context/CartContext.jsx:134-142 | a line of quantity 0 adds its price to the total (the falsy quantity counts as 1) but adds nothing to the item count |
| CartStore.SetQuantityEffect | src/context/CartContext.jsx:101-103 | with distinct ids, setting a quantity changes only that id's quantity, and only when the id is present |
| CartStore.NoIdNoQuantity | src/context/CartContext.jsx:141-142 | an id with no line has quantity 0 |
| CartStore.SetQuantityAbsent | src/context/CartContext.jsx:101-103 | setting the quantity of an absent id leaves the cart exactly as it was |
| CartStore.SetQuantityUnique | src/context/CartContext.jsx:101-103 | setting a quantity keeps the ids distinct |
| CartStore.RemoveLinesUnique | src/context/CartContext.jsx:86 | removing keeps the ids distinct and yields an order-preserving subsequence of the cart |
| CartStore.SameIds | src/context/CartContext.jsx:101-103 | two carts with the same id at every position contain the same ids |
| CartStore.Cart.constructor | src/context/CartContext.jsx:10-17 | the cart starts with the saved `cart_items`, or empty when nothing could be read; local storage matches and no call is made |
| CartStore.Cart.SyncOnLogin | src/context/CartContext.jsx:21-54 | with a session, one fetch is logged and a successful reply replaces the lines wholesale with the mapped backend rows, merging nothing; without a session nothing happens; loading ends false |
| CartStore.Cart.Add | src/context/CartContext.jsx:56-82 | the lines become `AddLine` of the old lines, distinct ids stay distinct, local storage follows, and one add call is logged when signed in |
| CartStore.Cart.Remove | src/context/CartContext.jsx:85-98 | the lines become `RemoveLines` of the old lines, distinct ids stay distinct, local storage follows, and one delete call is logged when signed in |
| CartStore.Cart.UpdateQuantity | src/context/CartContext.jsx:100-117 | the lines become `SetQuantity` of the old lines, distinct ids stay distinct, local storage follows, and one update call is logged when signed in |
| CartStore.Cart.Clear | src/context/CartContext.jsx:119-132 | the lines become empty, so the ids are trivially distinct and the total and the count are 0; one clear call is logged when signed in |
| CartStore.Cart.Total | src/context/CartContext.jsx:134-139 | `getTotalPrice()` is the price fold over the store's current lines |
| CartStore.Cart.Count | src/context/CartContext.jsx:141-142 | `getTotalItems()` is the quantity fold over the store's current lines |
| WishlistStore.IsInAppend | src/context/WishlistContext.jsx:65 | after appending an entry, the members are the old ones plus its id |
| WishlistStore.AddEntry | src/context/WishlistContext.jsx:60-66 | a listed product leaves the list unchanged; a new one is appended with its `addedAt` stamp and the length grows by 1; membership gains exactly that id; distinct ids stay distinct |
| WishlistStore.RemoveEntries | src/context/WishlistContext.jsx:83 | the result holds exactly the entries with other ids, membership loses exactly that id, and an absent id is a no-op |
| WishlistStore.RemovedMembership | src/context/WishlistContext.jsx:83 | a list holding exactly the entries with other ids has the old membership minus that id |
| WishlistStore.RemoveEntriesUnique | src/context/WishlistContext.jsx:83 | removing keeps the ids distinct and yields an order-preserving subsequence of the list |
| WishlistStore.CountOf | src/context/WishlistContext.jsx:118-120 | the count is the length of the list, and it is 0 exactly when nothing is a member |
| WishlistStore.AddIdempotent | src/context/WishlistContext.jsx:60-64 | adding a product twice equals adding it once, and the first stamp is kept |
| WishlistStore.AddThenRemove | src/context/WishlistContext.jsx:97-99 | a product is a member after it is added and not after it is removed; every other product's membership is back to what it was |
| WishlistStore.FromBackend | src/context/WishlistContext.jsx:43-50 | one entry per backend row, in order; `product_id` becomes the id and `added_at` becomes `addedAt`, and name, price, image and description are copied |
| WishlistStore.Ids | src/context/WishlistContext.jsx:107 | the ids of the entries, position by position |
| WishlistStore.DeletesIssuedPrefix | src/context/WishlistContext.jsx:105-114 | the deletes issued are the first ids of the pre-clear list, in order, and no more than there were entries |
| WishlistStore.DeletesIssuedAllOk | src/context/WishlistContext.jsx:105-114 | when every delete succeeds, one delete is sent for every entry, in list order |
| WishlistStore.DeletesIssuedStopAtFailure | src/context/WishlistContext.jsx:105-114 | when the first failing delete is the `k`-th, exactly `k + 1` deletes are sent: the loop stops at that failure |
| WishlistStore.SendDeletes | src/context/WishlistContext.jsx:107-111 | the loop sends exactly the deletes `DeletesIssued` describes, stopping after the first failure |
| WishlistStore.DeleteCalls | src/context/WishlistContext.jsx:108-110 | one `DELETE /wishlist/:id` call per id, in order, each with the token |
| WishlistStore.Wishlist.constructor | src/context/WishlistContext.jsx:10-23 | the list starts with the saved `wishlist`, or empty when nothing was saved or it could not be parsed |
| WishlistStore.Wishlist.SyncOnLogin | src/context/WishlistContext.jsx:26-57 | with a session, one fetch is logged and a successful reply replaces the list wholesale with the mapped rows; without one nothing happens; loading ends false |
| WishlistStore.Wishlist.Add | src/context/WishlistContext.jsx:59-80 | the list becomes `AddEntry` of the old one, distinct ids stay distinct, local storage follows, and one add call is logged when signed in |
| WishlistStore.Wishlist.Remove | src/context/WishlistContext.jsx:82-95 | the list becomes `RemoveEntries` of the old one, distinct ids stay distinct, local storage follows, and one delete call is logged when signed in |
| WishlistStore.Wishlist.Clear | src/context/WishlistContext.jsx:101-116 | the list is emptied at once, so its ids are trivially distinct; when signed in, the pre-clear entries are deleted one by one in order until the first failure; signed out, no call is made |
| WishlistStore.Wishlist.Contains | src/context/WishlistContext.jsx:97-99 | `isInWishlist(id)` holds exactly when some entry has that id |
| WishlistStore.Wishlist.Count | src/context/WishlistContext.jsx:118-120 | `getWishlistCount()` is the length of the list |
| AuthStore.Outcome | src/context/AuthContext.jsx:53-62 | success exactly on an OK reply, with its token and user; a non-OK reply fails with the backend's `error` text or the fallback; a thrown fetch fails with its message |
| AuthStore.Auth.constructor | src/context/AuthContext.jsx:7-15 | the token is the stored `auth_token` (or null), there is no user, loading starts true, and nothing has been sent |
| AuthStore.Auth.Bearer | src/context/AuthContext.jsx:98 | the session the stores use: the token when there are both a user and a token |
| AuthStore.Auth.Mount | src/context/AuthContext.jsx:18-24 | without a token, loading ends and nothing is verified or sent; with one, the verification outcome of `VerifyToken` follows |
| AuthStore.Auth.VerifyToken | src/context/AuthContext.jsx:26-43 | one `/auth/me` call; OK sets the user; non-OK clears the token and its stored copy; a thrown fetch keeps the token; loading ends false in every case |
| AuthStore.Auth.Finish | src/context/AuthContext.jsx:58-61 | success sets the token, the user and the stored token; failure changes nothing |
| AuthStore.Auth.Signup | src/context/AuthContext.jsx:45-66 | one signup call; success sets the token, user and stored token; failure returns the backend's error or "Signup failed" and leaves the state unchanged |
| AuthStore.Auth.Signin | src/context/AuthContext.jsx:68-89 | one signin call; success sets the token, user and stored token; failure returns the backend's error or "Signin failed" and leaves the state unchanged |
| AuthStore.Auth.Logout | src/context/AuthContext.jsx:91-95 | the token, the user and the stored token are cleared, so the stores no longer have a session |
| ImageHelper.ApiBase | src/constants/config.js:1 | `API_BASE_URL` is the configured URL when one is set, else `http://localhost:5000` |
| ImageHelper.GetImageUrl | src/utils/imageHelper.js:4-19 | a missing path gives the placeholder; a `/` path gives base + path; an `http` path not starting with `/` is returned unchanged; any other path gives `assets/img/` + path |
| ImageHelper.EndsWithConcat | src/utils/imageHelper.js:18 | any string is a suffix of itself appended to a prefix |
| ImageHelper.ImageUrlKeepsPath | src/utils/imageHelper.js:4-19 | no URL is empty, and every non-empty path is a suffix of its URL |
| ImageHelper.ImageUrlFixpoint | src/utils/imageHelper.js:8-15 | with an `http` base, resolving an uploaded or absolute URL a second time changes nothing |
| ImageHelper.GetBackendImageUrl | src/utils/imageHelper.js:27-33 | null exactly for a missing name; base + name for a `/` name; otherwise base + `/uploads/` + name |
| ImageHelper.BackendUrlShape | src/utils/imageHelper.js:29-32 | every backend URL starts with the base, ends with the file name, and has a `/` right after the base |
| Forms.CheckImageFile | src/components/admin/ProductUploadForm.jsx:39-47 | a file is accepted exactly when its type starts with `image/` and its size is at most 5·1024·1024 bytes; a wrong type is reported before an oversize |
| Forms.ErrorText | src/components/admin/ProductUploadForm.jsx:141 | the backend's `error` text when there is one, else the fallback |
| Forms.PickedFileNotice | src/components/admin/ProductUploadForm.jsx:35-51 | no message exactly for an accepted file; "Please select a valid image file." for a wrong type; "Image size must be less than 5MB." for an oversize file |
| ProductUploadForm.FilesOf | src/components/admin/ProductUploadForm.jsx:126 | the files of the pending entries, position by position |
| ProductUploadForm.NewEntriesLabels | src/components/admin/ProductUploadForm.jsx:56-79 | every entry added holds a valid file and is labelled `Angle n`, counting on from the entries already there |
| ProductUploadForm.NewEntriesFiles | src/components/admin/ProductUploadForm.jsx:56-79 | the files added are exactly the valid ones among those picked, in the order picked |
| ProductUploadForm.AppendValid | src/components/admin/ProductUploadForm.jsx:53-85 | the existing entries stay in front, unchanged, followed by at most one new entry per picked file |
| ProductUploadForm.AppendValidLabels | src/components/admin/ProductUploadForm.jsx:53-85 | each new entry at position `k` of the list holds a valid file and is labelled `Angle k+1` |
| ProductUploadForm.LastRejection | src/components/admin/ProductUploadForm.jsx:58-66 | when every picked file is valid, the message is left as it was |
| ProductUploadForm.PickAdditional | src/components/admin/ProductUploadForm.jsx:53-85 | the `forEach` over the picked files yields `AppendValid`'s list and the message of the last rejected file |
| ProductUploadForm.RemoveImage | src/components/admin/ProductUploadForm.jsx:87-89 | exactly the entries with other ids remain, and the list does not grow |
| ProductUploadForm.RemoveImageOrder | src/components/admin/ProductUploadForm.jsx:87-89 | the remaining entries keep their order |
| ProductUploadForm.Relabel | src/components/admin/ProductUploadForm.jsx:91-95 | the length, order, ids and files are kept; only the entries with the id take the new angle |
| ProductUploadForm.ImageFields | src/components/admin/ProductUploadForm.jsx:125-128 | the additional images add two fields per entry |
| ProductUploadForm.ImageFieldsAt | src/components/admin/ProductUploadForm.jsx:125-128 | the fields come in list order, two per entry: its file under `additional_images`, then its angle under `angle_i` for the entry's index `i` |
| ProductUploadForm.AppendImageFields | src/components/admin/ProductUploadForm.jsx:125-128 | the loop appends exactly `ImageFields` from index 0 |
| ProductUploadForm.Payload | src/components/admin/ProductUploadForm.jsx:111-128 | the fields are name, numeric price and description, then `category_id` only when one was chosen, then the primary image only when one was picked, then the additional-image fields |
| ProductUploadForm.UploadForm.constructor | src/components/admin/ProductUploadForm.jsx:6-12 | the form starts empty, with no primary image, no additional images and no message |
| ProductUploadForm.UploadForm.Edit | src/components/admin/ProductUploadForm.jsx:30-33 | only the typed fields change |
| ProductUploadForm.UploadForm.PickPrimary | src/components/admin/ProductUploadForm.jsx:35-51 | no file changes nothing; a valid file becomes the primary image and clears the message; a rejected file sets its message and keeps the old image |
| ProductUploadForm.UploadForm.PickMore | src/components/admin/ProductUploadForm.jsx:53-85 | the list becomes `AppendValid` of the old list and the message becomes the last rejection, if any |
| ProductUploadForm.UploadForm.Remove | src/components/admin/ProductUploadForm.jsx:87-89 | the list becomes `RemoveImage` of the old list; nothing else changes |
| ProductUploadForm.UploadForm.UpdateAngle | src/components/admin/ProductUploadForm.jsx:91-95 | the list becomes `Relabel` of the old list; nothing else changes |
| ProductUploadForm.UploadForm.Submit | src/components/admin/ProductUploadForm.jsx:97-145 | an empty name or price is refused with its message and sends nothing; otherwise one create request carries the payload; success resets the form, the primary image and the additional list; failure shows the backend error or "Upload failed" and keeps everything; loading ends false |
| ProductUploadForm.UploadForm.Send | src/components/admin/ProductUploadForm.jsx:107-144 | one create request carries the payload with the additional images' fields from index 0; success resets the form, the primary image and the additional list; failure shows the backend error or "Upload failed" and keeps them; loading ends false |
| ProductList.FilterProducts | src/components/sections/ProductList.jsx:37-69 | the result is no longer than the catalogue; every product kept lies in the price range and, when categories are selected, has one of them |
| ProductList.FilterProductsIsOneFilter | src/components/sections/ProductList.jsx:38-66 | the three stages together are a single filter by the combined search, category and price test |
| ProductList.FilterProductsSpec | src/components/sections/ProductList.jsx:38-68 | the result is an order-preserving subsequence of the catalogue holding exactly the products that pass all three stages |
| ProductList.BlankTermFiltersNothing | src/components/sections/ProductList.jsx:41 | a search term of white space only gives the same result as no term at all |
| ProductList.DefaultsKeepEverything | src/components/sections/ProductList.jsx:8-10 | with the default term, no category and the range {0, ∞}, every product with a non-negative price is kept, in order |
| ProductList.ContainsSelf | src/components/sections/ProductList.jsx:47 | every text contains itself |
| ProductList.FoundByName | src/components/sections/ProductList.jsx:42-47 | searching for a product's own non-blank name finds it |
| ProductList.NumericTermKeepsCheaper | src/components/sections/ProductList.jsx:43-51 | a term that reads as a number keeps every product priced at or below it, whatever its text |
| ProductList.ShowingLabel | src/components/sections/ProductList.jsx:102 | "1 product" for one, "N products" for any other count |
| ShopFilters.ToggleCategory | src/components/common/ShopFilters.jsx:46-51 | a selected id is removed with all its occurrences and the other ids stay; an unselected id is appended at the end |
| ShopFilters.ToggleFlips | src/components/common/ShopFilters.jsx:46-51 | a toggle flips the membership of its own id and of no other |
| ShopFilters.ToggleTwice | src/components/common/ShopFilters.jsx:46-51 | toggling twice restores which ids are selected |
| ShopFilters.ToggleTwiceAbsent | src/components/common/ShopFilters.jsx:46-51 | toggling an unselected id twice restores the very same selection, order included |
| ShopFilters.OneRadioAtMost | src/components/common/ShopFilters.jsx:53-59 | the five price options are pairwise distinct, so at most one radio is checked, and the default range checks "All Prices" |
| ShopFilters.ShowClearIffNotDefault | src/components/common/ShopFilters.jsx:169 | "Clear All Filters" shows exactly when some category is selected or the range is not {0, ∞} |
| ShopFilters.ToggleSection | src/components/common/ShopFilters.jsx:39-44 | the section's flag is negated (absent reads as closed) and every other section keeps its flag |
| ShopFilters.FilterPanel.constructor | src/components/common/ShopFilters.jsx:16-19 | both sections start open with no category and the full range, so "All Categories" is checked and the clear button is hidden |
| ShopFilters.FilterPanel.ToggleOpen | src/components/common/ShopFilters.jsx:67-68 | the expanded sections become `ToggleSection` of the old ones; the filters are untouched |
| ShopFilters.FilterPanel.Toggle | src/components/common/ShopFilters.jsx:107-108 | the selection becomes `ToggleCategory` of the old one; nothing else changes |
| ShopFilters.FilterPanel.ChooseAllCategories | src/components/common/ShopFilters.jsx:85-86 | choosing "All Categories" empties the selection, which checks it |
| ShopFilters.FilterPanel.ChoosePrice | src/components/common/ShopFilters.jsx:151-156 | choosing a radio sets the range to its option, which checks that radio |
| ShopFilters.FilterPanel.ClearAll | src/components/common/ShopFilters.jsx:169-174 | clearing empties the selection and restores {0, ∞}, after which the button hides |
| ProductSlider.ItemsPerPage | src/components/sections/ProductSlider.jsx:17-22 | one product per page below 640 px, two below 1024, three below 1280, and four from 1280 on |
| ProductSlider.ItemsPerPageMonotone | src/components/sections/ProductSlider.jsx:17-22 | a wider window never shows fewer products per page |
| ProductSlider.MaxIndex | src/components/sections/ProductSlider.jsx:60 | the last index that still fills a page: `max(0, n - perPage)`, which lies before the end of a non-empty list |
| ProductSlider.MovesStayInRange | src/components/sections/ProductSlider.jsx:47-66 | from an index in [0, maxIndex], both next and previous stay in that range |
| ProductSlider.MovesInverse | src/components/sections/ProductSlider.jsx:47-66 | within range, previous undoes next and next undoes previous, wrap-around included |
| ProductSlider.Visible | src/components/sections/ProductSlider.jsx:112-115 | the window holds at most `perPage` products, and they are the consecutive products from the index on |
| ProductSlider.VisibleFullPage | src/components/sections/ProductSlider.jsx:112-115 | from an index in range, a list of at least one page shows a full page |
| ProductSlider.DotsInRange | src/components/sections/ProductSlider.jsx:242-251 | the position of every one of the `ceil(n / perPage)` dots is an index in range |
| ProductSlider.MulMono | src/components/sections/ProductSlider.jsx:242-244 | multiplying by a non-negative number keeps the order |
| ProductSlider.Slider.constructor | src/components/sections/ProductSlider.jsx:8-13 | index 0, four per page and autoplay on, with no products yet |
| ProductSlider.Slider.Load | src/components/sections/ProductSlider.jsx:33-45 | the products become the fetched list; the index, the page size and autoplay are untouched |
| ProductSlider.Slider.Resize | src/components/sections/ProductSlider.jsx:17-25 | the page size becomes the breakpoint value for the width; nothing else changes |
| ProductSlider.Slider.Previous | src/components/sections/ProductSlider.jsx:47-55 | autoplay stops and the index takes the previous-move; an index in range stays in range |
| ProductSlider.Slider.Next | src/components/sections/ProductSlider.jsx:57-66 | autoplay stops and the index takes the next-move; an index in range stays in range |
| ProductSlider.Slider.Tick | src/components/sections/ProductSlider.jsx:69-83 | while autoplay is on and there are products, the index takes the same move as next; autoplay is left as it is |
| ProductSlider.Slider.Resume | src/components/sections/ProductSlider.jsx:86-94 | autoplay comes back on, with the index unchanged |
| ProductSlider.Slider.Pause | src/components/sections/ProductSlider.jsx:120 | autoplay goes off, with the index unchanged |
| ProductSlider.Slider.Dot | src/components/sections/ProductSlider.jsx:246-251 | autoplay stops and the index jumps to the dot's position, which is in range |
| ProductSlider.Slider.Shown | src/components/sections/ProductSlider.jsx:108-176 | nothing without products; otherwise at most one page of products: the window that the `translateX` shift of `currentIndex` item widths brings into view over the page groups |
| ImageGallery.AllImages | src/components/common/ProductImageGallery.jsx:9-20 | the list has one more entry than the additional images (a null list counts as empty): first the main image labelled "Main View", then each additional image in order, labelled with its angle description or "Product View" |
| ImageGallery.OneMainImage | src/components/common/ProductImageGallery.jsx:9-20 | only the first entry is of the main kind |
| ImageGallery.ArrowsWrap | src/components/common/ProductImageGallery.jsx:24-34 | from an existing image both arrows land on an existing image, the last wrapping to the first and the first to the last, and each arrow undoes the other |
| ImageGallery.NextCycle | src/components/common/ProductImageGallery.jsx:30-34 | `k` presses of next move `k` places round the list, so `len` presses come back to the start |
| ImageGallery.Gallery.constructor | src/components/common/ProductImageGallery.jsx:6-20 | the gallery shows `allImages` with the first image selected |
| ImageGallery.Gallery.Previous | src/components/common/ProductImageGallery.jsx:24-28 | the selection takes the previous-move and stays on an existing image |
| ImageGallery.Gallery.Next | src/components/common/ProductImageGallery.jsx:30-34 | the selection takes the next-move and stays on an existing image |
| ImageGallery.Gallery.Select | src/components/common/ProductImageGallery.jsx:89 | a thumbnail selects its own image |
| ImageGallery.Gallery.Current | src/components/common/ProductImageGallery.jsx:22 | the image shown is one of the gallery's images |
| AdminImageManager.NewImageFields | src/components/admin/AdminProductImageManager.jsx:53-54 | a new image is sent with the typed description, or `Image n` numbered one past the current count when none was typed, and with `display_order` equal to the current count |
| AdminImageManager.DefaultLabelNumber | src/components/admin/AdminProductImageManager.jsx:53 | the default label starts with "Image " and its number reads back as the count plus one |
| AdminImageManager.Swapped | src/components/admin/AdminProductImageManager.jsx:143-145 | the two positions exchange their values and every other position is kept |
| AdminImageManager.SwappedPermutes | src/components/admin/AdminProductImageManager.jsx:143-145 | a swap only reorders: the multiset of display orders is preserved |
| AdminImageManager.SwapTwice | src/components/admin/AdminProductImageManager.jsx:143-145 | swapping the same pair twice restores the order |
| AdminImageManager.ImageEntry.constructor | src/components/admin/AdminProductImageManager.jsx:24 | a row holds its id, description and display order as given |
| AdminImageManager.ImageManager.constructor | src/components/admin/AdminProductImageManager.jsx:8-17 | the manager starts with the fetched rows, no message, nothing being edited, an empty edit form (`""`, order 0), and the upload form closed and empty |
| AdminImageManager.ImageManager.AddNew | src/components/admin/AdminProductImageManager.jsx:41-79 | without a file, "Please select an image" and no request; otherwise one upload with the default description and order; success resets the upload form; failure shows "Failed to add image" and keeps it |
| AdminImageManager.ImageManager.StartEdit | src/components/admin/AdminProductImageManager.jsx:82-88 | the image becomes the one being edited, and the form takes its description and its order (a missing order is 0) |
| AdminImageManager.ImageManager.SaveEdit | src/components/admin/AdminProductImageManager.jsx:91-113 | one update carries the edit form; success leaves edit mode, failure stays in it, each with its message |
| AdminImageManager.ImageManager.Delete | src/components/admin/AdminProductImageManager.jsx:116-137 | nothing happens unless the user confirms; otherwise one delete is sent and its outcome is reported |
| AdminImageManager.ImageManager.MoveUp | src/components/admin/AdminProductImageManager.jsx:140-173 | at index 0 nothing changes and nothing is sent; otherwise the two neighbours swap `display_order` (only those two change) and the two new orders are sent; "Image order updated!" is shown once both calls settle, even with a non-OK status, and "Failed to reorder images" only when one is rejected |
| AdminImageManager.ImageManager.MoveDown | src/components/admin/AdminProductImageManager.jsx:176-209 | at the last index nothing changes and nothing is sent; otherwise the image swaps `display_order` with the one below it and the two new orders are sent; "Image order updated!" is shown once both calls settle, even with a non-OK status, and "Failed to reorder images" only when one is rejected |
| AdminImageManager.ImageManager.SwapOrders | src/components/admin/AdminProductImageManager.jsx:143-145 | the in-place swap on the shared row objects exchanges exactly the two orders and keeps every description |
| AdminImageManager.ImageManager.Exchange | src/components/admin/AdminProductImageManager.jsx:143-171 | the two rows exchange orders and both new orders are sent, the moved row first; success is shown whenever both calls settle, whatever their status, and the error only when one is rejected |
| AdminImageManager.ImageManager.Reload | src/components/admin/AdminProductImageManager.jsx:20-32 | the rows become the response's `additional_images`, or empty |
| EditProductForm.FormOf | src/components/admin/EditProductForm.jsx:20-28 | the form takes the product's id, name and description, its price as text or "" when missing, and its category id as text or "" when missing |
| EditProductForm.Problem | src/components/admin/EditProductForm.jsx:76-84 | the form passes exactly when the trimmed name is non-empty and the price is present and positive; a blank name is reported first, with "Product name is required", then "Price must be a positive number" |
| EditProductForm.WholePriceAccepted | src/components/admin/EditProductForm.jsx:81-84 | a whole-number price passes the price check exactly when it is positive, and a product loaded with a positive price passes it unchanged |
| EditProductForm.Fields | src/components/admin/EditProductForm.jsx:90-101 | name, price and description first; `category_id` only when non-empty and otherwise absent; the image last when one is chosen |
| EditProductForm.Payload | src/components/admin/EditProductForm.jsx:90-101 | the name and the description are sent trimmed and the price as a number; `category_id` is sent only when set; the new image is sent only when one was chosen |
| EditProductForm.Editor.constructor | src/components/admin/EditProductForm.jsx:8-14 | the form starts empty, with no file, no current image and no message, not loading |
| EditProductForm.Editor.Load | src/components/admin/EditProductForm.jsx:20-33 | a new product re-initialises the form with its fallbacks, shows its current image, and clears the chosen file and the message |
| EditProductForm.Editor.Edit | src/components/admin/EditProductForm.jsx:49-52 | only the typed fields change |
| EditProductForm.Editor.PickFile | src/components/admin/EditProductForm.jsx:54-70 | the same rule as the upload form: no file changes nothing, a valid file is taken and clears the message, a rejected file sets its message |
| EditProductForm.Editor.Submit | src/components/admin/EditProductForm.jsx:72-115 | a refused form sets the validation message and sends nothing; otherwise one update with the payload; success reports "Product updated successfully!", failure the backend error, else the exception text, else "Update failed"; loading ends false |
| ProductImageManager.DefaultDescription | src/components/admin/ProductImageManager.jsx:161 | the description a multi-uploaded file is sent with is never empty and holds no '.' |
| ProductImageManager.DefaultDescriptionOfName | src/components/admin/ProductImageManager.jsx:161 | the description is the file name up to its first '.', the whole name when it has none, or "Image" when the name is empty or begins with '.' |
| ProductImageManager.Uploads | src/components/admin/ProductImageManager.jsx:156-172 | the picker sends at most one request per file |
| ProductImageManager.AddRequests | src/components/admin/ProductImageManager.jsx:159-163 | one add request per file, in order, each with its default description |
| ProductImageManager.UploadsAreTheAcceptedFiles | src/components/admin/ProductImageManager.jsx:157-161 | exactly the files of type `image/*` and at most 5 MB are sent, in their order, each with its default description |
| ProductImageManager.UploadsAppend | src/components/admin/ProductImageManager.jsx:157 | the requests for two runs of files are those of the first run followed by those of the second |
| ProductImageManager.ImageManager.constructor | src/components/admin/ProductImageManager.jsx:7-12 | no images, no message, nothing being edited and nothing uploading |
| ProductImageManager.ImageManager.Fetch | src/components/admin/ProductImageManager.jsx:22-34 | a reply replaces the list with its `images` (or empty) and clears the message; a failure keeps the list and shows "Failed to load images"; loading ends false |
| ProductImageManager.ImageManager.StartEdit | src/components/admin/ProductImageManager.jsx:251-252 | the image becomes the one being edited, and the text box takes its description |
| ProductImageManager.ImageManager.EditDescription | src/components/admin/ProductImageManager.jsx:215 | only the typed description changes |
| ProductImageManager.ImageManager.CancelEdit | src/components/admin/ProductImageManager.jsx:228 | edit mode ends and the typed text is kept |
| ProductImageManager.ImageManager.UpdateDescription | src/components/admin/ProductImageManager.jsx:36-51 | the typed description is sent with the image's own display order; success leaves edit mode and clears the text; failure keeps both and shows the backend error or the fallback |
| ProductImageManager.ImageManager.Delete | src/components/admin/ProductImageManager.jsx:53-66 | nothing happens unless the admin confirms; otherwise one delete, with its outcome reported |
| ProductImageManager.ImageManager.Replace | src/components/admin/ProductImageManager.jsx:73-102 | no file does nothing; a file that fails the type or size check sets its message and sends nothing; an accepted file is sent with the image's description and the outcome is reported |
| ProductImageManager.ImageManager.UploadMany | src/components/admin/ProductImageManager.jsx:155-174 | the loop appends exactly the uploads of the accepted files, in order, and marks uploading exactly when something was sent |
| ProductImageManager.ImageManager.UploadSettled | src/components/admin/ProductImageManager.jsx:163-170 | a settled upload ends uploading and reports "Images uploaded!" or "Upload failed" |
| CategoryManager.SaveFields | src/components/admin/CategoryManager.jsx:70-76 | name, description and slug as typed, then the image only when a file was picked; no file field otherwise |
| CategoryManager.ProductCountLabel | src/components/admin/CategoryManager.jsx:352 | "1 product" for exactly one, "N products" for any other count |
| CategoryManager.CategoryPanel.constructor | src/components/admin/CategoryManager.jsx:11-27 | no categories, the form hidden and empty, nothing being edited, no messages, no category open and its products not loading |
| CategoryManager.CategoryPanel.Fetch | src/components/admin/CategoryManager.jsx:33-44 | a reply replaces the category list; a failure keeps it and shows "Failed to fetch categories" |
| CategoryManager.CategoryPanel.OpenForm | src/components/admin/CategoryManager.jsx:163 | the form is shown, with its contents and edit mode untouched |
| CategoryManager.CategoryPanel.EditText | src/components/admin/CategoryManager.jsx:184-200 | typing changes the text fields and keeps the picked image |
| CategoryManager.CategoryPanel.PickImage | src/components/admin/CategoryManager.jsx:46-56 | a picked file becomes the form's image; closing the picker changes nothing |
| CategoryManager.CategoryPanel.Submit | src/components/admin/CategoryManager.jsx:58-94 | a name blank after trimming gives "Category name is required" and sends nothing; otherwise an update when an id is being edited, else a create; success resets the form, clears the edit id and hides the form; failure shows the backend error or "Failed to save category" and keeps the form, the preview, the edit id and its visibility; the category list, the open category and its products never change |
| CategoryManager.CategoryPanel.Save | src/components/admin/CategoryManager.jsx:68-93 | the save sends one update of the edited id when there is one, else one create, with the form's fields; success sets the matching success text, resets the form and the preview, clears the edit id and hides the form; failure shows the backend error or "Failed to save category" and keeps the form |
| CategoryManager.CategoryPanel.Edit | src/components/admin/CategoryManager.jsx:96-106 | the form takes the category's fields with no picked image, the preview shows its stored image (none without one), the edit id is set and the form shows |
| CategoryManager.CategoryPanel.Delete | src/components/admin/CategoryManager.jsx:108-119 | nothing happens unless the admin confirms; otherwise one delete, with its outcome reported |
| CategoryManager.CategoryPanel.Cancel | src/components/admin/CategoryManager.jsx:121-127 | the form is reset and hidden, the edit id cleared, and the error cleared |
| CategoryManager.CategoryPanel.ClickCategory | src/components/admin/CategoryManager.jsx:129-150 | clicking the open category closes it and clears its products without a request; any other click fetches that category and opens it, or shows "Failed to fetch products" |
| CategoryManager.CategoryPanel.CloseProducts | src/components/admin/CategoryManager.jsx:152-156 | no category is open and no products are listed |
| Orders.StatusBadge | src/pages/admin/OrderDetail.jsx:151-159 | green exactly for completed/success, yellow exactly for pending/processing, red exactly for cancelled/failed, and blue exactly for every other status |
| Orders.DisplayedStatus | src/pages/admin/OrderDetail.jsx:160 | the badge text is the status, or "pending" when it is missing |
| Orders.MissingStatusShownPendingInBlue | src/pages/admin/OrderDetail.jsx:151-160 | an order without a status reads "pending" but is coloured blue, while a real "pending" is yellow |
| OrderDetail.SetField | src/pages/admin/OrderDetail.jsx:86-92 | the named input takes the value and every other input keeps its value |
| OrderDetail.FormExt | src/pages/admin/OrderDetail.jsx:15-24 | two forms that agree on all eight inputs are the same form |
| OrderDetail.SetFieldLaws | src/pages/admin/OrderDetail.jsx:86-92 | typing the value an input already holds changes nothing, and a later edit of the same input overrides an earlier one |
| OrderDetail.FormOf | src/pages/admin/OrderDetail.jsx:39-48 | the status falls back to "pending"; email to `guest_email`; phone to `phone_number`; full name to `guest_name`; the other fields are copied, each ending at "" when missing |
| OrderDetail.Merge | src/pages/admin/OrderDetail.jsx:61-64 | the form's eight keys override the order's, and every other field of the order is kept |
| OrderDetail.MergeLaws | src/pages/admin/OrderDetail.jsx:39-64 | saving the same form twice equals saving it once, and the form rebuilt from a saved order is the saved form unless a cleared field lets a fallback show through again |
| OrderDetail.DisplayName | src/pages/admin/OrderDetail.jsx:180 | the full name, else the guest name, else "Authenticated User" for an order with a user id and "Guest Customer" without one |
| OrderDetail.OrderPage.constructor | src/pages/admin/OrderDetail.jsx:10-26 | no order yet, loading, not editing, an empty form, no delete prompt, no alert and no navigation |
| OrderDetail.OrderPage.Load | src/pages/admin/OrderDetail.jsx:32-55 | one fetch; a reply sets the order, its items (or none) and the form with its fallbacks; a failure keeps them and shows "Failed to load order details"; loading ends false |
| OrderDetail.OrderPage.StartEdit | src/pages/admin/OrderDetail.jsx:405 | edit mode starts; the form and the order are untouched |
| OrderDetail.OrderPage.CancelEdit | src/pages/admin/OrderDetail.jsx:430 | edit mode ends and the typed values are kept |
| OrderDetail.OrderPage.Input | src/pages/admin/OrderDetail.jsx:86-92 | the form becomes `SetField` of the old form; nothing else changes |
| OrderDetail.OrderPage.Save | src/pages/admin/OrderDetail.jsx:57-73 | one save carries the form; success shows the old order overridden by the form, leaves edit mode and alerts "Order updated successfully!"; failure leaves the order and edit mode unchanged and alerts "Failed to update order" |
| OrderDetail.OrderPage.AskDelete | src/pages/admin/OrderDetail.jsx:412 | the delete prompt opens |
| OrderDetail.OrderPage.DismissDelete | src/pages/admin/OrderDetail.jsx:449 | the delete prompt closes |
| OrderDetail.OrderPage.Delete | src/pages/admin/OrderDetail.jsx:75-84 | one delete; success alerts "Order deleted successfully!" and navigates to `/admin`; failure alerts "Failed to delete order" and stays on the page |
| DateFilter.Encode | src/pages/admin/AdminDashboard.jsx:74-75 | the query string is empty exactly when there are no parameters |
| DateFilter.FilterUrl | src/pages/admin/AdminDashboard.jsx:70-76 | the endpoint alone without dates; otherwise "?" then `fromDate=…` and/or `toDate=…`, the start date first, joined by "&" |
| DateFilter.QueryMarkIffDate | src/components/admin/UserList.jsx:23-29 | the URL has a query part exactly when at least one date is set |
| DateFilter.BuildUrl | src/components/admin/UserList.jsx:23-29 | the step-by-step construction (append each set date, add "?" only for a non-empty query) yields `FilterUrl` |
| DateFilter.FilteredList.constructor | src/components/admin/UserList.jsx:8-12 | no rows, both dates empty, not loading, no error, no request |
| DateFilter.FilteredList.SetFrom | src/pages/admin/AdminDashboard.jsx:278 | the start date takes the typed value; the end date, the rows and the requests are unchanged |
| DateFilter.FilteredList.SetTo | src/pages/admin/AdminDashboard.jsx:287 | the end date takes the typed value; the start date, the rows and the requests are unchanged |
| DateFilter.FilteredList.Fetch | src/pages/admin/AdminDashboard.jsx:65-86 | one request to the filter URL of the given dates; a reply replaces the rows (none when absent) and clears the error; a failure keeps the rows and shows the list's failure text; loading ends false |
| DateFilter.FilteredList.Filter | src/pages/admin/AdminDashboard.jsx:293 | fetches with the two dates as typed, leaving them as they are; the rows and the error follow the reply and loading ends false |
| DateFilter.FilteredList.Clear | src/pages/admin/AdminDashboard.jsx:299-303 | both dates are emptied and exactly the bare endpoint is requested; the rows and the error follow the reply and loading ends false |
| UserList.NameCell | src/components/admin/UserList.jsx:132 | the user's name, or "-" when there is none |
| UserList.OrdersCell | src/components/admin/UserList.jsx:142 | the cell reads back as the user's order count (a missing count is 0) |
| UserList.NewUserList | src/components/admin/UserList.jsx:7-39 | a fresh, empty list on `/users/admin/all-users` whose failure text is "Failed to load users" |
| AdminDashboard.OrderType | src/pages/admin/AdminDashboard.jsx:352-353 | "Authenticated" exactly when the row carries a `user_id` key (even a null one), "Guest" exactly when it does not |
| AdminDashboard.Revenue | src/pages/admin/AdminDashboard.jsx:39-41 | no orders give 0, and orders with non-negative amounts give a non-negative revenue |
| AdminDashboard.RevenueAppend | src/pages/admin/AdminDashboard.jsx:39-41 | the revenue of two lists together is the sum of their revenues |
| AdminDashboard.StatsOf | src/pages/admin/AdminDashboard.jsx:32-51 | a failed product request leaves the cards as they were; otherwise the counts are the list lengths and a failed orders or users request counts as an empty list |
| AdminDashboard.Dashboard.constructor | src/pages/admin/AdminDashboard.jsx:14-27 | the dashboard tab, zero statistics and an empty orders list on `/orders/admin/all-orders` that fails with "Failed to load orders" |
| AdminDashboard.Dashboard.LoadStats | src/pages/admin/AdminDashboard.jsx:29-57 | the statistics become `StatsOf` the three replies and the old statistics; the tab is unchanged |
| AdminDashboard.Dashboard.SelectTab | src/pages/admin/AdminDashboard.jsx:121-122 | the tab changes and the statistics do not |
| Checkout.SetField | src/pages/Checkout.jsx:34 | the named input takes the value and every other input keeps its value |
| Checkout.CompleteIffRequiredFilled | src/pages/Checkout.jsx:186-189 | the form passes exactly when none of name, email, phone and address is empty; city and pincode never decide it |
| Checkout.Lookup | src/pages/Checkout.jsx:50-69 | a key is absent from the body exactly when no entry carries it |
| Checkout.LookupAt | src/pages/Checkout.jsx:50-69 | the value read under a key is the one at its first occurrence |
| Checkout.BodyEntries | src/pages/Checkout.jsx:50-69 | the posted body entry by entry: the order's keys, then the contact under the account keys with a token and the guest keys without, then the cart lines |
| Checkout.KeyNamesDistinct | src/pages/Checkout.jsx:50-69 | two keys of the body are written under the same JSON name exactly when they are the same key |
| Checkout.BodyKeysDistinct | src/pages/Checkout.jsx:50-69 | the body has nine entries and no key or JSON name twice, so neither spread overwrites another key |
| Checkout.OrderBodyContact | src/pages/Checkout.jsx:56-67 | with a token the name and email go under `full_name`/`email` and no guest key appears; without one they go under `guest_name`/`guest_email` and no account key appears; the phone is sent either way |
| Checkout.SignedInContact | src/pages/Checkout.jsx:56-60 | with a token the name and email are under `full_name`/`email`, the phone under `phone`, and no guest key appears |
| Checkout.GuestContact | src/pages/Checkout.jsx:61-67 | without a token the name and email are under `guest_name`/`guest_email`, the phone under `phone`, and no account key appears |
| Checkout.OrderBodyOrder | src/pages/Checkout.jsx:51-55 | the total, address, city, pincode, payment method and cart lines are always sent, with the form's and the cart's values |
| Checkout.AuthorizationIffToken | src/pages/Checkout.jsx:38-45 | the order carries an `Authorization` header exactly when there is a token, as "Bearer " and the token; the content type is always JSON |
| Checkout.FailureMessage | src/pages/Checkout.jsx:72 | a non-OK reply is reported with the fixed text thrown for it, a network error with its own message |
| Checkout.InitFailure | src/pages/Checkout.jsx:104-120 | the widget opens exactly when an order id came back and the script loaded; otherwise the refusal's error (or "Server error: " and the status), a missing id or a missing script is reported |
| Checkout.CheckoutPage.constructor | src/pages/Checkout.jsx:28-31 | cash on delivery, an empty form, not loading, and "guest" ticked exactly when there is no token |
| Checkout.CheckoutPage.Change | src/pages/Checkout.jsx:34 | the form becomes `SetField` of the old form; the method, loading and requests are unchanged |
| Checkout.CheckoutPage.SelectMethod | src/pages/Checkout.jsx:257-260 | the payment method takes the radio's value; the form is unchanged and nothing is sent |
| Checkout.CheckoutPage.SetGuest | src/pages/Checkout.jsx:215-216 | the guest box takes the value and no request, form or method is affected |
| Checkout.CheckoutPage.SaveOrderCall | src/pages/Checkout.jsx:36-78 | one order post whose headers are the token's and whose body holds the form, the cart's total and the cart's lines; no other page state changes |
| Checkout.CheckoutPage.PayOnDelivery | src/pages/Checkout.jsx:80-92 | the order is posted first; only a successful post clears the cart, alerts success and goes to `/myaccount`; a failure keeps the cart and alerts the failure; loading ends false |
| Checkout.CheckoutPage.StartPayment | src/pages/Checkout.jsx:94-182 | a payment order for the total in paise is created; the widget opens only when `InitFailure` finds nothing, otherwise the failure is alerted and loading ends; no order is saved |
| Checkout.CheckoutPage.Dismiss | src/pages/Checkout.jsx:169-172 | closing the widget ends loading and sends nothing |
| Checkout.CheckoutPage.PaymentMade | src/pages/Checkout.jsx:129-160 | the payment is verified first; the order is saved only after a successful verification and the cart cleared only after a successful save; each failure is alerted and keeps the cart |
| Checkout.CheckoutPage.Submit | src/pages/Checkout.jsx:184-196 | an incomplete form is refused with an alert before any request; otherwise "cod" posts the order, and only a successful save clears the cart, alerts the success and goes to `/myaccount` (a failed one alerts the failure and keeps the cart); any other method creates a Razorpay order, leaves the cart alone, and either opens the widget with loading on or alerts the initialisation failure with loading off |
| LoginSignup.Toggled | src/pages/LoginSignup.jsx:106 | the link always switches to the other mode |
| LoginSignup.ToggleTwice | src/pages/LoginSignup.jsx:106 | switching twice comes back to the starting mode |
| LoginSignup.SetField | src/pages/LoginSignup.jsx:13-16 | the named input takes the value and the other two keep theirs |
| LoginSignup.Problem | src/pages/LoginSignup.jsx:24-33 | signing in passes exactly when email and password are filled, signing up exactly when the name is too; each refusal has its own message |
| LoginSignup.SignUpStricter | src/pages/LoginSignup.jsx:24-33 | a form fit for signing up is fit for signing in, and the name never affects signing in |
| LoginSignup.Shown | src/pages/LoginSignup.jsx:37 | the error box shows the failure's message, or "Authentication failed" when it has none, and is never blank after a failure |
| LoginSignup.LoginPage.constructor | src/pages/LoginSignup.jsx:6-9 | sign-in mode, an empty form, no error, not loading |
| LoginSignup.LoginPage.Change | src/pages/LoginSignup.jsx:13-16 | the form becomes `SetField` of the old form and the error box is cleared |
| LoginSignup.LoginPage.Toggle | src/pages/LoginSignup.jsx:105-109 | the other mode, with an empty form and no error |
| LoginSignup.LoginPage.Submit | src/pages/LoginSignup.jsx:18-41 | an incomplete form shows its problem and reaches no store; otherwise exactly one sign-in or sign-up is sent with the form's values, success goes to `/myaccount` and failure shows the store's message; loading ends false |
| CartPage.Decremented | src/pages/Cart.jsx:34 | "−" lowers a quantity of 2 or more by one and gives 1 otherwise, so it is never below 1 |
| CartPage.Typed | src/pages/Cart.jsx:35 | a typed whole number of at least 1 is taken as is; no digits, 0 or a negative all give 1 |
| CartPage.TypedOfShown | src/pages/Cart.jsx:35 | typing back the quantity the input shows leaves it unchanged |
| CartPage.DecrementUndoesIncrement | src/pages/Cart.jsx:34-36 | "+" then "−" returns to the starting quantity |
| CartPage.ControlsKeepPositive | src/pages/Cart.jsx:34-36 | none of the three controls can bring any line of a cart with positive quantities to 0 or below |
| CartPage.LineTotal | src/pages/Cart.jsx:42 | the line price is price times quantity; it agrees with the cart total's line price except for a quantity of 0 |
| CartPage.LineTotalsAddUpToTotal | src/pages/Cart.jsx:42-53 | when no quantity is 0 the line prices add up to the subtotal |
| CartPage.View | src/pages/Cart.jsx:10-53 | the empty state exactly for an empty cart; otherwise every line with the cart's total as subtotal |
| ProductDetail.View | src/pages/ProductDetail.jsx:43-59 | the spinner while loading; then the error, or "Product not found" without a product; the product page exactly when loaded without error |
| ProductDetail.ProductPage.constructor | src/pages/ProductDetail.jsx:12-16 | loading, no product, no error, quantity 1, heart empty |
| ProductDetail.ProductPage.Load | src/pages/ProductDetail.jsx:19-35 | a reply replaces the product and clears the error; a failure keeps it and shows "Failed to load product details"; loading ends false |
| ProductDetail.ProductPage.Decrement | src/pages/ProductDetail.jsx:159 | one less, but never below 1 |
| ProductDetail.ProductPage.TypeQuantity | src/pages/ProductDetail.jsx:167 | the quantity the input rule `Typed` gives, which keeps the stepper at least 1 |
| ProductDetail.ProductPage.Increment | src/pages/ProductDetail.jsx:172 | exactly one more |
| ProductDetail.ProductPage.AddToCart | src/pages/ProductDetail.jsx:37-41 | without a product nothing happens; otherwise the cart gains the stepper's quantity of the product, the add is sent when signed in and the count is alerted |
| ProductDetail.ProductPage.ToggleFavorite | src/pages/ProductDetail.jsx:110 | the heart flips and nothing else changes, the wishlist included |
| WishlistPage.CartCopy | src/pages/Wishlist.jsx:13-19 | the cart receives the product's id, name, price and image and none of its other fields |
| WishlistPage.MoveToCart | src/pages/Wishlist.jsx:13-22 | one more of the product in the cart, and the product gone from the wishlist; each store sends its own request when signed in |
| WishlistPage.Remove | src/pages/Wishlist.jsx:24-26 | the product is no longer in the wishlist and the removal is sent when signed in |
| WishlistPage.DescriptionPreview | src/pages/Wishlist.jsx:112-114 | "No description" for none; otherwise the first 60 characters (all of a shorter text) followed by "..." |
| WishlistPage.SavedLabel | src/pages/Wishlist.jsx:47 | "1 item saved" for one, and the count with "items saved" otherwise |
| ProductCard.IsFavorite | src/components/common/ProductCard.jsx:11 | the heart is filled exactly when some wishlist entry has the product's id |
| ProductCard.ToggleWishlist | src/components/common/ProductCard.jsx:16-24 | a listed product is removed and any other added, so its membership flips and no other product's changes |
| ProductCard.ToggleTwiceMembership | src/components/common/ProductCard.jsx:16-24 | two toggles give back every product's membership |
| ProductCard.AddToCart | src/components/common/ProductCard.jsx:128-133 | one of the product goes into the cart, and the add is sent when signed in |
| ProductCard.ImageSource | src/components/common/ProductCard.jsx:14 | the picture is the product's image path resolved against the API base, the placeholder for none |
| Navbar.Heads | src/components/layout/Navbar.jsx:26-32 | one character at most per piece |
| Navbar.Initials | src/components/layout/Navbar.jsx:26-32 | the avatar text is never empty |
| Navbar.SplitAfterWord | src/components/layout/Navbar.jsx:28 | splitting a word, a space and a rest gives the word followed by the rest's pieces |
| Navbar.SplitWord | src/components/layout/Navbar.jsx:28 | a word without spaces splits into itself |
| Navbar.SplitOfJoin | src/components/layout/Navbar.jsx:28 | splitting undoes joining, for pieces free of the separator |
| Navbar.HeadsOfWords | src/components/layout/Navbar.jsx:29 | for non-empty pieces there is one head per piece, its first character |
| Navbar.InitialsOfWords | src/components/layout/Navbar.jsx:26-32 | a name of words separated by single spaces gets one upper-cased initial per word, in order |
| Navbar.InitialsOfSpaces | src/components/layout/Navbar.jsx:26-32 | a blank or all-space name shows "U" |
| Navbar.View | src/components/layout/Navbar.jsx:62-105 | the admin link exactly for an admin; each badge exactly when its count is positive, with that count; the avatar exactly when signed in, with the user's initials |
| ProtectedRoute.Guard | src/components/layout/ProtectedRoute.jsx:6-42 | the spinner while the session loads; the login page without a token or user; access denied exactly when a required role differs from the user's; the page exactly when signed in with the role (or none needed) |
| ProtectedRoute.NoRoleAdmitsSignedIn | src/components/layout/ProtectedRoute.jsx:9-42 | with no role every signed-in user gets in, and any user a role check admits is admitted without it |
| ProtectedRoute.AdminOnly | src/components/layout/ProtectedRoute.jsx:23-42 | once settled, an admin route admits exactly the signed-in users whose role is "admin" |
| RecentProducts.Reverse | src/components/sections/RecentProducts.jsx:24 | same length, element `i` is element `i` from the end |
| RecentProducts.LastN | src/components/sections/RecentProducts.jsx:24 | the last `n` elements, or all of them when there are fewer, in order |
| RecentProducts.RecentIsNewestFirst | src/components/sections/RecentProducts.jsx:24 | at most six cards, as many as there are products up to six, card `i` being the `i`-th newest product |
| RecentProducts.View | src/components/sections/RecentProducts.jsx:34-82 | an error replaces the section; then the spinner; "No products available" exactly for none; otherwise the cards |
| RecentProducts.AfterFetch | src/components/sections/RecentProducts.jsx:18-32 | a failure shows only "Failed to load recent products"; an empty list the empty notice; otherwise one to six cards with the newest product first |
| MyAccount.PendingCount | src/pages/MyAccount.jsx:90 | the pending figure never exceeds the number of orders |
| MyAccount.PendingCountAppend | src/pages/MyAccount.jsx:90 | the pending count of two lists together is the sum of their counts |
| MyAccount.AllPendingIff | src/pages/MyAccount.jsx:85-90 | the pending figure equals the order count exactly when every order is pending |
| MyAccount.TotalSpent | src/pages/MyAccount.jsx:96 | no orders give 0, and non-negative prices give a non-negative total |
| MyAccount.TotalSpentAppend | src/pages/MyAccount.jsx:96 | the total spent on two lists together is the sum of their totals |
| MyAccount.Capitalised | src/pages/MyAccount.jsx:156 | the same length, the first character upper-cased and the rest untouched |
| MyAccount.CapitalisedIdempotent | src/pages/MyAccount.jsx:156 | capitalising a capitalised status changes nothing |
| MyAccount.RowColour | src/pages/MyAccount.jsx:149-153 | yellow exactly for "pending", green exactly for "completed", grey for the rest |
| MyAccount.View | src/pages/MyAccount.jsx:13-96 | no token sends the visitor to `/login`; a reply shows its orders (none when absent) with their count, pending count and total; a non-OK reply shows "Failed to load orders" and a network error its own message, both with no orders; pending never exceeds the total |
| Text.TrimEmptyIffBlank | src/components/admin/CategoryManager.jsx:63 | a trimmed text is empty exactly when the text is white space only |
| Text.TrimmedEnds | src/components/admin/EditProductForm.jsx:91 | a non-empty trimmed text starts and ends with a character that is not white space |
| Text.ToLower | src/components/sections/ProductList.jsx:42 | the same length, each character lower-cased |
| Text.ToUpper | src/components/layout/Navbar.jsx:30 | the same length, each character upper-cased |
| Text.Split | src/components/layout/Navbar.jsx:28 | at least one piece, and no piece holds the separator |
| Text.SplitJoin | src/components/layout/Navbar.jsx:28 | joining the pieces back with the separator gives the original text |
| Text.Prefix | src/pages/Wishlist.jsx:113 | the first `n` characters, or the whole text when it is shorter |
| Text.NatToString | src/components/sections/ProductList.jsx:102 | a non-empty run of decimal digits |
| Text.ParseIntOfIntToString | src/pages/Cart.jsx:35 | reading back the decimal text of a whole number gives that number |
| Text.ToNumberOfNatToString | src/components/admin/EditProductForm.jsx:81 | `Number` of the decimal text of a natural number is that number |
| Text.Plural | src/components/sections/ProductList.jsx:102 | the word alone for exactly one, with an "s" otherwise |
| Seqs.Filter | src/components/common/ShopFilters.jsx:48 | every kept element passes the test, and no more are kept than the input had |
| Seqs.FilterMembers | src/components/common/ShopFilters.jsx:48 | the kept elements are exactly those of the input that pass |
| Seqs.FilterIsSubsequence | src/components/sections/ProductList.jsx:45-63 | filtering keeps the survivors in their original order |
| Seqs.SubsequenceIn | src/context/CartContext.jsx:86 | every element of an order-preserving subsequence occurs in the whole |
| Seqs.SubsequenceDistinct | src/context/CartContext.jsx:86 | an order-preserving subsequence of a sequence with distinct keys has distinct keys |
| Seqs.FilterFilter | src/components/sections/ProductList.jsx:45-63 | two filters in a row are one filter by both tests |
| Seqs.FilterAppend | src/pages/MyAccount.jsx:90 | filtering two lists together is filtering each and concatenating |
| Navbar.MobileMenu.constructor | src/components/layout/Navbar.jsx:19 | the mobile menu starts closed |
| Navbar.MobileMenu.Toggle | src/components/layout/Navbar.jsx:145 | the burger button flips the menu |
| Navbar.MobileMenu.FollowLink | src/components/layout/Navbar.jsx:157-207 | following any link of the menu, or logging out from it, leaves it closed |

## Left out

- HTTP transport is not modelled: axios, fetch, the request interceptors and the service
  wrappers of `src/services/api.js`. Each reply is a method parameter and each request an
  entry of a ghost log, so out-of-order completion of fire-and-forget calls is not captured.
- `URLSearchParams` escaping is not modelled; date strings are taken to need none.
- Local storage is a ghost field that mirrors the state; reading a corrupt stored value and
  the browser's storage limits are not modelled.
- FileReader previews are not modelled. Where several files are read, their results are
  taken to arrive in file order.
- DOM file pickers, `window.confirm`, `alert` dialogs, navigation and the React render cycle
  are not modelled. A confirmed deletion is the method call itself, and an alert or target is
  recorded in a field.
- The slider's resize listener, autoplay interval and resume timeout are not modelled as time.
  The width is a parameter and each tick or resume is a method call.
- The delayed `onSaved` callback of the edit form is not modelled, because it is a timer.
- Razorpay is not modelled: script loading, the widget and its options. What remains is
  the order of events: create, then verify, then save, then clear.
- Checkout.CheckoutPage.StartPayment: the amount is the integer total times 100, so
  `Math.round` on a fractional total is not modelled.
- Numbers with exponents, hexadecimal text, `Infinity`, the fraction digits `parseFloat`
  reads in the search filter, `toFixed` formatting and `toLocaleDateString` are not
  modelled, since the model has no floating point.
- `parseInt`'s `0x` prefix is not modelled.
- Case mapping covers ASCII letters only; Unicode case folding is not modelled.
- `Date.now()` and the clock are parameters (`now`, the new entry ids), not a clock.
- The struck-through price (×1.2) on the product card is display arithmetic only.
- The admin pages' refetches after a change (reloading images, categories or products) are
  single method calls with the new list as a parameter.
- CartStore.Cart.Valid and WishlistStore.Wishlist.Valid do not include distinct ids. The
  saved copy and the backend rows are not checked for duplicates, by the stores or by the
  model, so the methods only keep distinct ids distinct.
- OrderDetail.OrderPage.Save requires a loaded order. The edit form is only shown once an
  order is loaded, and the model does not cover saving over a missing one.
- AdminDashboard.Dashboard.LoadStats: the revenue is computed but the card shows the
  constant `RevenueCard` ("₹0"), as the page does. No lemma relates the two.
- MyAccount.Capitalised: a missing status makes the page throw (`charAt` of `null`). The
  model reads a missing status as "" and capitalises it to "".
- RecentProducts.AfterFetch: a response body that is not an array, on which `slice`
  throws, is not modelled.
- MyAccount.View: logging out from the account page (the auth store's `Logout`, then
  navigating home) is modelled by `AuthStore.Auth.Logout`. The final navigation is not.
- Pages and components that only lay out markup or hold configuration are not modelled:
  the hero, features, call-to-action and featured-product sections, the footer, the home,
  shop and category pages, the category strip and filter, the delete confirmation, the admin
  product list, the user detail page, the application shell and routes, and the Tailwind
  and API-base configuration. The API base is modelled only as
  `ImageHelper.ApiBase`. The user detail page's status colours repeat the dashboard's.
