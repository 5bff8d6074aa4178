# Storefront core, modelled in Dafny

A marketplace storefront is served by a Node/Mongoose back end and a React client.
The model covers the parts of it that decide what gets stored:

- **User document** (`UserModel`): the wishlist that is toggled by product id, and the cart and saved-for-later lists. Updates to those lists are keyed by (product, size, colour) and overwrite the quantity rather than add to it. The module also holds the phone-number pattern the schema enforces.
- **Order document** (`OrderModel`): the save hook. It appends to the status history and recomputes the total and the online/cash-on-delivery amounts from the line items. The module also has the `calculatedTotal` virtual.
- **Seller's order list** (`SellerOrders`): the forward-only status progression and the handler that asks for the next status.
- **Seller's product form** (`ProductForm`): field updates with the cash-on-delivery rule, the image batch and its previews, and the submit validation chain.
- **Seller's profile form** (`ProfileForm`): field and bank-account updates, the profile picture, the required check, and the multipart payload loop.
- **Admin dashboard** (`AdminDashboard`): category multi-selection, single and bulk category deletion, the seller status flip, the category form with its icon checks and submit guards, and the blank-query search reset.
- **Product card** (`ProductCard`): the quantity clamp, the size/colour guard, the popup defaults and the wishlist/in-cart flags.

Each module is one file. `common.dfy` holds `Option`, `Result`, the upload-file record, the image MIME types, and models of JavaScript's `Array.prototype.filter`, of a `map` that replaces by id and of `String.prototype.trim`.

How the source is rendered in Dafny:

- Money is an integer number of paise.
- A value that JavaScript reads with `x || 0` is an `Option<int>`.
- Timestamps are opaque integers passed in by the caller.
- Objects whose state is updated in place are classes with `seq` fields:
  - the Mongoose documents (`User`, `Order`);
  - the React components (`OrdersView`, `ProductFormView`, `ProfileFormView`, `AdminDashboardView`, `ProductCardView`).
- A handler that awaits the server takes the server's answer as a parameter: `ok`, `response`, `fetched`. So do the confirmation dialog (`confirmed`) and the presence of a login token (`hasToken`).
- Each stateful method's `ensures` ties the new state to a function of the old one. The properties are proved about those functions as lemmas.

## Model

| member | source | states |
|---|---|---|
| Common.Filter | server/models/userModel.js:192-194 | The result holds exactly the input elements the predicate keeps, and is no longer than the input. |
| Common.FilterConcat | client/src/pages/AdminDashboard.jsx:277-278 | Filtering a concatenation is the concatenation of the filtered parts, so kept elements keep their order. |
| Common.FilterKeepsAll | client/src/pages/AdminDashboard.jsx:277-278 | A filter that keeps every element returns its input unchanged. |
| Common.FilterOfAppended | client/src/pages/AdminDashboard.jsx:305-309 | Appending one element to the input appends it to the output exactly when it is kept. |
| Common.RemoveAt | client/src/Components/seller/ProductForm.jsx:80-81 | Filtering out index i removes exactly that position when it exists, and otherwise changes nothing. |
| Common.ReplaceById | client/src/pages/AdminDashboard.jsx:225-228 | Same length. Each element with the id becomes the given one, and the others are unchanged. |
| Common.ReplaceAbsentId | client/src/Components/seller/Orders.jsx:57 | When no element carries the id, the list is unchanged. |
| Common.ReplaceByIdTwice | client/src/pages/AdminDashboard.jsx:225-228 | Replacing twice with an element that keeps the id is the same as replacing once. |
| Common.TrimStart | server/models/userModel.js:66-75 | No longer than its input, starting with a non-white-space character, and the input itself when it already does. |
| Common.TrimEnd | server/models/userModel.js:66-75 | No longer than its input, ending with a non-white-space character, keeping the first character, and the input itself when it already ends so. |
| Common.TrimStartDrops | server/models/userModel.js:66-75 | TrimStart keeps a suffix of its input and drops only white space. |
| Common.TrimEndDrops | server/models/userModel.js:66-75 | TrimEnd keeps a prefix of its input and drops only white space. |
| Common.Trim | server/models/userModel.js:66-75 | The result has no white space at either end, and an already trimmed string is returned unchanged. |
| Common.TrimBlank | client/src/pages/AdminDashboard.jsx:289 | Trimming gives "" exactly when the string is all white space. |
| UserModel.WithoutFirstAt | server/models/userModel.js:142-144 | Taking out the first entry for a product is the splice at the index `findIndex` reports. |
| UserModel.WithoutFirst | server/models/userModel.js:142-144 | When the product is wishlisted, the list loses exactly one entry. |
| UserModel.Toggled | server/models/userModel.js:141-147 | A present product costs one entry. An absent one adds one entry and becomes present. |
| UserModel.ToggleBehaviour | server/models/userModel.js:141-147 | An absent product is appended. A present product has its first entry spliced out. |
| UserModel.ToggleKeepsUnique | server/models/userModel.js:141-147 | Toggling keeps at most one wishlist entry per product. |
| UserModel.SpliceFlipsMembership | server/models/userModel.js:142-144 | With one entry per product, splicing out pid's entry removes pid and keeps every other product. |
| UserModel.AppendFlipsMembership | server/models/userModel.js:145-146 | Pushing an entry for pid adds pid and no other product. |
| UserModel.ToggleFlipsMembership | server/models/userModel.js:141-147 | With one entry per product, a toggle flips the toggled product's membership and no other product's. |
| UserModel.ToggleTwiceRestoresMembership | server/models/userModel.js:141-148 | With one entry per product, two toggles of the same product restore every product's membership. |
| UserModel.ToggleTwiceFromAbsent | server/models/userModel.js:141-148 | From an absent product, two toggles give back exactly the original list. |
| UserModel.ToggleTwiceWithDuplicate | server/models/userModel.js:141-148 | Without the one-entry proviso, two toggles need not restore the list: two entries for one product end empty. |
| UserModel.WithoutKey | server/models/userModel.js:191-194 | After removal no entry has the key, and every entry with another key remains. |
| UserModel.Upserted | server/models/userModel.js:157-167 | The list keeps or gains one entry, never loses one. |
| UserModel.Update | server/models/userModel.js:151-169 | An update succeeds exactly when every request field is truthy, and then keeps or gains one entry. |
| UserModel.UpsertedOverwrites | server/models/userModel.js:157-165 | An existing key's first entry takes the supplied quantity, not the sum. Nothing else changes and the length stays. |
| UserModel.UpsertedAppends | server/models/userModel.js:166 | A new key is pushed as exactly one new entry at the end. |
| UserModel.UniqueFirstIndex | server/models/userModel.js:157-161 | In a list with one entry per key, any entry with the key is the one `find` returns. |
| UserModel.UpsertedKeepsUnique | server/models/userModel.js:157-167 | An update keeps one entry per key exactly when the request's own key is found or its trimmed key is new, so always for a trimmed request. The length grows by one exactly when the key was not found. A found entry with the request's key takes the request's quantity at its position; otherwise the new entry, stored under the trimmed key, is last. |
| UserModel.UpsertedKeepsTrimmed | server/models/userModel.js:66-75 | An update keeps every stored size and colour trimmed. |
| UserModel.UntrimmedNeverMatches | server/models/userModel.js:157-161 | With every stored entry trimmed, a request whose size or colour is not trimmed matches no entry. |
| UserModel.UntrimmedRequestDuplicates | server/models/userModel.js:157-167 | A request for size "M " against a stored "M" misses the `find`, is pushed as "M", and leaves two entries with one key. |
| UserModel.FilterKeepsUniqueKeys | server/models/userModel.js:192-194 | Filtering a list with one entry per key keeps one entry per key. |
| UserModel.WithoutKeyKeepsOthers | server/models/userModel.js:191-194 | Removal keeps one entry per key, and keeps the entries with other keys in their original order. |
| UserModel.DigitsThenEndIff | server/models/userModel.js:9 | The tail `\d{lo,hi}$` matches exactly the all-digit strings of length lo to hi. |
| UserModel.MatchesPhonePattern | server/models/userModel.js:9 | The pattern, tried with the optional `+` and without it. A predicate with no contract of its own; PhonePatternIsE164 characterises it. |
| UserModel.IsPhoneNumber | server/models/userModel.js:9 | The E.164 reference definition the pattern is compared with. A predicate with no contract of its own. |
| UserModel.PhonePatternIsE164 | server/models/userModel.js:9 | The pattern accepts exactly an optional `+` followed by 2 to 15 digits whose first digit is not 0. |
| UserModel.FindItem | server/models/userModel.js:157-161 | Returns -1 exactly when no entry has the key, and otherwise the position of the first entry that has it. |
| UserModel.UpsertInto | server/models/userModel.js:157-167 | The find-then-overwrite-or-push step gives the upserted list. It keeps one entry per key exactly when UpsertedKeepsUnique says so, and keeps entries trimmed. |
| UserModel.User.constructor | server/models/userModel.js:3-10 | A new user stores the trimmed phone number, which passes the pattern exactly when it is an E.164 number. The wishlist, cart and saved-for-later lists start empty. |
| UserModel.User.FindWishlistIndex | server/models/userModel.js:142 | Returns -1 exactly when the product is not wishlisted, and otherwise its first entry's position. |
| UserModel.User.ToggleWishlist | server/models/userModel.js:141-148 | The wishlist becomes the toggled list. One entry per product is preserved, and the other lists are untouched. |
| UserModel.User.UpdateCart | server/models/userModel.js:151-169 | A request with a falsy field is refused and leaves the cart unchanged. Otherwise the cart becomes the upserted list. The invariant survives exactly when no duplicate key is pushed, so always for a trimmed request. |
| UserModel.User.UpdateSavedForLater | server/models/userModel.js:171-189 | Same as UpdateCart, for the saved-for-later list. |
| UserModel.User.RemoveFromSavedForLater | server/models/userModel.js:191-196 | Every saved entry with the key is removed and the rest keep their order. The invariant is preserved. |
| UserModel.User.ClearCart | server/models/userModel.js:198-201 | The cart is empty afterwards. The other lists are untouched. |
| OrderModel.SplitSumIsOnlinePlusCod | server/models/orderModel.js:103-113 | The items' online+COD total is the sum of their online amounts plus the sum of their COD amounts. |
| OrderModel.SplitsMatchingPricesAgree | server/models/orderModel.js:119-121 | When every item's split covers price times quantity, the virtual's item sum equals the hook's. |
| OrderModel.OnlineSum | server/models/orderModel.js:103-113 | The sum of non-negative online amounts is non-negative. |
| OrderModel.CodSum | server/models/orderModel.js:103-113 | The sum of non-negative COD amounts is non-negative. |
| OrderModel.SplitSum | server/models/orderModel.js:103-113 | With non-negative splits the item total is non-negative. |
| OrderModel.PriceSum | server/models/orderModel.js:119-121 | With non-negative prices and quantities the item sum is non-negative. |
| OrderModel.RecordStatus | server/models/orderModel.js:97-100 | The history ends with the current status. It grows by one entry exactly when it was empty or its last status differed, and earlier entries are kept. |
| OrderModel.RecordStatusIdempotent | server/models/orderModel.js:98-100 | A second save with the same status adds no entry. |
| OrderModel.HistoryOnlyGrows | server/models/orderModel.js:97-100 | Over any sequence of saves the history never shrinks and earlier entries never change. |
| OrderModel.RecordAll | server/models/orderModel.js:97-100 | Each save adds at most one entry, and after at least one save the history ends with the last status set. |
| OrderModel.Order.constructor | server/models/orderModel.js:77-82 | A new order takes the given status, or "order confirmed" when none is given, and so lies in the status enum whenever the given one does. |
| OrderModel.Order.PreSave | server/models/orderModel.js:95-116 | See the PreSave list after this table. |
| OrderModel.Order.CalculatedTotalAfterSave | server/models/orderModel.js:119-121 | After a save, `calculatedTotal` equals `total` when every item's split covers its price. |
| OrderModel.Order.CalculatedTotal | server/models/orderModel.js:119-121 | With non-negative prices, quantities and shipping, `calculatedTotal` is non-negative. |
| OrderModel.CalculatedTotalMayDiffer | server/models/orderModel.js:119-121 | `calculatedTotal` need not equal the stored total: an item of price 500 paid 200 online gives 500 against 200. |
| OrderModel.SaveTwice | server/models/orderModel.js:95-116 | Two saves with nothing changed in between end in the first save's state. Items, status and shipping are unchanged. The history gains at most the one entry stamped with the first time. The total and the online and cash-on-delivery amounts are those computed from the items and shipping. Only `updatedAt` takes the second time. |
| SellerOrders.IndexOf | client/src/Components/seller/Orders.jsx:20 | `indexOf`: -1 exactly when absent, and otherwise the first position holding the value. |
| SellerOrders.GetNextStatus | client/src/Components/seller/Orders.jsx:19-25 | A status that changes is one of the first four and moves to the next one in the list. |
| SellerOrders.NextStatusStaysInEnum | client/src/Components/seller/Orders.jsx:9-25 | The screen's options are the order schema's status enum, and a status in the enum steps to a status in the enum. |
| SellerOrders.StatusesDistinct | client/src/Components/seller/Orders.jsx:9-17 | The seven statuses are pairwise distinct. |
| SellerOrders.StatusIndex | client/src/Components/seller/Orders.jsx:9-20 | Each listed status's `indexOf` is its position. |
| SellerOrders.NamedStatuses | client/src/Components/seller/Orders.jsx:9-17 | Delivered, cancelled and returned sit at indexes 4, 5 and 6. |
| SellerOrders.NextStatusByIndex | client/src/Components/seller/Orders.jsx:19-25 | By index: unlisted values and indexes 5 and 6 stay, and index i of at most 4 goes to index min(i+1, 4). |
| SellerOrders.NextStatusFixedPoints | client/src/Components/seller/Orders.jsx:19-22 | Cancelled, returned and any unlisted value are returned unchanged. |
| SellerOrders.NextStatusStep | client/src/Components/seller/Orders.jsx:24 | A listed status at index i of at most 4 goes to the status at index min(i+1, 4). |
| SellerOrders.NextStatusNeverBranches | client/src/Components/seller/Orders.jsx:19-25 | From a status other than cancelled or returned, the result is never cancelled or returned. |
| SellerOrders.NextStatusMonotone | client/src/Components/seller/Orders.jsx:19-25 | The index never decreases, and grows by exactly one for the first four statuses. |
| SellerOrders.NextStatusExamples | client/src/Components/seller/Orders.jsx:19-25 | shipped goes to out for delivery. Delivered and cancelled stay. |
| SellerOrders.FourStepsToDelivered | client/src/Components/seller/Orders.jsx:9-25 | Four steps from order confirmed reach delivered. |
| SellerOrders.FixedPointStays | client/src/Components/seller/Orders.jsx:19-25 | A fixed point of a step stays put for any number of steps. |
| SellerOrders.FixedPointsStay | client/src/Components/seller/Orders.jsx:19-25 | Delivered, the side branches and unlisted values never move however often the button is pressed. |
| SellerOrders.FixedPointIndex | client/src/Components/seller/Orders.jsx:19-25 | The status moves exactly when its index is below 4. |
| SellerOrders.FixedPointsAre | client/src/Components/seller/Orders.jsx:19-25 | The status is unchanged exactly for delivered, cancelled, returned and unlisted values. |
| SellerOrders.StatusUpdateRequest | client/src/Components/seller/Orders.jsx:48-53 | No update is issued exactly when the next status equals the current one. Otherwise the next status is sent, and it differs from the current one. |
| SellerOrders.InFirstFour | client/src/Components/seller/Orders.jsx:9-17 | A status is among the first four exactly when its index is below 4. |
| SellerOrders.UpdateOnlyMovesForward | client/src/Components/seller/Orders.jsx:48-53 | An update is sent exactly from the first four statuses, and always for the one after. |
| SellerOrders.OrdersView.constructor | client/src/Components/seller/Orders.jsx:8 | The view holds the given orders. |
| SellerOrders.OrdersView.HandleUpdateOrderStatus | client/src/Components/seller/Orders.jsx:48-62 | Sends the next status only when it differs. On an answer, the orders with the id are replaced (ReplaceById). Otherwise the list is unchanged. |
| ProductForm.ApplyChange | client/src/Components/seller/ProductForm.jsx:39-57 | See the ApplyChange list after this table. |
| ProductForm.ObjectUrls | client/src/Components/seller/ProductForm.jsx:76 | One object-URL preview per file, in order. |
| ProductForm.AddImages | client/src/Components/seller/ProductForm.jsx:64-75 | The batch is accepted exactly when every file is JPEG/PNG/JPG and at most 5 MiB. A wrong type is reported first. An accepted batch is appended in order. |
| ProductForm.AddImagesAligns | client/src/Components/seller/ProductForm.jsx:74-76 | After an accepted batch, the previews match the images position by position and the earlier images stay first. |
| ProductForm.RemoveImageKeepsMatch | client/src/Components/seller/ProductForm.jsx:79-84 | Removing position i from both lists keeps them matched. |
| ProductForm.Validate | client/src/Components/seller/ProductForm.jsx:86-113 | See the Validate list after this table. |
| ProductForm.UncheckingCodSatisfiesPaymentRule | client/src/Components/seller/ProductForm.jsx:50-53 | After COD is unchecked, the no-COD rule holds and can no longer reject the form. |
| ProductForm.NewProductNeedsImage | client/src/Components/seller/ProductForm.jsx:102-105 | A new product with no image is never accepted. |
| ProductForm.ProductFormView.constructor | client/src/Components/seller/ProductForm.jsx:8-30 | A new product's dialog starts blank, with full online payment and matching empty previews. |
| ProductForm.ProductFormView.HandleChange | client/src/Components/seller/ProductForm.jsx:39-57 | The form becomes ApplyChange of the old form. |
| ProductForm.ProductFormView.HandleImageChange | client/src/Components/seller/ProductForm.jsx:64-77 | A refused batch changes nothing and reports its error. An accepted one appends and rebuilds matching previews. |
| ProductForm.ProductFormView.RemoveImage | client/src/Components/seller/ProductForm.jsx:79-84 | Position i leaves both lists. Matching previews stay matching. |
| ProductForm.ProductFormView.HandleSubmit | client/src/Components/seller/ProductForm.jsx:86-124 | A submit while one is in flight is ignored. Otherwise the validation chain decides, and only a sent form marks the dialog busy. |
| ProductForm.ProductFormView.FinishSubmit | client/src/Components/seller/ProductForm.jsx:138-140 | The dialog is no longer busy and the form is unchanged. |
| ProfileForm.ApplyChange | client/src/Components/seller/ProfileForm.jsx:33-44 | A `bankAccount.x` change sets that sub-field only and leaves every other field unchanged. A top-level change sets that field only. |
| ProfileForm.DecidePicture | client/src/Components/seller/ProfileForm.jsx:46-56 | A picked file is accepted exactly when it is JPEG/PNG/JPG and at most 5 MiB. No file is its own case. |
| ProfileForm.Entries | client/src/Components/seller/ProfileForm.jsx:8-23 | Ten entries: the picture at 4, the bank account at 7, and text everywhere else. |
| ProfileForm.PartsOf | client/src/Components/seller/ProfileForm.jsx:75-85 | One entry adds at most one part, under its own key. Outside `bankAccount` it adds its value exactly when the value is truthy. |
| ProfileForm.Payload | client/src/Components/seller/ProfileForm.jsx:74-85 | The body has at most one part per entry, and every part comes from some entry. |
| ProfileForm.CountConcat | client/src/Components/seller/ProfileForm.jsx:75-85 | Part counts add up over concatenation. |
| ProfileForm.PartsOfKey | client/src/Components/seller/ProfileForm.jsx:75-85 | One entry adds at most one part, and only under its own key. |
| ProfileForm.CountOfEntry | client/src/Components/seller/ProfileForm.jsx:75-85 | With distinct keys, the payload holds as many parts under a key as that key's entry adds. |
| ProfileForm.KeyAbsent | client/src/Components/seller/ProfileForm.jsx:75-85 | No part is added under a key no entry has. |
| ProfileForm.BankPartIffDetails | client/src/Components/seller/ProfileForm.jsx:78-81 | The payload holds the bank account's JSON exactly when one of its sub-fields is non-empty. |
| ProfileForm.BankJsonOnlyFromBank | client/src/Components/seller/ProfileForm.jsx:78-81 | A bank part comes only from a bank entry with that account and some detail filled in. |
| ProfileForm.EntryPartsIn | client/src/Components/seller/ProfileForm.jsx:75-85 | Every part an entry adds is in the body. |
| ProfileForm.EntriesDistinct | client/src/Components/seller/ProfileForm.jsx:8-23 | The form's ten keys are distinct. |
| ProfileForm.PayloadRules | client/src/Components/seller/ProfileForm.jsx:75-85 | `bankAccount` appears once, as JSON, exactly when a sub-field is non-empty, and otherwise not at all. Every other field appears once exactly when its value is truthy, and then with its value as `append` takes it. |
| ProfileForm.AssemblePayload | client/src/Components/seller/ProfileForm.jsx:74-85 | The `forEach` loop builds exactly the specified payload. |
| ProfileForm.ProfileFormView.constructor | client/src/Components/seller/ProfileForm.jsx:8-24 | The dialog starts with no picture chosen, and holds the given form and preview. |
| ProfileForm.ProfileFormView.HandleChange | client/src/Components/seller/ProfileForm.jsx:33-44 | The form becomes ApplyChange of the old form. The preview is untouched. |
| ProfileForm.ProfileFormView.HandleImageChange | client/src/Components/seller/ProfileForm.jsx:46-59 | No file, a wrong type or a size over 5 MiB leaves the picture and preview unchanged. Otherwise both are set to the file. |
| ProfileForm.ProfileFormView.RemoveImage | client/src/Components/seller/ProfileForm.jsx:61-64 | The picture and its preview are cleared. Nothing else changes. |
| ProfileForm.ProfileFormView.HandleSubmit | client/src/Components/seller/ProfileForm.jsx:66-85 | Rejected exactly when name, shop name, phone number or address is empty. Otherwise the payload is the specified one. |
| AdminDashboard.ToggledSelection | client/src/pages/AdminDashboard.jsx:305-309 | A selected id leaves the selection with all its occurrences, and no other id changes. An unselected id is appended. |
| AdminDashboard.ToggleSelectionTwice | client/src/pages/AdminDashboard.jsx:305-309 | Two toggles restore every id's membership. |
| AdminDashboard.ToggleSelectionTwiceFromAbsent | client/src/pages/AdminDashboard.jsx:305-309 | From an unselected id, two toggles restore exactly the same selection. |
| AdminDashboard.ToggleSelectionDuplicates | client/src/pages/AdminDashboard.jsx:305-309 | A duplicated selected id collapses: two toggles from ["a","a"] give ["a"]. |
| AdminDashboard.WithoutCategory | client/src/pages/AdminDashboard.jsx:259-260 | The categories with the id are gone and all others remain. |
| AdminDashboard.WithoutId | client/src/pages/AdminDashboard.jsx:261 | The id is gone from the selection and all other ids remain. |
| AdminDashboard.WithoutSelected | client/src/pages/AdminDashboard.jsx:277-278 | No category with a selected id remains, and every unselected one does. |
| AdminDashboard.WithoutSelectedSplits | client/src/pages/AdminDashboard.jsx:277-278 | Bulk removal works piece by piece, so kept categories keep their order. |
| AdminDashboard.WithoutSelectedKeepsUnselected | client/src/pages/AdminDashboard.jsx:277-278 | A list with no selected category is left exactly as it is. |
| AdminDashboard.WithoutCategorySplits | client/src/pages/AdminDashboard.jsx:259-260 | Single removal works piece by piece, so the other categories keep their order. |
| AdminDashboard.SingleDeleteIsBulkOfOne | client/src/pages/AdminDashboard.jsx:259-278 | Deleting one category equals a bulk delete of that one id. |
| AdminDashboard.NextSellerStatus | client/src/pages/AdminDashboard.jsx:140 | "enabled" becomes "disabled" and every other value becomes "enabled". |
| AdminDashboard.SellerToggleTwice | client/src/pages/AdminDashboard.jsx:140 | On the two seller statuses the flip is an involution. |
| AdminDashboard.SetSellerStatus | client/src/pages/AdminDashboard.jsx:144 | Only sellers with the id get the new status. Every other seller and every other field is unchanged. |
| AdminDashboard.SetSellerStatusTwice | client/src/pages/AdminDashboard.jsx:144 | A second status write to the same seller overrides the first. |
| AdminDashboard.DecideIcon | client/src/pages/AdminDashboard.jsx:183-198 | An icon is accepted exactly when it is JPEG/PNG/JPG and at most 2 MiB. No file is its own case. |
| AdminDashboard.CategorySubmitCheck | client/src/pages/AdminDashboard.jsx:206-213 | A missing name is refused first. A missing icon is refused only when creating. Otherwise the submit proceeds. |
| AdminDashboard.EditingNeedsNoIcon | client/src/pages/AdminDashboard.jsx:206-213 | A named form is always accepted for an edit, and for a creation exactly when it has an icon. |
| AdminDashboard.CategoryPayload | client/src/pages/AdminDashboard.jsx:215-218 | The body is name and description, then the icon exactly when one is picked. HandleCategorySubmit sends it. |
| AdminDashboard.IsBlank | client/src/pages/AdminDashboard.jsx:289 | `!query.trim()` holds exactly when the query is all white space. |
| AdminDashboard.SearchResult | client/src/pages/AdminDashboard.jsx:287-296 | A blank query resets the filtered list to all categories. Otherwise the list is the server's answer, or [] when the answer has none. A failed search keeps the old list. |
| AdminDashboard.BlankQueries | client/src/pages/AdminDashboard.jsx:289 | The empty and whitespace-only queries are blank, and " a " is not. |
| AdminDashboard.AdminDashboardView.constructor | client/src/pages/AdminDashboard.jsx:37-49 | All lists start empty and the category form starts blank and closed. |
| AdminDashboard.AdminDashboardView.ToggleCategorySelection | client/src/pages/AdminDashboard.jsx:305-309 | The selection becomes the toggled selection and nothing else changes. |
| AdminDashboard.AdminDashboardView.HandleDeleteCategory | client/src/pages/AdminDashboard.jsx:255-267 | Once confirmed and accepted, the id leaves categories, filtered categories and the selection, and nothing else changes. Otherwise no list changes. |
| AdminDashboard.AdminDashboardView.HandleBulkDeleteCategories | client/src/pages/AdminDashboard.jsx:269-285 | An empty selection is refused. Once confirmed and accepted, the selected categories leave both lists and the selection becomes empty. Otherwise nothing changes. |
| AdminDashboard.AdminDashboardView.HandleToggleSellerStatus | client/src/pages/AdminDashboard.jsx:139-150 | Sends the flipped status. On success only the matching seller's status changes. |
| AdminDashboard.AdminDashboardView.HandleCategoryFormChange | client/src/pages/AdminDashboard.jsx:181-202 | Name and description inputs set their field. A refused or missing icon changes nothing. An accepted icon sets the form's icon and the preview. |
| AdminDashboard.AdminDashboardView.HandleEditCategory | client/src/pages/AdminDashboard.jsx:248-253 | The form takes the category's name and description with no new icon, and its stored icon becomes the preview. |
| AdminDashboard.AdminDashboardView.HandleCategorySubmit | client/src/pages/AdminDashboard.jsx:204-246 | See the HandleCategorySubmit list after this table. |
| AdminDashboard.AdminDashboardView.HandleCategorySearch | client/src/pages/AdminDashboard.jsx:287-303 | The filtered list becomes SearchResult. A blank query shows every category, and nothing else changes. |
| ProductCard.ClampQuantity | client/src/Components/ProductCard.jsx:293 | See the ClampQuantity list after this table. |
| ProductCard.Cap | client/src/Components/ProductCard.jsx:290-293 | The cap is never 0. It is the stock figure when there is one and it is not 0, and 10 otherwise. |
| ProductCard.ClampIdempotent | client/src/Components/ProductCard.jsx:293 | Typing a clamped quantity again leaves it as it is. |
| ProductCard.ClampWithoutStock | client/src/Components/ProductCard.jsx:290-293 | With no stock figure the quantity lies in 1..10, reaching 10 for inputs of 10 or more. |
| ProductCard.FirstOrEmpty | client/src/Components/ProductCard.jsx:134-135 | The first entry, or "" for an empty list. |
| ProductCard.OpenPopup | client/src/Components/ProductCard.jsx:129-136 | A missing product, size list or colour list is an error. Otherwise the popup opens with the first size and colour, or "". |
| ProductCard.PopupDefaultsToFirst | client/src/Components/ProductCard.jsx:134-135 | A product listing sizes and colours opens with the first of each selected. |
| ProductCard.AddToCartDecision | client/src/Components/ProductCard.jsx:145-165 | An empty size or colour is refused first. A missing token means login. Otherwise the request carries the product, quantity, size and colour. |
| ProductCard.SentRequestsPassServerGuard | client/src/Components/ProductCard.jsx:160-165 | A request sent with a product id and a quantity of at least 1 passes the server's cart-field guard. |
| ProductCard.WishlistFlagTracksServer | client/src/Components/ProductCard.jsx:89 | Flipping the card's heart after an accepted toggle keeps it equal to the server's membership, given one entry per product. |
| ProductCard.ProductCardView.constructor | client/src/Components/ProductCard.jsx:21-28 | The card starts with no flags set, nothing selected and quantity 1. |
| ProductCard.ProductCardView.FetchUserData | client/src/Components/ProductCard.jsx:41-69 | With a token and an answer, the flags say whether the product is in the wishlist and in the cart. Otherwise they are unchanged. |
| ProductCard.ProductCardView.HandleToggleWishlist | client/src/Components/ProductCard.jsx:73-108 | Without a token the user is sent to log in. An accepted toggle flips the heart. Otherwise nothing changes. |
| ProductCard.ProductCardView.HandleAddToCartClick | client/src/Components/ProductCard.jsx:110-143 | No token means login. An in-cart product goes to the cart without a fetch. Otherwise the popup opens as OpenPopup says. |
| ProductCard.ProductCardView.HandleQuantityInput | client/src/Components/ProductCard.jsx:290-294 | The quantity becomes the clamped input and stays at least 1. |
| ProductCard.ProductCardView.SelectSize | client/src/Components/ProductCard.jsx:306 | The selected size takes the chosen value. |
| ProductCard.ProductCardView.SelectColor | client/src/Components/ProductCard.jsx:322 | The selected colour takes the chosen value. |
| ProductCard.ProductCardView.HandleAddToCart | client/src/Components/ProductCard.jsx:145-190 | See the HandleAddToCart list after this table. |

`OrderModel.Order.PreSave` states:

- The history follows RecordStatus.
- `total` is the items' online plus COD amounts plus shipping. A differing stored total is overwritten, not rejected.
- The order-level amounts are the per-item sums, so `total == onlineAmount + codAmount + shipping`.
- A second run changes neither the history nor the three amounts.

`ProductForm.ApplyChange` states:

- Unchecking COD forces a percentage of 100 and satisfies the no-COD rule.
- A dimension change touches only the dimensions.
- The percentage changes only through its own input or the COD reset.

`ProductForm.Validate` states:

- A form the chain accepts has the 12 required fields filled.
- It has a positive return period when returnable.
- It has an image unless it is an edit.
- It meets the payment rule: 0..100 with COD, exactly 100 without.
- Each error is reported for its own condition, in the chain's order.

`AdminDashboard.AdminDashboardView.HandleCategorySubmit` states:

- Guards refuse first, and nothing is sent.
- Otherwise the body sent is CategoryPayload of the form.
- A failed request changes nothing.
- A saved edit replaces the category in both lists.
- A saved creation appends to both.
- Either one resets and closes the form.

`ProductCard.ClampQuantity` states:

- The result is at least 1.
- It is at most the cap (stock, or 10 when missing or 0) whenever the cap is at least 1.
- An unparsable or 0 input gives 1.
- An in-range input is kept.
- An input over the cap gives the cap.

`ProductCard.ProductCardView.HandleAddToCart` states:

- The outcome follows AddToCartDecision.
- An accepted request marks the product in the cart and closes the popup.
- A sent request passes the server's cart guard.

## Left out

- HTTP, authentication and persistence: every axios request, JWT handling, `localStorage` and Mongoose's `save`/`find`. A handler receives the server's answer, the confirmation dialog's answer or the token's presence as a parameter, and `save()` is the identity.
- Mongoose schema validation at save time (`required`, `min`, `enum`), except the phone-number pattern. A size or colour of only white space passes updateCart's guard and is stored as "", which `required` then rejects at save; that rejection is not modelled. The `trim` setters are modelled for the phone number and for the cart and saved-for-later sizes and colours; UpsertedKeepsUnique and UntrimmedRequestDuplicates show that an untrimmed request can leave two entries with one key. The server routes, the admin schema and the axios wrappers have no modelled behaviour.
- Floating-point money and `toFixed`: amounts are integers, so rounding is not modelled.
- Interleaved requests: each handler that awaits the server is one atomic step from the state before the request to the state after the answer. The source writes its lists after `await` from the values captured when the handler started (for example client/src/pages/AdminDashboard.jsx:259-261 and 277-279). So a concurrent update can be lost there, and that is not modelled.
- Wall-clock time: `Date.now()` values are opaque integers supplied by the caller.
- Rendering: JSX, toasts, animation, navigation, chart data, `getStatusColor` (presentation only) and the loading flags, which are set and reset around each request.
- Object-URL revocation in the effects and before a new icon preview is created: browser resource management.
- The email pattern at server/models/userModel.js:17, and the `trim` and `lowercase` setters of fields the model does not hold.
- OrderModel.Order.constructor: the status enum's `lowercase: true` setter (server/models/orderModel.js:81) is not modelled: a status is taken as given, so "Shipped" is stored and recorded as written rather than lowercased.
- UserModel.CartRequest: a NaN or missing quantity is written 0, because the guard treats every falsy quantity alike. A negative quantity passes the guard, as in the source; it is then rejected by the schema's `min: 1` at save, which is not modelled.
- ProductForm: the percentage and the return period are integers, with an empty input read as 0. Decimal values and string-to-number coercion are not modelled.
- ProductForm.ProductFormView.constructor: only the new-product dialog is constructed. Edit mode's initial form is not modelled: there the previews start as the stored URLs while the image list is empty, so PreviewsMatch does not hold.
- The multi-select handler at client/src/Components/seller/ProductForm.jsx:59-62 replaces a list wholesale and carries no rule.
- The FormData assembly after ProductForm's validation (client/src/Components/seller/ProductForm.jsx:115-121) is a serialisation of every field with no condition.
- The list updates after a product submit (`setProducts`), the profile's `setSeller`, and `handleUpdate`/`handleDelete` for products, users and sellers only mirror the server's answer.
- Common.IsWhitespace: the white-space set is JavaScript's, written out by code point. The query is not URL-encoded when it is sent, which is not modelled.
- ProfileForm.AsPart: a bank-account value under a key other than `bankAccount` would be sent as its string form. This cannot happen with the form's keys, and it is modelled as the JSON part.
- ProductCard.ProductCardView.HandleQuantityInput: the stock figure is read from the loaded details, because the input exists only while the popup shows them.
