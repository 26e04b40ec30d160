# Cyber-gadget storefront, modelled in Dafny

This project models the client-side logic of the Cyber-gadget storefront:

- the cart and wishlist stores, which are held in React contexts and persisted to local storage;
- the products page's filter, search, sort and pagination engine, whose state round-trips through the URL query;
- the filter controls: the price modal, the filter sheet and the sidebar;
- the checkout stepper, with its address and payment steps (field validation, Luhn check, input formatting) and the order summary;
- the smaller pieces around them: the auth store, the breadcrumb, the slug lookup, the product page, the discount strip, the home grid and the category strip.

There is one Dafny module per source file. Shared modules sit beside them:

- `Types`: the records of `type/type.ts`.
- `Catalog`: the constant lists of `constants/data.tsx`.
- `Strings`: the JavaScript string operations used, with ASCII case mapping.
- `JsNumber`: `parseInt`, NaN, `String(n)`, and the NaN-propagating `Math.min`/`Math.max`.
- `Seqs`: filtering and counting.

Conventions:

- Prices are whole cents. The URL's price range and the slider bounds are whole dollars, as in the source.
- A number that can be NaN is `JsNumber.Num`.
- Ids are `string | number`, compared with `===`, so `1` and `"1"` differ.
- A local-storage slot is read as a `Snapshot`: absent, unparseable, not an array, or a list of items.
- Stateful stores and components are classes. Their fields are the React state, and their methods are the handlers, with the new state in `ensures`.
- The derived values (filtered products, page slices, totals, error maps) are functions. Lemmas relate those functions to each other.

Inputs the browser supplies become parameters:

- the clock (`today`, `now`);
- `Math.random` draws (reals in [0, 1));
- fetched data and its failure;
- whether each storage write the code guards with `try` succeeds: the wishlist's saves, and the writes of log-in, sign-up and profile edits;
- fresh ids;
- scroll geometry.

Two behaviours of the products page are kept as the code has them:

- The current page is never clamped to the number of pages; a filter change resets it to 1. `ProductsPage.QueryPage.PaginatedProducts` returns the code's own window, and a page read from the URL below 1 counts back from the end of the list (see "## Findings").
- A price range read from the URL may be inverted or NaN.

Two loads run the corrected behaviour instead of the code's: the cart's mount and the signed-in user's mount. See the `CartContext.Cart.Mount` and `AuthContext.Auth.Mount` lines under "## Left out".

The Luhn check in `PaymentForm` is the one of ISO/IEC 7812-1, Annex B.

## Model

| member | source | states |
|---|---|---|
| CartContext.Find | contexts/CartContext.tsx:36 | nothing is found iff no line has the id; otherwise the first line with the id |
| CartContext.LoadAsWritten | contexts/CartContext.tsx:21-32 | parsed text goes into the cart state as it is: the state is not a list exactly when the saved JSON is not an array, and an array becomes the lines |
| CartContext.LoadAsWrittenAcceptsNonArray | contexts/CartContext.tsx:24-30 | JSON that parses but is not an array reaches the cart state; unparseable text does not |
| CartContext.Load | contexts/CartContext.tsx:21-32 | the saved lines when the slot holds an array, otherwise an empty cart; it agrees with the code wherever the code yields a list |
| CartContext.BumpPointwise | contexts/CartContext.tsx:40-44 | the lines with the id gain one unit, the others are unchanged |
| CartContext.SetQuantityPointwise | contexts/CartContext.tsx:62-66 | the lines with the id take the new quantity, the others are unchanged |
| CartContext.WithoutMembers | contexts/CartContext.tsx:52-54 | removal keeps exactly the lines with another id |
| CartContext.AddExisting | contexts/CartContext.tsx:38-44 | adding an id already in the cart keeps the number of lines and adds one unit to that id's line only |
| CartContext.AddNew | contexts/CartContext.tsx:45-48 | adding a new id appends one line of quantity 1 with the item's id and price |
| CartContext.AddRepeatedly | contexts/CartContext.tsx:34-50 | adding one item n times to an empty cart gives one line of quantity n |
| CartContext.AddKeepsInv | contexts/CartContext.tsx:34-50 | adding keeps one line per id, each of quantity at least 1 |
| CartContext.RemoveKeepsOthers | contexts/CartContext.tsx:52-54 | after removal the id is absent; removing an absent id changes nothing; removing twice is removing once |
| CartContext.WithoutUnique | contexts/CartContext.tsx:52-54 | removal keeps the cart invariant |
| CartContext.RemoveKeepsInv | contexts/CartContext.tsx:52-54 | removal keeps one line per id, each of quantity at least 1 |
| CartContext.UpdateSetsQuantity | contexts/CartContext.tsx:56-67 | a quantity below 1 removes the id; otherwise the lines keep their number, those with the id take the quantity, and the id's quantity reads back as set |
| CartContext.SetQuantityFinds | contexts/CartContext.tsx:62-66 | after setting, the id's quantity reads back as the one set |
| CartContext.UpdateKeepsInv | contexts/CartContext.tsx:56-67 | updating keeps one line per id, each of quantity at least 1 |
| CartContext.QuantityZeroIffAbsent | contexts/CartContext.tsx:73-76 | under the invariant the quantity is 0 exactly for ids not in the cart, and at least 1 for ids in it |
| CartContext.BumpTotals | contexts/CartContext.tsx:82-83 | one more unit of a listed id raises the item count by 1 and the total by that line's price |
| CartContext.BumpAbsent | contexts/CartContext.tsx:40-44 | bumping an absent id changes nothing |
| CartContext.TotalsAppend | contexts/CartContext.tsx:82-83 | appending a line adds its quantity to the item count and its price times quantity to the total |
| CartContext.AddTotals | contexts/CartContext.tsx:34-50 | each add raises the item count by exactly 1 and the total by the item's price |
| CartContext.RemoveTotals | contexts/CartContext.tsx:82 | removing lowers the item count by the removed id's quantity |
| CartContext.Cart.constructor | contexts/CartContext.tsx:10-12 | an empty, unmounted cart over the browser's slot |
| CartContext.Cart.Mount | contexts/CartContext.tsx:14-32 | after mounting the lines are the loaded ones and the slot holds them |
| CartContext.Cart.Save | contexts/CartContext.tsx:14-18 | once mounted the slot holds the lines; before, it is untouched |
| CartContext.Cart.AddToCart | contexts/CartContext.tsx:34-50 | the lines become the added ones and are saved once mounted |
| CartContext.Cart.RemoveFromCart | contexts/CartContext.tsx:52-54 | the lines lose the id and are saved once mounted |
| CartContext.Cart.UpdateQuantity | contexts/CartContext.tsx:56-67 | the lines become the updated ones and are saved once mounted |
| CartContext.Cart.ClearCart | contexts/CartContext.tsx:69-71 | the cart is empty with zero items and a zero total, saved once mounted |
| CartContext.Cart.GetItemQuantity | contexts/CartContext.tsx:73-76 | 0 for an absent id, otherwise the quantity of the id's first line |
| WishlistContext.Load | contexts/WishlistContext.tsx:15-31 | a saved array replaces the list; an empty slot, unparseable text or a non-array leaves it as it was |
| WishlistContext.WithoutMembers | contexts/WishlistContext.tsx:54-56 | removal keeps exactly the entries with another id |
| WishlistContext.AddIdempotent | contexts/WishlistContext.tsx:44-52 | adding twice is adding once, the id is on the list afterwards, and distinct ids stay distinct |
| WishlistContext.RemoveOnlyThat | contexts/WishlistContext.tsx:54-56 | removal drops exactly the entries with that id; removing an absent id changes nothing |
| WishlistContext.WithoutAbsent | contexts/WishlistContext.tsx:54-56 | removing an id not on the list gives the list back |
| WishlistContext.AddThenRemove | contexts/WishlistContext.tsx:44-56 | saving a product not yet on the list and then removing it restores the list |
| WishlistContext.AppendWithout | contexts/WishlistContext.tsx:50-55 | removing an id after appending an entry with that id is removing it from the original list |
| WishlistContext.WithoutUnique | contexts/WishlistContext.tsx:54-56 | removal keeps ids distinct |
| WishlistContext.Wishlist.constructor | contexts/WishlistContext.tsx:11-12 | an empty, uninitialised list over the browser's slot |
| WishlistContext.Wishlist.Mount | contexts/WishlistContext.tsx:15-42 | after the load effect the list is the loaded one and, when the write succeeds, the slot holds it |
| WishlistContext.Wishlist.Save | contexts/WishlistContext.tsx:34-42 | the slot holds the list once initialised and when the write succeeds; otherwise it is untouched |
| WishlistContext.Wishlist.AddToWishlist | contexts/WishlistContext.tsx:44-52 | the list becomes the added one; a duplicate id leaves the slot untouched; a new one is saved |
| WishlistContext.Wishlist.RemoveFromWishlist | contexts/WishlistContext.tsx:54-56 | the list loses the id and is saved |
| WishlistContext.Wishlist.ClearWishlist | contexts/WishlistContext.tsx:62-64 | the list is empty and is saved |
| WishlistContext.Wishlist.TotalItems | contexts/WishlistContext.tsx:66 | the number of entries; 0 iff no id is on the list |
| WishlistContent.FindItem | components/features/wishList/WishlistContent.tsx:27 | nothing is found iff no entry has the id; a found entry has the id and is the first such entry in the list |
| WishlistContent.ToCartItem | components/features/wishList/WishlistContent.tsx:31-38 | the cart line carries the entry's id, name, price, model, images and category |
| WishlistContent.RemoveLowersTotalValue | components/features/wishList/WishlistContent.tsx:24 | removing a saved product lowers the total value by exactly its price |
| WishlistContent.MoveToCartSpec | components/features/wishList/WishlistContent.tsx:26-43 | moving takes the product off the wishlist, lowers its total value by the price, puts the id in the cart and raises the cart's item count by 1 |
| WishlistContent.HandleMoveToCart | components/features/wishList/WishlistContent.tsx:26-43 | an id not on the wishlist changes nothing; otherwise the product is added to the cart and removed from the wishlist, the cart slot is saved once the cart is mounted and the wishlist slot once initialised and the write succeeds, else each slot is untouched |
| WishlistContent.HandleRemove | components/features/wishList/WishlistContent.tsx:45-48 | the wishlist loses the id; its slot holds the new list once initialised and the write succeeds, else it is untouched |
| WishlistContent.HandleClearAll | components/features/wishList/WishlistContent.tsx:50-55 | the wishlist is emptied only when the user confirms, and its slot then holds the empty list once initialised and the write succeeds; otherwise nothing changes |
| CartPage.CartTotalAboveCheckoutTotal | components/features/cart/Cart.tsx:25-28 | the cart page's total exceeds the checkout summary's by $29 minus the summary's shipping charge, so it is always higher |
| CartPage.QuantityStepSpec | components/features/cart/Cart.tsx:30-35 | a + or - press keeps the cart invariant, does nothing for an absent id, moves the quantity by the step while it stays at least 1, and removes the line otherwise |
| CartPage.CartView.constructor | components/features/cart/Cart.tsx:20-22 | empty promo and bonus fields, no promo applied |
| CartPage.CartView.HandleUpdateQuantity | components/features/cart/Cart.tsx:30-35 | the cart's lines become the stepped ones; the slot is saved only when a line was changed |
| CartPage.CartView.ApplyPromoCode | components/features/cart/Cart.tsx:37-43 | the toast shows iff the code is not blank, and the promo becomes applied exactly then |
| CartPage.CartView.ApplyBonusCard | components/features/cart/Cart.tsx:45-50 | the toast shows iff the card is not blank |
| CartPage.CartView.HandleCheckout | components/features/cart/Cart.tsx:52-60 | the page goes to the checkout iff the cart is not empty |
| Checkout.StepError | components/features/checkout/Checkout.tsx:48-64 | step 1 passes iff an address id is selected and the list is non-empty; step 2 passes iff not (scheduled shipping without a date); any other step passes |
| Checkout.StepOneIgnoresWhichAddress | components/features/checkout/Checkout.tsx:48-54 | the step-1 gate accepts a selected id that names none of the page's addresses |
| Checkout.WalkStaysInRange | components/features/checkout/Checkout.tsx:66-80 | from any step 1..3, every sequence of Next/Back presses stays within steps 1..3 and moves forward at most once per Next that passed the gate |
| Checkout.PaymentError | components/features/checkout/Checkout.tsx:82-111 | payment passes iff the trimmed name is non-empty, the space-free card number has 13..19 characters, the expiry matches two digits, '/', two digits with month 1..12, and the CVV has 3..4 characters; otherwise the first failing check's message |
| Checkout.FormAcceptedPassesCheckout | components/features/checkout/Checkout.tsx:82-111 | data the payment form accepts (expiry and CVV as the form's input handlers produce them) also passes the page's check |
| Checkout.CheckoutAcceptsNonDigitCards | components/features/checkout/Checkout.tsx:88-92 | a card number the page accepts may still hold a non-digit, which the payment form rejects |
| Checkout.CheckoutAcceptsExpiredCards | components/features/checkout/Checkout.tsx:94-103 | the page reads the month only, so an expiry whose year is past passes the page while the payment form calls it expired |
| Checkout.CheckoutStepper.constructor | components/features/checkout/Checkout.tsx:17-46 | the wizard starts on step 1 with the 'home' address, free shipping, no date, the two initial addresses and an empty payment form |
| Checkout.CheckoutStepper.HandleNext | components/features/checkout/Checkout.tsx:66-76 | the step advances by one exactly when the current step's gate passes and the step is below 3; a step in 1..3 stays in 1..3 |
| Checkout.CheckoutStepper.HandleBack | components/features/checkout/Checkout.tsx:78-80 | the step goes back by one unless it is the first; a step in 1..3 stays in 1..3 |
| Checkout.CheckoutStepper.HandlePay | components/features/checkout/Checkout.tsx:113-120 | the payment goes ahead iff the payment check passes |
| StepperHeader.MobileSteps | components/features/checkout/StepperHeader.tsx:15-18 | at most two steps are shown on a narrow screen |
| StepperHeader.MobileStepsSpec | components/features/checkout/StepperHeader.tsx:15-18 | on steps 1 and 2 the current and the next step are shown, on step 3 only step 3, on step 0 only step 1, otherwise none |
| StepperHeader.OneCurrentStep | components/features/checkout/StepperHeader.tsx:24-35 | on a step in 1..3 exactly that step is current, the steps before it are done and those after it pending |
| OrderSummary.ShippingCost | components/features/checkout/OrderSummary.tsx:24 | express costs $8.50 and every other option costs nothing |
| OrderSummary.LineAmounts | components/features/checkout/OrderSummary.tsx:55 | one amount per cart line, each its price times its quantity |
| OrderSummary.SumFront | components/features/checkout/OrderSummary.tsx:21-25 | a sum is its first amount plus the sum of the rest |
| OrderSummary.LinesAddUpToSubtotal | components/features/checkout/OrderSummary.tsx:21-25 | the line amounts add up to the cart total, and the total lies between subtotal plus tax and that plus the express charge |
| OrderSummary.FindAddress | components/features/checkout/OrderSummary.tsx:67 | no address is found iff none has the id; a found address is in the list and has the id |
| OrderSummary.FindAddressIsFirst | components/features/checkout/OrderSummary.tsx:67 | the address found is the first one with that id |
| OrderSummary.AddressRowShowsSelection | components/features/checkout/OrderSummary.tsx:63-70 | past step 1, with a selection that names an address, the row shows that address's text |
| OrderSummary.ShipmentLabelMatchesCost | components/features/checkout/OrderSummary.tsx:72-79 | the express label is shown exactly when express is charged, and the label is one of Free, Express ($8.50), Schedule |
| AddressStep.DeleteRemovesOnlyThat | components/features/checkout/AddressStep.tsx:42-44 | deleting keeps exactly the addresses with another id, and no address with the deleted id remains |
| AddressStep.SelectionAfterDelete | components/features/checkout/AddressStep.tsx:46-48 | the selection is kept unless it was the deleted id; then it becomes the first remaining address, or nothing when none remains |
| AddressStep.DeleteKeepsSelectionValid | components/features/checkout/AddressStep.tsx:42-51 | a selection that named a listed address (or nothing) still does after a delete |
| AddressStep.EditedAddresses | components/features/checkout/AddressStep.tsx:125-129 | editing keeps the list's length |
| AddressStep.EditKeepsIds | components/features/checkout/AddressStep.tsx:123-130 | editing keeps every id in place; addresses with the edited id take the form's fields, the others stay as they were |
| AddressStep.SaveKeepsSelectionValid | components/features/checkout/AddressStep.tsx:120-146 | after a save the selection still names a listed address; ids stay distinct when the new id is not already in use |
| AddressStep.NameError | components/features/checkout/AddressStep.tsx:76-83 | the name passes iff it has at least 3 characters once trimmed |
| AddressStep.FullAddressError | components/features/checkout/AddressStep.tsx:85-92 | the address passes iff it has at least 10 characters once trimmed |
| AddressStep.PhoneError | components/features/checkout/AddressStep.tsx:94-107 | the phone passes iff it is not blank, has only digits, spaces, '-', '(' and ')', and holds at least 10 digits |
| AddressStep.FirstError | components/features/checkout/AddressStep.tsx:111-115 | the toast is empty iff there are no errors, otherwise it is one of the field errors |
| AddressStep.FormPassesIff | components/features/checkout/AddressStep.tsx:72-118 | a form passes iff all three field checks pass |
| AddressStep.AddressEditor.constructor | components/features/checkout/AddressStep.tsx:32-40 | the form starts hidden, blank, not editing, without errors |
| AddressStep.AddressEditor.DeleteAddress | components/features/checkout/AddressStep.tsx:42-51 | the page's list loses the deleted id and its selection moves as SelectionAfterDelete says |
| AddressStep.AddressEditor.OpenAddAddressForm | components/features/checkout/AddressStep.tsx:53-58 | the form shows, blank, not editing, without errors |
| AddressStep.AddressEditor.OpenEditAddressForm | components/features/checkout/AddressStep.tsx:60-70 | the form shows with the address's fields, editing its id, without errors |
| AddressStep.AddressEditor.ValidateAddress | components/features/checkout/AddressStep.tsx:72-118 | the stored errors are the form's errors, the form is valid iff there are none, and the toast is the first error |
| AddressStep.AddressEditor.SaveAddress | components/features/checkout/AddressStep.tsx:120-146 | a failing form changes only the errors; a passing one updates the list (edit) or appends a new address and selects it (add), then resets the form |
| AddressStep.AddressEditor.CancelAddressForm | components/features/checkout/AddressStep.tsx:148-153 | the form hides and resets |
| ProductsPage.DecodeDefaults | components/features/products/ProductsPageX.tsx:21-57 | with no query parameters the state is no selections, page 1, no search, sort by rating, prices 0..2000 |
| ProductsPage.UpdateUrl | components/features/products/ProductsPageX.tsx:60-79 | the query written is the current one with each entry applied in order (empty or null deletes, a list is comma-joined, anything else is its text), less sort=rating and page=1 |
| ProductsPage.ApplyAllKey | components/features/products/ProductsPageX.tsx:63-71 | after the entries, a key holds what its last entry says, and a key no entry names keeps its value |
| ProductsPage.LastForAt | components/features/products/ProductsPageX.tsx:63-71 | an entry that no later entry overrides is the last word on its key |
| ProductsPage.LastForNone | components/features/products/ProductsPageX.tsx:63-71 | a key no entry names has no last word |
| ProductsPage.ListRoundTrip | components/features/products/ProductsPageX.tsx:22-35 | a comma-joined list of non-empty comma-free values splits back into itself |
| ProductsPage.NumRoundTrip | components/features/products/ProductsPageX.tsx:37-40 | the text of a whole number parses back to it |
| ProductsPage.EncodeLookup | components/features/products/ProductsPageX.tsx:112-119 | each of the state's entries is the last word on its key |
| ProductsPage.CleanupLookup | components/features/products/ProductsPageX.tsx:73-75 | cleaning removes sort only when it is 'rating' and page only when it is '1', and no other key |
| ProductsPage.RoundTripLists | components/features/products/ProductsPageX.tsx:22-35 | the brand, battery and size selections written to the query read back unchanged |
| ProductsPage.RoundTripPrice | components/features/products/ProductsPageX.tsx:50-57 | the price range written to the query reads back unchanged |
| ProductsPage.PageOneText | components/features/products/ProductsPageX.tsx:75 | only page 1 is written as '1' |
| ProductsPage.RoundTripPage | components/features/products/ProductsPageX.tsx:37-40 | the page written to the query reads back unchanged, page 1 included though it is dropped |
| ProductsPage.RoundTripTexts | components/features/products/ProductsPageX.tsx:42-48 | the search and the sort written to the query read back unchanged, the omitted defaults included |
| ProductsPage.RoundTrip | components/features/products/ProductsPageX.tsx:21-79 | decoding the query the page writes for a state gives that state back |
| ProductsPage.FilteredIff | components/features/products/ProductsPageX.tsx:150-176 | a product is kept iff it is listed and its brand, battery, size, search and price all match; with a battery or size selection, kept products have a non-empty value for it |
| ProductsPage.FilteredKeepsOrder | components/features/products/ProductsPageX.tsx:150-176 | filtering keeps the catalogue's order |
| ProductsPage.SearchVacuousIff | components/features/products/ProductsPageX.tsx:165-168 | a blank query matches everything; otherwise a product matches iff its lower-cased brand, model or non-empty details contain the lower-cased query |
| ProductsPage.SearchIgnoresCase | components/features/products/ProductsPageX.tsx:165-168 | lower-casing the query does not change what it matches |
| ProductsPage.Brands | components/features/products/ProductsPageX.tsx:132 | one brand per product, in order |
| ProductsPage.Defined | components/features/products/ProductsPageX.tsx:138-139 | exactly the values that are present |
| ProductsPage.Batteries | components/features/products/ProductsPageX.tsx:138 | one battery value per product, in order |
| ProductsPage.ScreenSizes | components/features/products/ProductsPageX.tsx:144 | one screen size value per product, in order |
| ProductsPage.FacetSpec | components/features/products/ProductsPageX.tsx:131-147 | a facet lists exactly the canonical values that are present, in canonical order, without repeats |
| ProductsPage.AvailableFacets | components/features/products/ProductsPageX.tsx:131-147 | the brand, battery and size facets offer exactly the listed values that some product carries |
| ProductsPage.ToggleMembers | components/features/products/ProductsPageX.tsx:179-207 | a toggle flips whether the value is selected, touches no other value, and keeps the selection free of repeats |
| ProductsPage.ToggleTwice | components/features/products/ProductsPageX.tsx:179-207 | toggling twice restores which values are selected, and the selection itself when the value was not selected |
| ProductsPage.SliceIndex | components/features/products/ProductsPageX.tsx:234 | a slice index lands within the list |
| ProductsPage.NegativePageShowsProducts | components/features/products/ProductsPageX.tsx:231-234 | as written, page -1 of 20 products shows nine of them |
| ProductsPage.PageSlice | components/features/products/ProductsPageX.tsx:231-234 | agrees with the code for every page from 1 up |
| ProductsPage.TotalPages | components/features/products/ProductsPageX.tsx:235 | the fewest pages of nine that hold all products |
| ProductsPage.PageSliceSpec | components/features/products/ProductsPageX.tsx:231-235 | a page in 1..totalPages shows positions (p-1)*9 up to p*9 or the end and is never empty; any other page shows nothing |
| ProductsPage.PagesCover | components/features/products/ProductsPageX.tsx:231-235 | the first k pages, in order, are the first min(9k, n) products |
| ProductsPage.AllPagesCover | components/features/products/ProductsPageX.tsx:231-235 | the pages 1..totalPages together are the whole filtered list |
| ProductsPage.MinPrice | components/features/products/ProductsPageX.tsx:126 | the lowest price, held by some product |
| ProductsPage.MaxPrice | components/features/products/ProductsPageX.tsx:127 | the highest price, held by some product |
| ProductsPage.PriceBoundsCover | components/features/products/ProductsPageX.tsx:122-129 | a range set to the bounds lets every product through, and no narrower whole-dollar range does |
| ProductsPage.QueryPage.constructor | components/features/products/ProductsPageX.tsx:18-57 | the state starts decoded from the query, with no products and loading |
| ProductsPage.QueryPage.Render | components/features/products/ProductsPageX.tsx:16 | a navigation re-renders the page with the router's query |
| ProductsPage.QueryPage.LoadProducts | components/features/products/ProductsPageX.tsx:82-110 | on success the category's products, ignoring case, are kept, and when the query names neither price end the range becomes their bounds; a failed fetch leaves products and filters as they were; loading ends either way |
| ProductsPage.QueryPage.SyncUrl | components/features/products/ProductsPageX.tsx:112-119 | the query holds the selections and the page |
| ProductsPage.QueryPage.ToggleBrand | components/features/products/ProductsPageX.tsx:179-187 | the brand selection is toggled and the page goes back to 1 |
| ProductsPage.QueryPage.ToggleBattery | components/features/products/ProductsPageX.tsx:189-197 | the battery selection is toggled and the page goes back to 1 |
| ProductsPage.QueryPage.ToggleSize | components/features/products/ProductsPageX.tsx:199-207 | the size selection is toggled and the page goes back to 1 |
| ProductsPage.QueryPage.HandleSortChange | components/features/products/ProductsPageX.tsx:209-212 | the sort is set and written to the query |
| ProductsPage.QueryPage.HandlePriceChange | components/features/products/ProductsPageX.tsx:214-222 | the range is set, the page goes back to 1, and both ends and page 1 are written to the query |
| ProductsPage.QueryPage.HandleSearchChange | components/features/products/ProductsPageX.tsx:224-228 | the search is set, the page goes back to 1, and both are written to the query |
| ProductsPage.QueryPage.HandlePageChange | components/features/products/ProductsPageX.tsx:237-241 | the page is set and written to the query |
| ProductsPage.QueryPage.ClearAllFilters | components/features/products/ProductsPageX.tsx:244-255 | the state becomes Apple selected, page 1, no search, rating sort, the price bounds; the query is cleared; the active-filters row still shows |
| ProductsPage.QueryPage.PaginatedProducts | components/features/products/ProductsPageX.tsx:230-234 | the as-written window of the filtered products for the page; for a page of 1 or more it is that page of nine; never more than nine products, each listed and matching the filters |
| ProductsPage.PageSliceAsWrittenBound | components/features/products/ProductsPageX.tsx:231-234 | the as-written window holds at most nine products for any page number, negative or NaN included |
| ProductsPage.QueryPage.ClearAllAndSync | components/features/products/ProductsPageX.tsx:244-255 | when the router re-renders with the bare path before the URL effect runs, "Clear all" ends with the cleared state and the query brands=Apple alone |
| ProductsPage.ClearAllSyncFromOldQuery | components/features/products/ProductsPageX.tsx:112-119 | when the URL effect runs from the query the page was rendered with, that query's search, sort and price range come back beside brands=Apple |
| ProductsPage.ClearAllThenSync | components/features/products/ProductsPageX.tsx:112-119 | the URL effect for the cleared state, run from the bare path, leaves brands=Apple and nothing else |
| ProductGrid.StrLessIrreflexive | components/features/products/ProductGrid.tsx:35-36 | no model name sorts strictly before itself |
| ProductGrid.StrLessTransitive | components/features/products/ProductGrid.tsx:35-36 | name order is transitive |
| ProductGrid.StrLessTotal | components/features/products/ProductGrid.tsx:35-36 | of two different names one sorts before the other |
| ProductGrid.NotBeforeTransitive | components/features/products/ProductGrid.tsx:26-39 | for every key, "not strictly before" is transitive, so each comparator is a consistent order |
| ProductGrid.BeforeAsymmetric | components/features/products/ProductGrid.tsx:26-39 | for every key, no two products are each strictly before the other |
| ProductGrid.InsertPerm | components/features/products/ProductGrid.tsx:23-40 | inserting a product adds exactly that product |
| ProductGrid.InsertSorted | components/features/products/ProductGrid.tsx:23-40 | inserting into a page in comparator order keeps it in comparator order |
| ProductGrid.SortBySpec | components/features/products/ProductGrid.tsx:23-40 | the sorted page is in comparator order and is a permutation of the page |
| ProductGrid.SortKeys | components/features/products/ProductGrid.tsx:27-34 | price_asc gives rising prices, price_desc falling prices, rating falling ratings (missing as 0), newest falling creation times (missing as 0) |
| ProductGrid.UnknownKeyKeepsOrder | components/features/products/ProductGrid.tsx:37-38 | an unknown key leaves the page as it is |
| ProductGrid.SortKeepsPage | components/features/products/ProductGrid.tsx:23-40 | whichever key is chosen, the same products are shown |
| Pagination.PrevTarget | components/features/products/Pagination.tsx:12-14 | Prev asks for a page iff the current page is above 1, and then for the one before |
| Pagination.NextTarget | components/features/products/Pagination.tsx:16-18 | Next asks for a page iff the current page is below the last, and then for the one after |
| Pagination.RangeSnoc | components/features/products/Pagination.tsx:30-32 | a run of pages grows by its next page |
| Pagination.GeneratePageNumbers | components/features/products/Pagination.tsx:21-39 | the list is the three loops' output with repeats removed in order of first occurrence; a NaN page gives no list |
| Pagination.FirstPages | components/features/products/Pagination.tsx:25-27 | past page 3: page 1 and "…"; otherwise the pages before the current one |
| Pagination.PagesAround | components/features/products/Pagination.tsx:29-32 | the pages within two of the current one, clipped to 1..total |
| Pagination.LastPages | components/features/products/Pagination.tsx:34-36 | more than two pages before the end: "…" and the last page; otherwise the pages after the current one |
| Pagination.Unique | components/features/products/Pagination.tsx:38 | the entries in order of first occurrence, each once |
| Pagination.RangeSpec | components/features/products/Pagination.tsx:30-32 | a run from lo to hi holds exactly the pages lo..hi, in order |
| Pagination.DedupAppend | components/features/products/Pagination.tsx:38 | removing repeats from a joined list is removing them from each part in turn |
| Pagination.DedupSeen | components/features/products/Pagination.tsx:38 | entries already seen add nothing |
| Pagination.DedupFresh | components/features/products/Pagination.tsx:38 | new, distinct entries are all kept |
| Pagination.DedupClosedForm | components/features/products/Pagination.tsx:21-39 | for 1 <= current <= total the list is page 1 and "…" past page 3, the pages from max(1, current - 2) to min(total, current + 2), and, when the current page is more than two before the last, the last page, preceded by "…" only when current <= 3 |
| Pagination.ShownParts | components/features/products/Pagination.tsx:21-39 | a page is shown iff it is page 1 past page 3, within two of the current one, or the last page |
| Pagination.PageListAsWrittenSpec | components/features/products/Pagination.tsx:21-39 | the list as written shows exactly the pages that should be shown, in increasing order, with at most one "…" |
| Pagination.TrailingEllipsisLost | components/features/products/Pagination.tsx:34-38 | with pages hidden on both sides the second "…" is removed as a repeat, so page current+2 is followed directly by the last page |
| Pagination.PageListSpec | components/features/products/Pagination.tsx:21-39 | the intended list shows the same pages in increasing order, with one "…" past page 3 and one more when the current page is more than two before the last |
| Pagination.PageListPositions | components/features/products/Pagination.tsx:21-37 | the intended list starts with 1, "…", current - 2 exactly past page 3 and ends with current + 2, "…", last exactly when the current page is more than two before the last; those are its only "…" entries, and elsewhere page numbers are consecutive; with page 4 or page last - 3 a "…" hides no page, as in the code |
| Pagination.LeadingEllipsisHidesNothing | components/features/products/Pagination.tsx:26 | as written, page 4 puts a "…" between pages 1 and 2 |
| Pagination.PageListTight | components/features/products/Pagination.tsx:21-39 | the list with "…" only where a page is hidden: page 1 and "…" from page 5, "…" and the last page while more than three pages follow; `Pagination.PageListTightShows` and `Pagination.PageListTightSpec` state it |
| Pagination.PageListTightShows | components/features/products/Pagination.tsx:21-39 | the tight list shows the same pages as the code, in increasing order |
| Pagination.PageListTightSpec | components/features/products/Pagination.tsx:21-39 | every "…" of the tight list stands between two pages and hides at least one, and without a "…" the page numbers are consecutive: a side has a "…" iff it hides a page |
| AuthContext.FindByCredentials | contexts/AuthContext.tsx:72-75 | nothing is found iff no stored account has both that email and that password; a found account has both and is the first such account stored |
| AuthContext.SignupKeepsEmailsUnique | contexts/AuthContext.tsx:110-128 | sign-up appends only for an email not in use, so stored emails stay distinct |
| AuthContext.SignupThenLogin | contexts/AuthContext.tsx:64-150 | after signing up, logging in with the same email and password finds the new account |
| AuthContext.ApplyToStored | contexts/AuthContext.tsx:178 | an edit merged into a stored account keeps its password |
| AuthContext.FindIndexById | contexts/AuthContext.tsx:175 | -1 iff no account has the id; otherwise the first index whose account has it |
| AuthContext.UpdatedUsers | contexts/AuthContext.tsx:174-180 | an edit keeps the number of stored accounts |
| AuthContext.EditKeepsAccountInStep | contexts/AuthContext.tsx:159-190 | when the signed-in user matched their stored account, after an edit the account shows the edited user, keeps its password, and every other account is unchanged |
| AuthContext.Auth.constructor | contexts/AuthContext.tsx:41-42 | no user yet, loading |
| AuthContext.Auth.Mount | contexts/AuthContext.tsx:47-62 | a saved user in the slot is signed in, an empty or unreadable slot changes nothing, and loading ends |
| AuthContext.Auth.Login | contexts/AuthContext.tsx:64-101 | wrong credentials fail with 'Invalid email or password' and change nothing; right ones sign in the account's public view and save it, unless the "user" write throws, which fails and changes nothing; loading ends |
| AuthContext.Auth.Signup | contexts/AuthContext.tsx:103-150 | an email in use fails and changes nothing; otherwise the new account is appended, signed in and saved; a throwing "users" write fails and changes nothing, and a throwing "user" write fails with the account stored but nobody new signed in; loading ends |
| AuthContext.Auth.Logout | contexts/AuthContext.tsx:152-157 | nobody is signed in and the slot is empty afterwards |
| AuthContext.Auth.UpdateProfile | contexts/AuthContext.tsx:159-190 | with nobody signed in it fails and changes nothing; otherwise the user, the slot and the stored account take the edit; a throwing "user" write fails and changes nothing, and a throwing "users" write fails with only the slot edited; loading ends |
| Breadcrumb.SegmentsAreClean | components/layout/Breadcrumb.tsx:13 | every segment is non-empty and holds no '/' |
| Breadcrumb.SegmentsOfJoin | components/layout/Breadcrumb.tsx:13-26 | for '/' followed by clean segments joined with '/', the split gives the segments back and the last crumb's path is the whole path |
| Breadcrumb.CapitalizeAll | components/layout/Breadcrumb.tsx:19 | one capitalised word per word |
| Breadcrumb.FormatChars | components/layout/Breadcrumb.tsx:16-21 | the character-by-character label has the segment's length |
| Breadcrumb.FormatMatchesChars | components/layout/Breadcrumb.tsx:16-21 | splitting at '-', capitalising and joining with ' ' gives the character-by-character label |
| Breadcrumb.FormatCharAt | components/layout/Breadcrumb.tsx:16-21 | each character of the label is the one LabelChar names for its position |
| Breadcrumb.FormatSegmentSpec | components/layout/Breadcrumb.tsx:16-21 | a label has its segment's length; each '-' becomes a space, the first character and each one after a '-' is upper-cased, the rest is kept |
| Breadcrumb.BuildPathExtends | components/layout/Breadcrumb.tsx:24-26 | each crumb's path is the previous one followed by '/' and its own segment |
| Breadcrumb.CrumbsLength | components/layout/Breadcrumb.tsx:44-66 | one crumb per remaining segment |
| Breadcrumb.CrumbAt | components/layout/Breadcrumb.tsx:44-66 | the k-th crumb from a position is the crumb of that segment |
| Breadcrumb.CrumbsSpec | components/layout/Breadcrumb.tsx:44-66 | one crumb per segment, labelled with the formatted segment; the last is plain text and every other one links to the path up to its segment |
| Breadcrumb.Trail | components/layout/Breadcrumb.tsx:9-13 | no trail on '/', otherwise the crumbs of the path's segments |
| PriceFilterModal.FieldValue | components/features/products/PriceFilterModal.tsx:21 | text that does not parse, or parses to 0, falls back to the bound; any other parsed number is taken |
| PriceFilterModal.WithMin | components/features/products/PriceFilterModal.tsx:20-23 | the high end is kept; with numbers, the low end is the typed value capped at the high end, so the range stays ordered; a NaN spreads to the low end |
| PriceFilterModal.WithMax | components/features/products/PriceFilterModal.tsx:25-28 | the low end is kept; with numbers, the high end is the typed value raised to the low end, so the range stays ordered; a NaN spreads to the high end |
| PriceFilterModal.Edited | components/features/products/PriceFilterModal.tsx:20-37 | a low-end edit keeps the high end and a high-end edit keeps the low end |
| PriceFilterModal.EditsKeepOrder | components/features/products/PriceFilterModal.tsx:20-37 | from a range of numbers, any run of typed or dragged edits keeps both ends numbers, and after at least one edit the low end is not above the high end |
| PriceFilterModal.NaNSpreads | components/features/products/PriceFilterModal.tsx:20-37 | a range whose ends are both NaN stays NaN at both ends whatever is edited |
| PriceFilterModal.PriceEditor.constructor | components/features/products/PriceFilterModal.tsx:17-18 | closed, with the working range seeded from the applied one |
| PriceFilterModal.PriceEditor.ToggleOpen | components/features/products/PriceFilterModal.tsx:47 | the panel opens or closes |
| PriceFilterModal.PriceEditor.HandleMinChange | components/features/products/PriceFilterModal.tsx:20-23 | the working range takes the low-end edit, keeps its high end, and is ordered when the high end is a number |
| PriceFilterModal.PriceEditor.HandleMaxChange | components/features/products/PriceFilterModal.tsx:25-28 | the working range takes the high-end edit, keeps its low end, and is ordered when the low end is a number |
| PriceFilterModal.PriceEditor.HandleSliderChange | components/features/products/PriceFilterModal.tsx:30-37 | the slider value becomes the high end (raised to the low end) or the low end (capped at the high end) |
| PriceFilterModal.PriceEditor.HandleApply | components/features/products/PriceFilterModal.tsx:39-42 | the working range is handed over unchanged and the panel closes |
| FilterSheet.ToggleHead | components/features/products/FilterSheet.tsx:56-58 | toggling the first value of a selection without repeats drops it |
| FilterSheet.ToggleAllClears | components/features/products/FilterSheet.tsx:56-58 | toggling every value of a selection without repeats empties it |
| FilterSheet.RepeatedValueSurvives | components/features/products/FilterSheet.tsx:56 | a selection holding a value twice, as the query brands=Apple,Apple gives, keeps it once after clearing |
| FilterSheet.ClearAllFilters | components/features/products/FilterSheet.tsx:55-61 | the selections become each one toggled by its own values, the search empty, the range the bounds, the page 1; the query is the price handler's update of the rendered query |
| FilterSheet.ToggleBrands | components/features/products/FilterSheet.tsx:56 | the brand selection is toggled by each value in turn; only it and the page change |
| FilterSheet.ToggleBatteries | components/features/products/FilterSheet.tsx:57 | the battery selection is toggled by each value in turn; only it and the page change |
| FilterSheet.ToggleSizes | components/features/products/FilterSheet.tsx:58 | the size selection is toggled by each value in turn; only it and the page change |
| FilterSheet.ToggleAllSnoc | components/features/products/FilterSheet.tsx:56-58 | one more value in the loop is one more toggle at the end |
| FilterSheet.ClearedIsInactive | components/features/products/FilterSheet.tsx:55-69 | after clearing selections without repeats, no filter is active |
| FilterSheet.SearchSurvivesClear | components/features/products/FilterSheet.tsx:59-60 | as written, the search term of the rendered query is still in the query after "Clear all" |
| FilterSheet.IntendedClearDropsSearch | components/features/products/FilterSheet.tsx:59-60 | with the search and price entries applied in one update, no search term is left, the price ends are the bounds and page 1 is dropped |
| FilterSheet.SearchCleared | components/features/products/FilterSheet.tsx:59 | an empty search entry that no later entry overrides removes the search term |
| FilterSheet.PriceSet | components/features/products/FilterSheet.tsx:60 | a number entry that no later entry overrides leaves its text under its key |
| FilterSheet.Sheet.constructor | components/features/products/FilterSheet.tsx:49 | the sheet starts closed |
| FilterSheet.Sheet.HandleApply | components/features/products/FilterSheet.tsx:51-53 | Apply closes the sheet |
| FilterSidebar.BrandCounts | components/features/products/FilterSidebar.tsx:33-39 | each brand of the products is counted exactly as often as it occurs, and no other key is present |
| FilterSidebar.CountOfSnoc | components/features/products/FilterSidebar.tsx:35-37 | one more product adds one to its own brand's count only |
| FilterSidebar.TallyStep | components/features/products/FilterSidebar.tsx:35-37 | one step of the loop keeps the counts right for the products seen so far |
| FilterSidebar.TallyAppend | components/features/products/FilterSidebar.tsx:35-37 | adding one to a brand's entry (from 0 when missing) counts one more product of that brand |
| FilterSidebar.DisplayCount | components/features/products/FilterSidebar.tsx:64 | a brand with no entry shows 0 |
| FilterSidebar.SumCountsStep | components/features/products/FilterSidebar.tsx:54-67 | the counts over a list of brands are the first one's count plus the rest's |
| FilterSidebar.CountOfDistinct | components/features/products/FilterSidebar.tsx:54-67 | a value of a list without repeats occurs in it once |
| FilterSidebar.CountsSumToTotal | components/features/products/FilterSidebar.tsx:54-67 | over a list without repeats naming every brand present, the counts add up to the number of products |
| FilterSidebar.SumCountsEmpty | components/features/products/FilterSidebar.tsx:54-67 | no products, no counts |
| FilterSidebar.ShownCountsAddUp | components/features/products/FilterSidebar.tsx:33-67 | each shown count is that brand's number of products, 0 included, and over a list without repeats naming every brand present they add up to the number of products |
| FilterSidebar.ShownIsCounted | components/features/products/FilterSidebar.tsx:54-67 | the shown counts add up to the counts of the listed brands |
| FilterSidebar.Rows | components/features/products/FilterSidebar.tsx:54-110 | one row per available value, in order, checked iff the value is selected, showing its count |
| FilterSidebar.ChangeBrandRow | components/features/products/FilterSidebar.tsx:59-60 | a row change toggles that brand only and resets the page to 1 |
| FilterSidebar.ChangeBatteryRow | components/features/products/FilterSidebar.tsx:81-82 | a row change toggles that battery value only and resets the page to 1 |
| FilterSidebar.ChangeSizeRow | components/features/products/FilterSidebar.tsx:103-104 | a row change toggles that size only and resets the page to 1 |
| PaymentForm.Term | components/features/checkout/PaymentForm.tsx:81-86 | a digit adds at most 9, and itself when it is not doubled |
| PaymentForm.LuhnFront | components/features/checkout/PaymentForm.tsx:80-90 | a digit put in front adds its term, doubled when an odd number of digits follow it |
| PaymentForm.IsValidCardNumber | components/features/checkout/PaymentForm.tsx:76-93 | the right-to-left loop answers exactly the Luhn check (digits only, sum a multiple of 10) |
| PaymentForm.CheckDigit | components/features/checkout/PaymentForm.tsx:76-93 | a digit string with a digit appended passes iff that digit is the Luhn check digit of the rest |
| PaymentForm.CompletesToTen | components/features/checkout/PaymentForm.tsx:92 | a digit added to a number gives a multiple of 10 iff it is the number's complement to 10 |
| PaymentForm.LuhnSumOneChange | components/features/checkout/PaymentForm.tsx:80-90 | changing one digit changes the sum by the change of that digit's term |
| PaymentForm.DoubledAtStep | components/features/checkout/PaymentForm.tsx:83-89 | a position's doubling flips with the parity of the digits after it |
| PaymentForm.TermDoubled | components/features/checkout/PaymentForm.tsx:84-85 | a doubled digit adds the sum of the decimal digits of its double |
| PaymentForm.TermInjective | components/features/checkout/PaymentForm.tsx:81-86 | distinct digits add distinct terms, doubled or not |
| PaymentForm.SingleErrorDetected | components/features/checkout/PaymentForm.tsx:76-93 | two digit strings that differ in exactly one position do not both pass, so a single mistyped digit is caught |
| PaymentForm.CloseMultiples | components/features/checkout/PaymentForm.tsx:92 | two multiples of 10 less than 10 apart are equal |
| PaymentForm.NameError | components/features/checkout/PaymentForm.tsx:32-36 | the name passes iff it has at least 3 characters once trimmed and only letters and white space; blank gives the required message |
| PaymentForm.CardError | components/features/checkout/PaymentForm.tsx:38-46 | the card passes iff without white space it has 13..19 characters and passes the Luhn check; more than 19 gives the too-long message |
| PaymentForm.ExpiryDateError | components/features/checkout/PaymentForm.tsx:52-63 | NaN halves pass; with numbers, the date passes iff the month is 1..12 and the year is later than this year, or this year with the month not before this month |
| PaymentForm.CvvError | components/features/checkout/PaymentForm.tsx:66-70 | the CVV passes iff it has at least 3 characters, all digits |
| PaymentForm.ValidateField | components/features/checkout/PaymentForm.tsx:30-73 | the checkbox is never in error |
| PaymentForm.NonNumericExpiryPasses | components/features/checkout/PaymentForm.tsx:48-64 | as written, the expiry text ab/cd passes every check |
| PaymentForm.Chunks | components/features/checkout/PaymentForm.tsx:119 | blocks of 1..4 characters, all but the last of 4, that together give the text back; none for empty text |
| PaymentForm.ChunksNoSpace | components/features/checkout/PaymentForm.tsx:118-119 | blocks of text without white space hold none |
| PaymentForm.RemoveSpacesJoin | components/features/checkout/PaymentForm.tsx:118-120 | removing the spaces of blocks joined with ' ' gives the blocks' text |
| PaymentForm.FormatCardNumberSpec | components/features/checkout/PaymentForm.tsx:117-121 | formatting keeps every non-space character in order, splits into the blocks of four, and formatting twice is formatting once |
| PaymentForm.FormatExpDate | components/features/checkout/PaymentForm.tsx:123-129 | at most 5 characters: up to two digits, or two digits, '/', then one or two digits |
| PaymentForm.FormatExpDateSpec | components/features/checkout/PaymentForm.tsx:123-129 | the formatted expiry keeps the first four digits of the input, and formatting twice is formatting once |
| PaymentForm.ExpiryOfFormatted | components/features/checkout/PaymentForm.tsx:48-64 | for a complete formatted expiry the validator's answer is the plain month and year comparison with today |
| PaymentForm.SplitExpiry | components/features/checkout/PaymentForm.tsx:51 | a complete formatted expiry splits at '/' into its two digit halves |
| PaymentForm.CardInputNeverTooLong | components/features/checkout/PaymentForm.tsx:134-136 | a card number typed into the field never holds more than 19 non-space characters, so the too-long message never shows for it |
| PaymentForm.CvvInput | components/features/checkout/PaymentForm.tsx:157-159 | at most four digits, the first ones typed, and four whenever four were typed |
| PaymentForm.CvvInputValid | components/features/checkout/PaymentForm.tsx:157-165 | a CVV typed into the field passes iff it has 3 or 4 digits |
| PaymentForm.WithField | components/features/checkout/PaymentForm.tsx:131-171 | the changed field takes its sanitised value, the checkbox its checked state, and every other field is kept |
| PaymentForm.FormValidFields | components/features/checkout/PaymentForm.tsx:96-108 | the form is valid iff the name, card, expiry and CVV checks all pass |
| PaymentForm.FormErrors | components/features/checkout/PaymentForm.tsx:96-104 | exactly the failing fields are in the errors, each with its message; none iff the form is valid |
| PaymentForm.Form.constructor | components/features/checkout/PaymentForm.tsx:26-27 | no errors and no field touched |
| PaymentForm.Form.HandleInputChange | components/features/checkout/PaymentForm.tsx:131-178 | the data take the change; a touched text field's error is re-validated on the sanitised value, other errors are kept |
| PaymentForm.Form.HandleBlur | components/features/checkout/PaymentForm.tsx:111-115 | the field becomes touched and its error is its current one |
| PaymentForm.Form.HandlePayWithValidation | components/features/checkout/PaymentForm.tsx:180-192 | every text field is touched, the errors are exactly the failing fields, and the payment goes ahead iff the form is valid |
| JsNumber.Min | components/features/products/PriceFilterModal.tsx:22 | NaN iff either argument is NaN; otherwise the smaller argument |
| JsNumber.Max | components/features/products/PriceFilterModal.tsx:27 | NaN iff either argument is NaN; otherwise the larger argument |
| JsNumber.OrElse | components/features/products/PriceFilterModal.tsx:21 | the number unless it is 0 or NaN, the fallback then |
| JsNumber.DigitPrefix | components/features/checkout/PaymentForm.tsx:52 | the longest prefix of digits: every character is a digit and the next one is not |
| JsNumber.DigitChar | components/features/products/ProductsPageX.tsx:69 | the character of a digit reads back as that digit |
| JsNumber.NatToString | components/features/products/ProductsPageX.tsx:69 | a non-empty run of digits |
| JsNumber.NatToStringValue | components/features/products/ProductsPageX.tsx:69 | the digits written for a number read back as that number |
| JsNumber.DigitPrefixAll | components/features/checkout/PaymentForm.tsx:52 | a string of digits is its own digit prefix |
| JsNumber.ParseIntDigits | components/features/products/ProductsPageX.tsx:39 | a string of digits parses to its value |
| JsNumber.ParseIntNegDigits | components/features/products/ProductsPageX.tsx:39 | a minus sign before digits parses to the negated value |
| JsNumber.ParseIntChar | components/features/checkout/PaymentForm.tsx:81 | a one-character parse is a number 0..9 iff the character is a digit |
| JsNumber.ParseIntLetter | components/features/checkout/PaymentForm.tsx:52 | text starting with a letter parses to NaN |
| JsNumber.ParseIntCharAgrees | components/features/checkout/PaymentForm.tsx:81 | the one-character parse is the general parse on that character |
| JsNumber.ParseIntToString | components/features/products/ProductsPageX.tsx:54-69 | parsing what String(n) writes gives n back, for every integer n |
| Strings.LowerChar | components/features/home/HomeGrid.tsx:42 | never an upper-case letter; lower-case letters and non-letters unchanged |
| Strings.UpperChar | components/layout/Breadcrumb.tsx:18-20 | never a lower-case letter; non-letters unchanged |
| Strings.Lower | components/features/home/HomeGrid.tsx:42 | same length, each character lower-cased |
| Strings.LowerIdempotent | components/features/products/ProductsPageX.tsx:88 | lower-casing twice is lower-casing once |
| Strings.LowerCharSpace | components/features/products/ProductsPageX.tsx:88 | lower-casing neither makes nor removes white space |
| Strings.TrimStart | components/features/checkout/PaymentForm.tsx:33-34 | a suffix whose removed prefix is all white space and which does not start with white space |
| Strings.TrimEnd | components/features/checkout/PaymentForm.tsx:33-34 | a prefix whose removed suffix is all white space and which does not end with white space |
| Strings.TrimEmptyIff | components/features/checkout/AddressStep.tsx:77 | trimming gives empty text iff every character is white space |
| Strings.RemoveSpaces | components/features/checkout/PaymentForm.tsx:39 | no longer than the input and free of white space |
| Strings.RemoveSpacesNoop | components/features/checkout/PaymentForm.tsx:118 | text without white space is unchanged |
| Strings.RemoveSpacesKeeps | components/features/checkout/PaymentForm.tsx:118 | every non-space character survives |
| Strings.RemoveSpacesAppend | components/features/checkout/PaymentForm.tsx:118 | removal distributes over concatenation |
| Strings.KeepDigits | components/features/checkout/PaymentForm.tsx:124 | no longer than the input and all digits |
| Strings.KeepDigitsNoop | components/features/checkout/PaymentForm.tsx:158 | a string of digits is unchanged |
| Strings.KeepDigitsAppend | components/features/checkout/PaymentForm.tsx:124 | keeping the digits distributes over concatenation |
| Strings.Split | components/layout/Breadcrumb.tsx:13 | at least one piece |
| Strings.SplitParts | components/layout/Breadcrumb.tsx:13 | one piece more than separators, and no piece holds the separator |
| Strings.JoinSplit | components/layout/Breadcrumb.tsx:18-20 | joining the pieces of a split gives the text back |
| Strings.SplitJoin | components/features/products/ProductsPageX.tsx:24-67 | splitting a join of separator-free pieces gives the pieces back |
| Strings.JoinNonEmpty | components/layout/Breadcrumb.tsx:18-20 | a join whose first piece is non-empty starts with that piece's first character |
| Strings.JoinChars | components/layout/Breadcrumb.tsx:18-20 | every character of a join is the separator or comes from a piece |
| Strings.JoinSnoc | components/layout/Breadcrumb.tsx:25 | joining one more piece appends the separator and that piece |
| JsNumber.Plus | components/features/checkout/PaymentForm.tsx:85-88 | NaN iff either side is NaN; otherwise the sum |
| JsNumber.Times | components/features/checkout/PaymentForm.tsx:84 | NaN iff the number is NaN; otherwise the product |
| ProductUtils.SlugIsShaped | lib/product-utils.ts:6 | a slug holds only a-z, 0-9 and '-', never two '-' in a row |
| ProductUtils.SlugKeepsLettersAndDigits | lib/product-utils.ts:6 | dropping the '-' of a slug gives exactly the letters and digits of the lower-cased model, in order |
| ProductUtils.LowerFixesShaped | lib/product-utils.ts:6 | lower-casing leaves a slug-shaped string as it is |
| ProductUtils.SlugIdempotent | lib/product-utils.ts:6 | slugging a slug gives it back |
| ProductUtils.FindProductBySlug | lib/product-utils.ts:4-8 | the first product in list order whose model slugs to the given slug; none iff no model does |
| DetailsPage.PicturesNonEmpty | components/features/products/DetailsPage.tsx:75-85 | the view pictures kept after the filter are never empty |
| DetailsPage.Thumbnails | components/features/products/DetailsPage.tsx:72-88 | at most four pictures, a prefix of the images followed by the present view pictures; exactly four or all of them; the first four images when there are four |
| DetailsPage.InitialImage | components/features/products/DetailsPage.tsx:93 | never empty; the first thumbnail when there is one, the placeholder otherwise |
| DetailsPage.OpensOnViewPicture | components/features/products/DetailsPage.tsx:72-93 | a product with no images opens on its first present view picture |
| DetailsPage.AddToCartSpec | components/features/products/DetailsPage.tsx:110-124 | after the cart button the product is in the cart and the count is one higher; a new product gets its own line of quantity 1 named after its model |
| DetailsPage.HandleAddToCart | components/features/products/DetailsPage.tsx:110-124 | the cart becomes the cart with the product's line added; the slot holds it once the cart is mounted, else it is untouched |
| DetailsPage.ToggleFlips | components/features/products/DetailsPage.tsx:126-151 | id 0 changes nothing; otherwise the button flips whether the product is saved, and ids stay unique |
| DetailsPage.ToggleTwice | components/features/products/DetailsPage.tsx:126-151 | two presses restore whether the product is saved, and the list itself when it was not |
| DetailsPage.HandleWishlist | components/features/products/DetailsPage.tsx:126-151 | the wishlist becomes the toggled list; for a non-zero id the slot holds it once initialised and the write succeeds; otherwise the slot is untouched |
| Discount.Pick | components/features/cart/Discount.tsx:20 | the drawn index is within the list |
| Discount.GetRandomDiscount | components/features/cart/Discount.tsx:19-21 | every discount is one of 5, 10, 15, 20, 25, 30 |
| Discount.ShuffleArray | components/features/cart/Discount.tsx:24-31 | the result is a permutation of the input; with one element or none it is the input |
| Discount.WithDiscounts | components/features/cart/Discount.tsx:47-50 | one entry per product, in order, each with a listed discount |
| Discount.Shown | components/features/cart/Discount.tsx:119 | the first four entries, or all of them when fewer |
| Discount.LoadStrip | components/features/cart/Discount.tsx:41-58 | after a successful fetch, four catalogue products, or all when fewer, each taken from its own position of the shuffled catalogue (as a multiset, the strip's products are contained in the catalogue's) and each with a listed discount; after a failed fetch, the strip shown before |
| HomeGrid.Filtered | components/features/home/HomeGrid.tsx:41-43 | exactly the products whose lower-cased value names the tab |
| HomeGrid.FilteredKeepsOrder | components/features/home/HomeGrid.tsx:41-43 | filtering a concatenation is concatenating the filtered parts, so catalogue order is kept |
| HomeGrid.Shown | components/features/home/HomeGrid.tsx:81 | at most eight, a prefix of the tab's products, all of them when eight or fewer |
| HomeGrid.ShownAreOnTab | components/features/home/HomeGrid.tsx:41-81 | every shown product is in the catalogue and has a value naming the tab |
| HomeGrid.Section.constructor | components/features/home/HomeGrid.tsx:13-16 | no products, loading, no error, the new tab |
| HomeGrid.Section.Load | components/features/home/HomeGrid.tsx:18-39 | loading ends; the products on success, the message on failure |
| HomeGrid.Section.SelectTab | components/features/home/HomeGrid.tsx:77 | the tab becomes the chosen one |
| HomeGrid.Section.Render | components/features/home/HomeGrid.tsx:46-93 | the spinner while loading, then the error when its message is non-empty, then the grid of shown products, with the empty state iff no product is on the tab |
| Categories.CategoriesDataNoDup | constants/data.tsx:45-57 | the category list names each entry once |
| Categories.CategoriesOf | components/features/home/Categories.tsx:17-22 | exactly the listed categories some product belongs to, each once |
| Categories.MoreProductsMoreCategories | components/features/home/Categories.tsx:17-22 | adding products never removes a category |
| Categories.EmptyViewIff | components/features/home/Categories.tsx:63-71 | the empty view shows iff no listed category has a product |
| Categories.ScrollTarget | components/features/home/Categories.tsx:25-37 | 300 pixels left or right of the current position |
| Categories.Strip.Scroll | components/features/home/Categories.tsx:25-37 | a chevron moves the strip 300 pixels its way, kept within the scrollable range, and the chevrons are recomputed for the new position |
| Categories.Strip.constructor | components/features/home/Categories.tsx:39-40 | neither chevron shows |
| Categories.Strip.HandleScroll | components/features/home/Categories.tsx:46-51 | left iff scrolled right of 0; right iff more than 10 pixels remain to the right |
| Categories.ChevronsLeadBack | components/features/home/Categories.tsx:46-51 | from any reachable position, pressing a visible right chevron makes the left one show, and on a strip overflowing by more than 10 pixels pressing left makes the right one show |
| Categories.RightPressesReachEnd | components/features/home/Categories.tsx:25-51 | one right press per 300 pixels still to go brings the strip to its end, where the right chevron is hidden |
| Categories.LeftPressesReachStart | components/features/home/Categories.tsx:25-51 | one left press per 300 pixels scrolled brings the strip back to 0, where the left chevron is hidden |
| ProductsPage.Matches | components/features/products/ProductsPageX.tsx:150-176 | whether a product passes every criterion of a state; `ProductsPage.FilteredIff` states it criterion by criterion |
| ProductsPage.FilteredProducts | components/features/products/ProductsPageX.tsx:150-176 | the products that pass, in catalogue order; `ProductsPage.FilteredIff` and `ProductsPage.FilteredKeepsOrder` state which and in what order |
| ProductsPage.Decode | components/features/products/ProductsPageX.tsx:21-57 | the state the initialisers read from a query; `ProductsPage.DecodeDefaults` and `ProductsPage.RoundTrip` state its defaults and that it inverts `ProductsPage.Encode` |
| ProductsPage.Encode | components/features/products/ProductsPageX.tsx:112-119 | the URL entries a state is written as; `ProductsPage.EncodeLookup` and `ProductsPage.RoundTrip` state what each key ends up holding |
| ProductsPage.PriceBounds | components/features/products/ProductsPageX.tsx:122-129 | the slider bounds in whole dollars, {0, 2000} with no products; `ProductsPage.PriceBoundsCover` states they are the tightest cover |
| ProductsPage.PageSliceAsWritten | components/features/products/ProductsPageX.tsx:231-234 | the code's nine-product window for a page number; `ProductsPage.PageSlice`, `ProductsPage.PageSliceAsWrittenBound` and `ProductsPage.NegativePageShowsProducts` state its agreement, size and negative case |
| ProductsPage.Toggle | components/features/products/ProductsPageX.tsx:179-207 | a selection with one value removed if present, else appended; `ProductsPage.ToggleMembers` and `ProductsPage.ToggleTwice` state its effect |
| CartContext.Added | contexts/CartContext.tsx:34-50 | the lines after adding an item; `CartContext.AddExisting`, `CartContext.AddNew` and `CartContext.AddTotals` state them |
| CartContext.Updated | contexts/CartContext.tsx:56-67 | the lines after setting a quantity; `CartContext.UpdateSetsQuantity` states them |
| CartContext.Without | contexts/CartContext.tsx:52-54 | the lines without an id; `CartContext.RemoveKeepsOthers` states them |
| CartContext.TotalItems | contexts/CartContext.tsx:82 | the sum of the quantities; `CartContext.AddTotals` and `CartContext.TotalsAppend` state how it moves |
| CartContext.CartTotal | contexts/CartContext.tsx:83 | the sum of price times quantity, in cents; `CartContext.AddTotals` and `CartContext.TotalsAppend` state how it moves |
| Pagination.PageListAsWritten | components/features/products/Pagination.tsx:21-39 | the page list the code returns, in closed form; `Pagination.DedupClosedForm` ties it to the `Set` pass and `Pagination.PageListAsWrittenSpec` states what it shows |
| Pagination.PageList | components/features/products/Pagination.tsx:21-37 | the page list with both "…" marks kept, at the code's thresholds; `Pagination.PageListSpec` and `Pagination.PageListPositions` state what it shows and where |
| JsNumber.ParseInt | components/features/products/ProductsPageX.tsx:37-40 | `parseInt` without a radix; `JsNumber.ParseIntDigits` and `JsNumber.ParseIntToString` state its values |
| JsNumber.NumToString | components/features/products/ProductsPageX.tsx:69 | `String(n)` for an integer or NaN; `JsNumber.ParseIntToString` states that `JsNumber.ParseInt` inverts it |
| PaymentForm.LuhnValid | components/features/checkout/PaymentForm.tsx:76-93 | the Luhn check on a digit string; `PaymentForm.IsValidCardNumber` and `PaymentForm.SingleErrorDetected` state the loop's agreement and the error it catches |
| PaymentForm.FormatCardNumber | components/features/checkout/PaymentForm.tsx:117-121 | the card number in blocks of four; `PaymentForm.FormatCardNumberSpec` states its properties |
| PaymentForm.CardInput | components/features/checkout/PaymentForm.tsx:134-136 | what the card field keeps of a change; `PaymentForm.CardInputNeverTooLong` states its bound |
| ProductGrid.SortBy | components/features/products/ProductGrid.tsx:23-40 | the page sorted by a key; `ProductGrid.SortBySpec` states order and permutation |
| AuthContext.PublicView | contexts/AuthContext.tsx:81-88 | the user built from an account, without the password; `AuthContext.Auth.Login` states it is who signs in |
| AuthContext.NewAccount | contexts/AuthContext.tsx:118-126 | the account sign-up stores; `AuthContext.SignupThenLogin` states it can then sign in |
| AddressStep.NewAddress | components/features/checkout/AddressStep.tsx:133-136 | the form with a fresh `addr_` id; `AddressStep.AddressEditor.SaveAddress` states where it goes |
| AddressStep.SavedList | components/features/checkout/AddressStep.tsx:120-146 | the list after a passing save, edited or appended; `AddressStep.SaveKeepsSelectionValid` states the selection stays on it |
| FilterSheet.HasActiveFilters | components/features/products/FilterSheet.tsx:63-69 | whether any selection, the search or the range differs from the defaults; `FilterSheet.ClearedIsInactive` states that clearing turns it off |
| DetailsPage.Toggled | components/features/products/DetailsPage.tsx:126-151 | the wishlist after the heart button; `DetailsPage.ToggleFlips` and `DetailsPage.ToggleTwice` state its effect |
| WishlistContent.TotalValue | components/features/wishList/WishlistContent.tsx:24 | the sum of the saved prices; `WishlistContent.RemoveLowersTotalValue` states how removal moves it |
| Checkout.NextStep | components/features/checkout/Checkout.tsx:66-76 | the step after Next; `Checkout.CheckoutStepper.HandleNext` states it |
| Checkout.BackStep | components/features/checkout/Checkout.tsx:78-80 | the step after Back; `Checkout.CheckoutStepper.HandleBack` states it |
| Breadcrumb.Segments | components/layout/Breadcrumb.tsx:13 | the non-empty pieces of the path; `Breadcrumb.SegmentsAreClean` states their form |
| Breadcrumb.FormatSegment | components/layout/Breadcrumb.tsx:16-21 | the crumb label of a segment; `Breadcrumb.FormatSegmentSpec` states it character by character |
| Breadcrumb.BuildPath | components/layout/Breadcrumb.tsx:24-26 | the link of a crumb; `Breadcrumb.BuildPathExtends` states how crumbs nest |
| CartContext.Cart.IsInCart | contexts/CartContext.tsx:78-80 | whether a line for the id is in the cart; its ensures state that this is `CartContext.Find` finding one, that in a well-formed cart it is the same as `GetItemQuantity` being at least 1, and that otherwise the quantity is 0 |
| WishlistContext.Wishlist.IsInWishlist | contexts/WishlistContext.tsx:58-60 | whether a saved product has the id; `WishlistContext.Wishlist.TotalItems` ensures the count is 0 exactly when no id is saved, and `WishlistContext.AddIdempotent` and `WishlistContext.RemoveOnlyThat` state that the id is there after an add and gone after a remove |
| AuthContext.Auth.IsAuthenticated | contexts/AuthContext.tsx:196 | whether a user is signed in; `AuthContext.Auth.Logout` ensures it is false afterwards, and `AuthContext.Auth.Login` and `AuthContext.Auth.Signup` ensure that the signed-in user is the one just found or created |
| HomeGrid.Section.HasError | components/features/home/HomeGrid.tsx:57 | whether the error message is present and non-empty; `HomeGrid.Section.Render` ensures the error view is shown exactly when it holds and nothing is loading |
| Checkout.CheckoutStepper.CurrentStepError | components/features/checkout/Checkout.tsx:48-64 | the step gate's error for the current state; `Checkout.StepError`'s ensures say when each step passes, and `Checkout.CheckoutStepper.HandleNext` ensures that the step advances only when there is no error |
| ProductsPage.QueryPage.VisibleProducts | components/features/products/ProductsPageX.tsx:150-176 | exactly the loaded products that pass every current filter: the brand, the battery, the size, the search and the price |
| OrderSummary.Total | components/features/checkout/OrderSummary.tsx:22-25 | the subtotal plus the $50 tax plus the shipping charge; `OrderSummary.LinesAddUpToSubtotal` states that the line amounts add up to the subtotal, and `CartPage.CartTotalAboveCheckoutTotal` compares it with the cart page's total |
| OrderSummary.LineAmount | components/features/checkout/OrderSummary.tsx:55 | a line's price times its quantity; `OrderSummary.LinesAddUpToSubtotal` states that the amounts sum to the cart total |
| OrderSummary.AddressRow | components/features/checkout/OrderSummary.tsx:63-70 | the address row, shown from step 2 on; `OrderSummary.AddressRowShowsSelection` states that it shows the text of the selected listed address |
| OrderSummary.ShipmentLabel | components/features/checkout/OrderSummary.tsx:76 | the shipment method's label; `OrderSummary.ShipmentLabelMatchesCost` states that the express label goes with the express charge and every other label with no charge |
| OrderSummary.ShipmentRow | components/features/checkout/OrderSummary.tsx:72-79 | shown exactly from step 3 on, and it reads "Express ($8.50)" exactly when the express charge is added |
| CartPage.PageTotal | components/features/cart/Cart.tsx:25-28 | the subtotal plus $50 tax plus $29 shipping; `CartPage.CartTotalAboveCheckoutTotal` states that it is always above the checkout total, and by how much |
| CartPage.QuantityStepped | components/features/cart/Cart.tsx:29-34 | the lines after a + or - press; `CartPage.QuantityStepSpec` states that it keeps the cart well formed, moves only that line and removes it below 1, and that an absent id changes nothing |
| CartPage.ShowsEmptyView | components/features/cart/Cart.tsx:62 | whether the cart has no lines; `CartPage.CartView.HandleCheckout` ensures that the checkout is reached exactly when it does not hold |
| WishlistContent.ShowsEmptyView | components/features/wishList/WishlistContent.tsx:57 | the empty view is shown exactly when no product id is saved |
| Categories.ShowsEmptyView | components/features/home/Categories.tsx:63 | whether no category card is shown; `Categories.EmptyViewIff` states that this is exactly when no product offers any listed category |
| StepperHeader.StatusOf | components/features/checkout/StepperHeader.tsx:28-35 | a step circle's colour; `StepperHeader.OneCurrentStep` states that exactly the current step is current, the earlier ones are done and the later ones are upcoming |
| PaymentForm.ExpiryError | components/features/checkout/PaymentForm.tsx:48-64 | the expiry field's message; `PaymentForm.ExpiryOfFormatted` states what it is for formatted input, `PaymentForm.NonNumericExpiryPasses` shows that "ab/cd" passes, and `Checkout.CheckoutAcceptsExpiredCards` shows that the page lets an expired card through |
| PaymentForm.FormValid | components/features/checkout/PaymentForm.tsx:96-107 | that no field has an error; `PaymentForm.FormValidFields` states it field by field, and `PaymentForm.Form.HandlePayWithValidation` ensures that payment happens exactly when it holds |
| Pagination.RawPages | components/features/products/Pagination.tsx:25-36 | what the three loops push before duplicates are removed; `Pagination.GeneratePageNumbers` ensures its result is their deduplication, and `Pagination.DedupClosedForm` gives that in closed form |
| Pagination.DedupFrom | components/features/products/Pagination.tsx:38 | the first occurrences in order; `Pagination.Unique` is the loop that computes it, and `Pagination.DedupAppend`, `Pagination.DedupSeen` and `Pagination.DedupFresh` state how it splits over a concatenation, drops seen entries and keeps fresh ones |
| ProductsPage.BrandMatch | components/features/products/ProductsPageX.tsx:152-153 | an empty brand selection or the product's brand in it; `ProductsPage.FilteredIff` states its place among the criteria |
| ProductsPage.SpecMatch | components/features/products/ProductsPageX.tsx:155-163 | an empty selection, or a present non-empty battery or size value in it; `ProductsPage.FilteredIff` states that every shown product has the value when the selection is not empty |
| ProductsPage.SearchMatch | components/features/products/ProductsPageX.tsx:165-168 | a blank query, or the lower-cased query inside the brand, the model or the details; `ProductsPage.SearchVacuousIff` and `ProductsPage.SearchIgnoresCase` state when it is vacuous and that case does not matter |
| ProductsPage.PriceMatch | components/features/products/ProductsPageX.tsx:170-172 | a price within both finite ends of the range; `ProductsPage.PriceBoundsCover` states that the default bounds admit every product |
| ProductsPage.ApplyAll | components/features/products/ProductsPageX.tsx:63-71 | the query after each update in order; `ProductsPage.ApplyAllKey` states that each key holds its last update's outcome, or its old value when it has none |
| ProductsPage.Cleanup | components/features/products/ProductsPageX.tsx:73-75 | the query without the default sort and page; `ProductsPage.CleanupLookup` states what every key then holds |
| ProductsPage.ClearedFilters | components/features/products/ProductsPageX.tsx:244-251 | the state "Clear all" sets; `ProductsPage.QueryPage.ClearAllFilters` ensures that it is set and the active-filters row stays, and `ProductsPage.ClearAllThenSync` states the query the next sync writes |
| ProductUtils.Slug | lib/product-utils.ts:6 | a model's slug; `ProductUtils.SlugIsShaped`, `ProductUtils.SlugKeepsLettersAndDigits` and `ProductUtils.SlugIdempotent` state its shape, that its letters and digits are kept, and that it is its own slug |
| ProductGrid.RatingOrZero | components/features/products/ProductGrid.tsx:32 | a product's rating, or 0 without one; `ProductGrid.SortKeys` states that the rating sort puts these in descending order |
| ProductGrid.CreatedOrZero | components/features/products/ProductGrid.tsx:34 | a product's creation time, or 0 without one; `ProductGrid.SortKeys` states that the newest sort puts these in descending order |
| AuthContext.NewUserId | contexts/AuthContext.tsx:120 | the id a new account gets, "user_" followed by the clock reading; `AuthContext.NewUserIdInjective` states that different readings give different ids |
| AuthContext.NewUserIdInjective | contexts/AuthContext.tsx:120 | `AuthContext.NewUserId` gives different ids at different clock readings |
| AuthContext.EmailTaken | contexts/AuthContext.tsx:112-116 | whether some stored account has the email; `AuthContext.Auth.Signup` ensures that a taken email fails and changes nothing, and `AuthContext.SignupKeepsEmailsUnique` states that sign-up keeps emails distinct |
| AddressStep.NewAddressId | components/features/checkout/AddressStep.tsx:134 | the id a new address gets, "addr_" followed by the clock reading; `AddressStep.NewAddressIdInjective` states that different readings give different ids |
| AddressStep.NewAddressIdInjective | components/features/checkout/AddressStep.tsx:134 | `AddressStep.NewAddressId` gives different ids at different clock readings |
| AddressStep.IsEdit | components/features/checkout/AddressStep.tsx:123 | whether an edit is under way, meaning a non-empty id is held; `AddressStep.SaveKeepsSelectionValid` states the save in both cases |
| AddressStep.SavedSelection | components/features/checkout/AddressStep.tsx:123-140 | the selection after a save, kept on an edit and the new id after an add; `AddressStep.SaveKeepsSelectionValid` states that it names a listed address |

## Left out

- Network and backend: the product fetch is a `Types.Fetch` input, either the products or the message of the error thrown.
- localStorage and JSON: each slot is a `Snapshot` read at start-up. A write is modelled as its resulting slot content. Where the code catches a throwing write (the wishlist's save, log-in, sign-up and profile edits), the write's success is a parameter. The cart's unguarded save is assumed to succeed; see `CartContext.Cart.Save`. JSON text itself is not modelled.
- A `users` slot that fails to parse is left out: `AuthContext` models the slot as an account list.
- A `Partial<User>` key explicitly set to `undefined` is left out: an update names exactly the fields it changes.
- Router navigation, `window.scrollTo`, `confirm()` and toasts are left out. `confirm()` is a boolean parameter, and the URL is a key-to-string map.
- Percent-encoding of query strings (the WHATWG URL Standard's application/x-www-form-urlencoded serializer) is not modelled.
- `decodeURIComponent` of breadcrumb segments (components/layout/Breadcrumb.tsx:17) is not modelled: segments are taken as already decoded.
- `encodeURIComponent` of the name in the sign-up avatar URL (contexts/AuthContext.tsx:124) is a parameter.
- The simulated `setTimeout` waits (components/features/checkout/Checkout.tsx:70, components/features/checkout/Checkout.tsx:117, contexts/AuthContext.tsx:69-164) and the loading flags around them are left out. Each handler is one atomic transition.
- The clock is a parameter: `today`, `now`, the ISO `addedAt` and `createdAt` strings, and the ids built from `Date.now()`.
- `Math.random` is a parameter: draws are reals in [0, 1).
- DetailsPage's random discounted price (components/features/products/DetailsPage.tsx:97-103) and Discount's `toFixed` price (components/features/cart/Discount.tsx:120) are left out. They are floating point.
- The ten-minute rotation interval of the discount strip (components/features/cart/Discount.tsx:61-67) is left out.
- Discount.tsx's own cart and wishlist buttons (components/features/cart/Discount.tsx:73-109) are not modelled. They repeat DetailsPage's, without the id-0 guard.
- The "Product not found" view of the product page (components/features/products/DetailsPage.tsx:153-159) is left out.
- A click on a thumbnail (`setSelectedImage(img)`, components/features/products/DetailsPage.tsx:182 and :355) is not modelled. It makes that thumbnail the large picture. The model keeps no selected-picture state past the first one, `DetailsPage.InitialImage`.
- Scroll geometry is whole pixels. The browser's clamping of `scrollTo` is modelled by `Categories.Settle`; the smooth animation, resizes that move the strip and the DOM listener wiring are left out, so a scroll event is `Categories.Strip.HandleScroll` on the settled position.
- Case mapping is ASCII only: Unicode `toLowerCase`/`toUpperCase` are not modelled.
- The 'name' sort's `localeCompare` is modelled as code point order; locale collation is left out.
- The 'newest' sort's date parse is left out: `createdAt` is taken as the already-parsed time.
- JavaScript numbers are modelled as integers plus NaN. Fractional prices are whole cents, and `parseInt` of fractional or exponent text reads only the leading digits, as JavaScript does.
- Presentation-only markup (layout, icons, badges, cards) is not modelled.
- CartContext.Cart.Mount: uses the corrected `CartContext.Load`, so a cart slot holding JSON that is not an array mounts as the empty cart. The code stores that value as the cart (`CartContext.LoadAsWritten`, see "## Findings"), and the model does not carry such a cart into later renders.
- CartContext.Cart.Save: assumes `localStorage.setItem` succeeds. The save effect (contexts/CartContext.tsx:14-18) does not catch a throwing write, such as one over the storage quota. React then reports an uncaught error from the effect, and the model has no state for that. Every cart change that triggers the save inherits this: `CartContext.Cart.Mount`, `AddToCart`, `RemoveFromCart`, `UpdateQuantity` and `ClearCart`, and the page handlers that call them.
- AuthContext.Auth.Mount: a `user` slot holding JSON that parses but is not a user record (`5`, `[]`, `{}`) is modelled as `Corrupt` and signs nobody in. The code stores whatever `JSON.parse` returns as the user, and `isAuthenticated` (contexts/AuthContext.tsx:196) is then true.
- JsNumber.ParseIntToString: the round trip holds for every integer of the model. JavaScript's `String(n)` switches to exponent notation from 10^21 ("1e+21", which `parseInt` reads back as 1), and integers beyond 2^53 are not exact doubles; neither limit is modelled. ProductsPage.RoundTrip, ProductsPage.NumRoundTrip and ProductsPage.RoundTripPage inherit this.
- AddressStep.NameError: counts the name's length in Unicode scalar values. JavaScript's `length` counts UTF-16 code units, so "😀😀" (two scalars, four code units) passes in the code and fails in the model.
- AddressStep.FullAddressError: counts length in Unicode scalar values, not UTF-16 code units. Five emoji (ten code units) pass the 10-character minimum in the code and fail it in the model.
- PaymentForm.NameError: counts length in Unicode scalar values, not UTF-16 code units. Both reject "😀😀", but with different messages: the code passes the length rule and shows "Name can only contain letters", the model shows "Name must be at least 3 characters".
- PaymentForm.CardError: counts length in Unicode scalar values, not UTF-16 code units. Seven emoji are rejected by both, but the code shows "Card number must contain only digits" (fourteen code units) and the model "Card number must be at least 13 digits". Ten emoji give "Card number is too long" in the code only.
- PaymentForm.ExpiryError: counts length in Unicode scalar values, not UTF-16 code units. "😀1/2" is five code units, so the code passes the length rule and, with a NaN month and year 2, shows "Card has expired" in any year after 2002; the model shows "Format must be MM/YY". The expiry input handler (`formatExpDate`) rebuilds the text from digits, so typed input never reaches this.
- PaymentForm.CvvError: counts length in Unicode scalar values, not UTF-16 code units. "😀1" is three code units, so the code shows "CVV must contain only digits" and the model "CVV must be 3-4 digits". The CVV input handler keeps only digits, so typed input never reaches this.
- PaymentForm.CardInput: the 19-character cap counts Unicode scalar values, not UTF-16 code units. From ten emoji the code keeps nine and half of the tenth; the model keeps all ten.
- PaymentForm.FormatCardNumber: groups by Unicode scalar values, not UTF-16 code units, so the blocks of four differ from the code's when the input holds characters outside the Basic Multilingual Plane.
- Checkout.PaymentError: counts the card number and the CVV in Unicode scalar values, not UTF-16 code units. A card number of seven emoji is fourteen code units, so the code passes the length check and moves on to the expiry, while the model stops at "Please enter a valid card number". A CVV of two emoji is four code units, which the code accepts and the model rejects.
- ProductGrid.SortBySpec: states that the sorted page is in comparator order and is a permutation of the page. It does not state the stability of `Array.prototype.sort`, which the insertion-based model has but which is not proved.

## Findings

| source | as written | input that shows it | evidently intended | confidence | as-written member | corrected member |
|---|---|---|---|---|---|---|
| components/features/products/Pagination.tsx:38 | the page list is de-duplicated with a `Set`, which also merges the two "…" markers | page 6 of 10 shows 1, …, 4, 5, 6, 7, 8, 10 with no "…" before 10 | a "…" before the last page whenever the current page is more than two before it, as the third loop pushes | not executed | Pagination.TrailingEllipsisLost | Pagination.PageListPositions |
| components/features/products/Pagination.tsx:26-35 | the first and last loops push a "…" from `currentPage > 3` and while `currentPage < totalPages - 2`, so at page 4 a "…" stands between consecutive pages 1 and 2; three before the last the trailing "…" does the same only when the current page is at most 3 (at most six pages), since past page 3 the `Set` merges it into the leading one | page 4 of 10 shows 1, …, 2, 3, 4, 5, 6, 10 | a "…" only where at least one page is hidden | not executed | Pagination.LeadingEllipsisHidesNothing | Pagination.PageListTightSpec |
| components/features/products/ProductsPageX.tsx:231-234 | `slice((page - 1) * 9, page * 9)` on a page number read from the URL, which may be negative | `page=-1` with 20 products shows products 3 to 11 | a page outside 1..pages shows nothing | not executed | ProductsPage.NegativePageShowsProducts | ProductsPage.PageSliceSpec |
| contexts/CartContext.tsx:24-30 | the parsed cart slot is stored without checking that it is an array | a cart slot holding `{}` or `5` becomes the cart | a slot that is not an array yields an empty cart, as the wishlist does | not executed | CartContext.LoadAsWrittenAcceptsNonArray | CartContext.Load |
| components/features/products/FilterSheet.tsx:59-60 | "Clear all" calls the search and price handlers, each of which writes the URL from the same rendered query | query `search=ipad`, then "Clear all", leaves `search=ipad` in the URL | "Clear all" removes the search too | not executed | FilterSheet.SearchSurvivesClear | FilterSheet.IntendedClearDropsSearch |
| components/features/products/ProductsPageX.tsx:244-255 | "Clear all" navigates to the bare path and also changes the selections, whose URL effect rebuilds the query from the `searchParams` the page was rendered with | `?search=phone&minPrice=100&maxPrice=500`, then "Clear all": if the effect runs before the router has re-rendered, the query comes back as that search and range with `brands=Apple` | the query holds `brands=Apple` alone | not executed; depends on when the router re-renders | ProductsPage.ClearAllSyncFromOldQuery | ProductsPage.QueryPage.ClearAllAndSync |
