# TSM Crafts storefront: a verified model of the client-side core

This project models the browser side of a handmade-crafts storefront. The
storefront is a React single-page application backed by a hosted Postgres
store. The model covers these parts:

- **Cart and checkout.** The cart drawer keeps a badge count equal to the
  sum of the line quantities. Its deletes and updates reach only the
  signed-in user's rows of `cart_items`, and after each one the drawer
  still shows exactly that user's rows. Checkout prices the cart: a live-price
  subtotal, tiered shipping and 7% tax. It validates the form, snapshots the
  cart into order items, and runs the four-step placement: insert the
  order, insert its items, clear the cart, update the profile.
- **Order pages.** The confirmation page builds an order view with an
  estimated delivery day and a mock tracking number. The order-history
  page handles inquiry normalisation, badges, first-image lookup and
  paging.
- **Catalogue pages.** The two product pages filter by category, search
  text and price range. Their stable sorts are price up, price down,
  rating and name. The related-products strip is a relevance-ranked,
  limited carousel that wraps around.
- **Wishlist.** The wishlist page loads items, removes them, and adds a
  product to the cart. The heart button flips its flag only when the write
  succeeds.
- **Admin dashboard.** The admin can patch message and product statuses.
  New products get tags parsed from a comma-separated field.
- **Smaller components.** These are the review form's submission rules,
  the product card's hover, badge and star logic, the recommendation strip's
  set toggle and heading, and the gallery upload's guards, storage path and
  insert payload.

Each page's state is a Dafny `class`, and each event handler is a `method`
with a `modifies` frame. Store tables are fields of classes that the
handlers write: `Database.Store` holds the orders, order items, cart lines
and profiles that the checkout, the cart drawer and the wishlist share, and
the gallery, the wishlist and the admin dashboard have small `Store`,
`Table` and `Tables` classes for the tables only they touch. Computations that are pure in the
source are functions, and what they promise is stated as lemmas. Network
results, the clock and `Math.random` are parameters: each handler receives
whether each store call succeeds, the rows a query returns, and the ids and
timestamps the store or clock would produce.

Behaviour the model keeps as the code has it, even where the surrounding
text suggests otherwise:

- The order-confirmation query uses `.single()`, so a missing or foreign
  order is a query error. The page then shows "Failed to load order
  details". Its "Order not found" branch cannot be reached
  (`OrderConfirmation.MissingOrderReportsLoadFailure`).
- The order-history query never selects `status`, so every inquiry reads
  as "Pending" with the secondary badge
  (`Orders.LoadedInquiriesShowPending`).
- The wishlist load ignores the query's `error`, so a failed fetch shows an
  empty list.
- `addToCart` on the wishlist ignores the lookup's error. With two or more
  cart lines for the product, `maybeSingle` yields no data and a further
  line is inserted. There is no stock cap.
- The heart button is set only when exactly one wishlist row matches, again
  because of `maybeSingle`.
- The admin status updates never check the returned error. The local patch
  and the success toast follow every call that does not reject. Only a
  successful update reaches the table.
- The related-products filter ends in an unconditional `return true` that
  is reached only when there are no wanted tags or the product has none.
  A product is therefore excluded exactly when it is the current one, or
  when it does not share the category, there is at least one wanted tag,
  and none of its own tags is wanted (`RelatedProducts.ExcludedIff`). A
  product without tags is always included. On a refresh the current page
  is not reset.
- Neither product page uses the selected tags, and the product page also
  ignores the selected categories, in its filter
  (`Products.SelectionIsIgnored`).
- A checkout that fails after the order insert leaves the order and any
  items already written. Nothing is rolled back.
- A gallery upload whose row insert fails leaves the uploaded object in
  storage.

## Model

| member | source | states |
|---|---|---|
| Query.Embedded | src/components/ShoppingCart.tsx:69-72 | a joined product that comes back as an array is read as its first element, an object as itself |
| Query.Single | src/pages/OrderConfirmation.tsx:76-83 | `.single()` yields data exactly when one row matches and is an error otherwise |
| Query.MaybeSingle | src/components/WishlistButton.tsx:38-47 | `.maybeSingle()` yields data exactly when one row matches and is an error only for two or more rows |
| Query.SingleVersusMaybeSingle | src/pages/OrderConfirmation.tsx:76-87 | the two agree on data; they differ only in that `single` also fails on zero rows |
| ShoppingCart.Normalize | src/components/ShoppingCart.tsx:69-73 | every fetched row is kept, in order, with its product embedded |
| ShoppingCart.QuantityOf | src/components/ShoppingCart.tsx:115-116 | 0 when no line has that id |
| ShoppingCart.QuantityOfFirstMatch | src/components/ShoppingCart.tsx:115-116 | the quantity read is that of the first line with the id, as `find` returns |
| ShoppingCart.SetQuantity | src/components/ShoppingCart.tsx:107-111 | lines with that id get the new quantity and every other line is unchanged, with the length kept |
| ShoppingCart.RemoveLine | src/components/ShoppingCart.tsx:150 | the remaining lines are exactly those with another id |
| ShoppingCart.RemoveLineKeepsOrder | src/components/ShoppingCart.tsx:150 | the remaining lines keep their order |
| ShoppingCart.SumSetQuantity | src/components/ShoppingCart.tsx:114-118 | for a present line with distinct ids, the sum of quantities moves by the new minus the old quantity, which is how the badge count is adjusted |
| ShoppingCart.AbsentUpdateDrifts | src/components/ShoppingCart.tsx:114-118 | for an absent id the badge adjustment adds the new quantity although no line changed |
| ShoppingCart.SumRemoveLine | src/components/ShoppingCart.tsx:147-151 | removing a line lowers the sum of quantities by exactly its quantity |
| ShoppingCart.RemoveLineDistinct | src/components/ShoppingCart.tsx:150 | removal keeps line ids distinct |
| ShoppingCart.SetQuantityDistinct | src/components/ShoppingCart.tsx:107-111 | a quantity update keeps line ids distinct |
| ShoppingCart.PlusKeepsWithinStock | src/components/ShoppingCart.tsx:281-282 | pressing an enabled "+" keeps every line within its product's stock |
| ShoppingCart.SumAppend | src/components/ShoppingCart.tsx:75 | the badge count, the sum of quantities, is additive over concatenated carts |
| ShoppingCart.SubtotalAppend | src/components/ShoppingCart.tsx:209-213 | the cart total is additive over concatenated carts |
| ShoppingCart.Subtotal | src/components/ShoppingCart.tsx:209-213 | `calculateTotal`: the sum of live price times quantity |
| ShoppingCart.SubtotalNonNegative | src/components/ShoppingCart.tsx:209-213 | non-negative prices and quantities give a non-negative total |
| ShoppingCart.Cart.SignOut | src/components/ShoppingCart.tsx:40-47 | without a user the drawer holds no lines and a zero count |
| ShoppingCart.Cart.constructor | src/components/ShoppingCart.tsx:31-34 | an empty cart with a zero count, so count and sum agree |
| ShoppingCart.Cart.Load | src/components/ShoppingCart.tsx:49-86 | a successful load replaces the lines with the normalised rows and sets the count to their quantity sum, and when the rows are the user's rows of `cart_items` the drawer mirrors the table; a failure changes nothing |
| ShoppingCart.Cart.Remove | src/components/ShoppingCart.tsx:133-169 | a successful delete removes the user's row with that id from `cart_items`, drops the line and lowers the count by its quantity, keeping count and sum equal and the drawer in step with the table; a failure writes nothing |
| ShoppingCart.Cart.UpdateQuantity | src/components/ShoppingCart.tsx:88-131 | zero or less is a removal; a positive quantity is written to the user's row with that id, patches the line and moves the count by new minus old, keeping the drawer in step with the table; a failure writes nothing |
| ShoppingCart.Cart.Clear | src/components/ShoppingCart.tsx:171-202 | with a user and a non-empty drawer, a successful clear deletes every row of the user from `cart_items` and empties the lines and the count; otherwise nothing changes |
| ShoppingCart.SumQuantities | src/components/ShoppingCart.tsx:75 | the recount the badge must equal; `ShoppingCart.Cart.Valid` keeps the count equal to it and `SumAppend`, `SumRemoveLine` and `SumSetQuantity` state how it moves |
| ShoppingCart.Cart.Total | src/components/ShoppingCart.tsx:209-213 | `calculateTotal` over the drawer's lines; its properties are those of `ShoppingCart.Subtotal` |
| ShoppingCart.PlusEnabled | src/components/ShoppingCart.tsx:282 | "+" is enabled only when not loading and below the product's stock; `PlusKeepsWithinStock` states what that guarantees |
| ShoppingCart.Stored | src/components/ShoppingCart.tsx:54-64 | one `cart_items` row per drawer line, in order |
| ShoppingCart.StoredAt | src/components/ShoppingCart.tsx:54-64 | line i's row carries its id, user, product and quantity |
| ShoppingCart.Columns | src/components/ShoppingCart.tsx:56-62 | one `cart_items` row per row the query returns |
| ShoppingCart.NormalizeKeepsColumns | src/components/ShoppingCart.tsx:69-73 | the normalisation changes only the embedded product: the stored columns come through as returned |
| ShoppingCart.MirroredLinesAreOwn | src/components/ShoppingCart.tsx:54-64 | a drawer that mirrors the table shows only the signed-in user's lines |
| ShoppingCart.StoredRemoveLine | src/components/ShoppingCart.tsx:139-150 | the local filter removes from the user's lines what the delete removes from the table |
| ShoppingCart.StoredSetQuantity | src/components/ShoppingCart.tsx:99-111 | the local map changes the user's lines as the update changes the table |
| ShoppingCart.RemoveKeepsMirror | src/components/ShoppingCart.tsx:139-150 | after a successful delete the drawer still shows exactly the user's rows of the table |
| ShoppingCart.UpdateKeepsMirror | src/components/ShoppingCart.tsx:99-111 | after a successful update the drawer still shows exactly the user's rows of the table |
| ShoppingCart.ClearKeepsMirror | src/components/ShoppingCart.tsx:177-185 | after the user's rows are deleted the empty drawer mirrors the table |
| Checkout.ShippingCost | src/pages/Checkout.tsx:145-156 | express costs 15.99, priority 9.99, and any other method 4.99 unless the subtotal exceeds 50 |
| Checkout.Tax | src/pages/Checkout.tsx:158-160 | 7% of the subtotal |
| Checkout.Total | src/pages/Checkout.tsx:162-164 | subtotal, shipping and tax; for a non-negative subtotal never below the subtotal plus tax |
| Checkout.ShippingAddress | src/pages/Checkout.tsx:205 | address, city, state and postal code, and country, in the stored format |
| Checkout.RecipientName | src/pages/Checkout.tsx:211 | first and last name separated by a space |
| Checkout.StandardShippingBoundary | src/pages/Checkout.tsx:153-154 | the free-shipping threshold is strict: 50 pays, 50.01 ships free |
| Checkout.StandardShippingMonotone | src/pages/Checkout.tsx:153-154 | the standard fee never grows with the subtotal |
| Checkout.ScenarioTotal | src/pages/Checkout.tsx:139-164 | a worked cart of 6200 ships free and totals 6634 with tax |
| Checkout.EmptyAmongIsFilter | src/pages/Checkout.tsx:174 | the missing-field computation is the `filter` on emptiness |
| Checkout.MissingInListedOrder | src/pages/Checkout.tsx:170-174 | a field is reported missing exactly when its value is empty, and the report keeps the listed order |
| Checkout.NoMissingFields | src/pages/Checkout.tsx:170-183 | no field is missing exactly when all nine required fields are non-empty |
| Checkout.OnlyAddressMissing | src/pages/Checkout.tsx:170-180 | an empty address alone is reported as `["address"]` |
| Checkout.OrderItems | src/pages/Checkout.tsx:219-224 | one order item per cart line, in order, with the product id, the quantity and the live price |
| Checkout.SnapshotMatchesSubtotal | src/pages/Checkout.tsx:139-143 | the order items' price-times-quantity sum equals the cart subtotal |
| Checkout.StoredTotalFromItems | src/pages/Checkout.tsx:199-214 | the stored total is the snapshot sum plus its shipping and tax |
| Checkout.UpdateProfile | src/pages/Checkout.tsx:241-253 | the profile update replaces only the user's existing profile and never adds one |
| Checkout.Prefill | src/pages/Checkout.tsx:115-128 | the prefill copies first and last name, phone, address, city, state and postal code from the profile, takes the email from the account, defaults the country to "United States" and leaves the card fields and notes alone |
| Checkout.Validate | src/pages/Checkout.tsx:166-193 | the checks run in order: signed in, then required fields, then card fields for credit card; each outcome holds exactly when its condition does |
| Checkout.Page.constructor | src/pages/Checkout.tsx:16-38 | the initial form, "credit_card" payment and "standard" shipping |
| Checkout.Page.LoadCart | src/pages/Checkout.tsx:60-101 | a non-empty successful load sets the lines; an empty one asks to leave; a failure keeps the page |
| Checkout.Page.SubmitOrder | src/pages/Checkout.tsx:166-272 | every write happens only after the previous one succeeded, nothing is undone, the outcome names the failed step, and each table's final state is given |
| Checkout.MissingFields | src/pages/Checkout.tsx:174 | `missingFields` as form keys; `MissingInListedOrder`, `NoMissingFields` and `OnlyAddressMissing` state its meaning |
| Checkout.PaymentIncomplete | src/pages/Checkout.tsx:185-194 | credit card with any of the four card fields empty; PayPal is never incomplete (used by `Checkout.Validate`) |
| Checkout.ItemsTotal | src/pages/Checkout.tsx:219-224 | the price-times-quantity sum of order items; `SnapshotMatchesSubtotal` ties it to the cart |
| Checkout.NewOrder | src/pages/Checkout.tsx:199-214 | the header is the buyer's, "pending", with the chosen shipping and payment methods and the total the summary showed |
| Checkout.ProfileFromForm | src/pages/Checkout.tsx:241-253 | the eight profile columns saved from the form; `ProfileRoundTrip` states what a later prefill gets back |
| Checkout.ProfileRoundTrip | src/pages/Checkout.tsx:241-253 | saving the form and prefilling from the saved profile gives back name, phone and address, with a blank country read as "United States" |
| Checkout.OrphanedOrderScenario | src/pages/Checkout.tsx:216-229 | when the item insert fails the pending order header stays, no item is written and the cart row is kept |
| Database.OfUser | src/components/ShoppingCart.tsx:54-64 | the rows the cart query selects for the user, in table order, never more than the table holds |
| Database.OfUserMembers | src/components/ShoppingCart.tsx:64 | exactly the rows of that user |
| Database.WithoutUser | src/pages/Checkout.tsx:233-236 | the cart delete leaves exactly the other users' rows |
| Database.WithoutUserLeavesNone | src/components/ShoppingCart.tsx:177-179 | after the clear the user has no row left |
| Database.WithoutUserSparesOthers | src/components/ShoppingCart.tsx:177-179 | every other user's rows are as they were |
| Database.DeleteLine | src/components/ShoppingCart.tsx:139-142 | the delete never adds rows |
| Database.DeleteLineMembers | src/components/ShoppingCart.tsx:139-142 | the rows left are exactly those that do not have both that id and that user |
| Database.DeleteLineSparesOthers | src/components/ShoppingCart.tsx:139-142 | every other user's rows are as they were |
| Database.OfUserDeleteLine | src/components/ShoppingCart.tsx:139-142 | the user's rows after the delete are their rows before it without that id |
| Database.WithQuantity | src/components/ShoppingCart.tsx:99-102 | the update keeps the number of rows |
| Database.WithQuantityAt | src/components/ShoppingCart.tsx:99-102 | a row gets the new quantity exactly when it has that id and user; every other row is unchanged |
| Database.WithQuantitySparesOthers | src/components/ShoppingCart.tsx:99-102 | every other user's rows are as they were |
| Database.OfUserWithQuantity | src/components/ShoppingCart.tsx:99-102 | the user's rows after the update are their rows before it with the update applied |
| OrderConfirmation.DeliveryDays | src/pages/OrderConfirmation.tsx:106-112 | express 2, priority 4, anything else 7 days |
| OrderConfirmation.EstimatedDelivery | src/pages/OrderConfirmation.tsx:104-115 | the estimate lies two to seven days after the order day |
| OrderConfirmation.FasterShippingArrivesSooner | src/pages/OrderConfirmation.tsx:106-115 | express beats priority, which beats any other method, and every estimate lies after the placement day |
| OrderConfirmation.EstimateMatchesAdvertisedWindow | src/pages/OrderConfirmation.tsx:106-148 | each estimate is the upper end of the window its label advertises |
| OrderConfirmation.TrackingNumber | src/pages/OrderConfirmation.tsx:118 | "TSM" and seven digits that parse back to the draw |
| OrderConfirmation.PaddedDraw | src/pages/OrderConfirmation.tsx:118 | a draw below 10^7 padded to seven places is seven digits that parse back to it |
| OrderConfirmation.TrackingNumberInjective | src/pages/OrderConfirmation.tsx:118 | different draws give different tracking numbers |
| OrderConfirmation.TrackingDisplay | src/pages/OrderConfirmation.tsx:249 | a non-empty tracking number is shown as is |
| OrderConfirmation.FormatShippingMethod | src/pages/OrderConfirmation.tsx:139-149 | express and priority get their own labels with their day windows; any other method reads as standard shipping |
| OrderConfirmation.FormatPaymentMethod | src/pages/OrderConfirmation.tsx:151-159 | "PayPal" exactly for "paypal", "Credit Card" otherwise |
| OrderConfirmation.CapitalizeStatus | src/pages/OrderConfirmation.tsx:201 | the first character is upper-cased and the rest kept |
| OrderConfirmation.CapitalizeIdempotent | src/pages/OrderConfirmation.tsx:201 | capitalising twice equals capitalising once |
| OrderConfirmation.PendingShownCapitalized | src/pages/OrderConfirmation.tsx:201 | a new order's status "pending" shows as "Pending" |
| OrderConfirmation.OrdersMatching | src/pages/OrderConfirmation.tsx:76-80 | exactly the orders with that id and that user |
| OrderConfirmation.ItemsOf | src/pages/OrderConfirmation.tsx:90-100 | every item belongs to the requested order, and every row of the order gives its item |
| OrderConfirmation.ItemsOfRows | src/pages/OrderConfirmation.tsx:90-100 | one item per row of the order, in table order, each built from its row with the product embedded, and no others |
| OrderConfirmation.LineTotal | src/pages/OrderConfirmation.tsx:304 | quantity times unit price |
| OrderConfirmation.LoadResult | src/pages/OrderConfirmation.tsx:68-130 | the load succeeds exactly when one order matches and the items load, showing that order, its items and the drawn tracking number; every failure, including a missing order, ends with "Failed to load order details" |
| OrderConfirmation.LoadedOrderIsOwn | src/pages/OrderConfirmation.tsx:68-130 | a loaded order is the requested one, it belongs to the user, it has only its own items, and it carries the derived delivery day and tracking number |
| OrderConfirmation.MissingOrderReportsLoadFailure | src/pages/OrderConfirmation.tsx:76-87 | without a matching order the page reports a load failure, not "Order not found" |
| OrderConfirmation.ErrorHeadline | src/pages/OrderConfirmation.tsx:172 | a non-empty error is its own headline; no error or an empty one shows "Order not found" |
| OrderConfirmation.Page.Fetch | src/pages/OrderConfirmation.tsx:68-137 | without a user or an id nothing happens; otherwise loading ends with the order shown or the error set |
| OrderConfirmation.Page.constructor | src/pages/OrderConfirmation.tsx:43-45 | no order, loading, no error |
| Orders.Normalize | src/pages/Orders.tsx:80-90 | one inquiry per row, in order |
| Orders.DisplayStatus | src/pages/Orders.tsx:206-207 | a missing status reads "Pending" |
| Orders.StatusBadge | src/pages/Orders.tsx:127-136 | each badge variant holds exactly for its statuses |
| Orders.LoadedInquiriesShowPending | src/pages/Orders.tsx:69-90 | every loaded inquiry shows "Pending" with the secondary badge |
| Orders.CurrentOrders | src/pages/Orders.tsx:121-124 | page p holds at most five inquiries, the slice from (p-1)*5 |
| Orders.PagesListEveryOrder | src/pages/Orders.tsx:121-125 | pages 1 to the page count list every inquiry once, in order, and none is empty |
| Orders.PrevPage | src/pages/Orders.tsx:248 | "previous" never goes below page 1 |
| Orders.NextPage | src/pages/Orders.tsx:266 | "next" never passes the page count |
| Orders.Dedupe | src/pages/Orders.tsx:95 | the same ids as the input |
| Orders.DedupeDistinct | src/pages/Orders.tsx:95 | the deduplicated ids are distinct |
| Orders.DedupeFirstSeenOrder | src/pages/Orders.tsx:95 | they come in the order of first occurrence |
| Orders.PresentIds | src/pages/Orders.tsx:95 | exactly the ids that are present and non-empty |
| Orders.ProductIds | src/pages/Orders.tsx:95 | exactly the non-empty product ids of the loaded inquiries |
| Orders.ImageMapFirstImage | src/pages/Orders.tsx:103-106 | the image map holds every product with an image row, mapped to its first non-empty url |
| Orders.BuildImageMap | src/pages/Orders.tsx:103-107 | the loop builds that map |
| Orders.ImageFor | src/pages/Orders.tsx:215 | the mapped image when there is one, the placeholder otherwise, never empty |
| Orders.Page.Load | src/pages/Orders.tsx:64-119 | a successful load sets the normalised inquiries and, for any product ids, the image map; a failure changes nothing |
| Orders.Page.constructor | src/pages/Orders.tsx:36-41 | no inquiries, page 1, an empty image map, loading |
| Orders.Page.Current | src/pages/Orders.tsx:121-124 | the shown page holds at most five inquiries |
| Orders.Page.Prev | src/pages/Orders.tsx:248 | the page moves back one, or stays at 1 |
| Orders.Page.Next | src/pages/Orders.tsx:266 | the page moves on one and stays within the page count |
| Orders.Page.GoTo | src/pages/Orders.tsx:257 | a numbered link shows a non-empty page |
| Orders.NormalizeRow | src/pages/Orders.tsx:80-90 | id, date and quantity are kept; `status` is not selected, so it is always absent; a missing product leaves no id or name (price as under "Left out") |
| Orders.TotalPages | src/pages/Orders.tsx:125 | no pages exactly when there are no inquiries; the pages hold every inquiry and the last one is not empty |
| Orders.EarlierPagesAreFull | src/pages/Orders.tsx:121-125 | every page but the last shows five inquiries |
| Orders.Page.ControlsShown | src/pages/Orders.tsx:243 | the pagination appears only with more than one page |
| Catalogue.FilterProducts | src/pages/CategoryProducts.tsx:132-144 | a product is kept exactly when it matches category, search and price |
| Catalogue.SearchIff | src/pages/CategoryProducts.tsx:137-138 | the search test holds exactly when the lower-cased query occurs in the lower-cased name or description |
| Catalogue.EmptyQueryMatchesAll | src/pages/CategoryProducts.tsx:137-138 | an empty query excludes nothing |
| Catalogue.LeTotal | src/pages/CategoryProducts.tsx:147-159 | each comparator orders every pair |
| Catalogue.LeTrans | src/pages/CategoryProducts.tsx:147-159 | each comparator is transitive |
| Catalogue.SortSorted | src/pages/CategoryProducts.tsx:147-159 | the sort yields a sorted list |
| Catalogue.Sort | src/pages/CategoryProducts.tsx:147-159 | the sort is a permutation |
| Catalogue.OrderFor | src/pages/CategoryProducts.tsx:147-162 | each menu value selects its comparator; any other value keeps the order |
| Catalogue.ListingSpec | src/pages/CategoryProducts.tsx:130-166 | the listing holds exactly the matching products, sorted by the chosen key, or in catalogue order for "featured" |
| Catalogue.Listing | src/pages/CategoryProducts.tsx:130-166 | the effect: filter, then arrange by the sort key (properties in `Catalogue.ListingSpec`) |
| Catalogue.InsertSorted | src/pages/CategoryProducts.tsx:147-159 | inserting into a sorted list keeps it sorted |
| Catalogue.ClearedListing | src/pages/CategoryProducts.tsx:130-181 | with the cleared filters and every price in range, the listing keeps catalogue order and holds exactly the category's products |
| Catalogue.FilterKeepsOrder | src/pages/CategoryProducts.tsx:132-144 | filtering keeps the catalogue's relative order |
| Catalogue.DefaultFiltersKeepCategory | src/pages/CategoryProducts.tsx:28-31 | with the initial filters every product of the category is listed |
| Catalogue.DefaultFiltersKeepAll | src/pages/Products.tsx:24-28 | without a category, the initial filters list the whole in-range catalogue in order |
| Catalogue.Matches | src/pages/CategoryProducts.tsx:132-144 | category, search and price all match; `FilterProducts` keeps exactly these products |
| Catalogue.Arrange | src/pages/CategoryProducts.tsx:147-162 | the sort switch; `ListingSpec` states the order it gives |
| CategoryProducts.CategoryTitle | src/pages/CategoryProducts.tsx:183-186 | "All Products" without a category, else the display name, else the raw parameter |
| CategoryProducts.CategoryDescription | src/pages/CategoryProducts.tsx:188-191 | the generic text without a category, else its description, else "" |
| CategoryProducts.MocksAreDescribed | src/pages/CategoryProducts.tsx:35-51 | every mock product's category has a display name and a description |
| CategoryProducts.MocksInDefaultRange | src/pages/CategoryProducts.tsx:35-51 | every mock price lies in the initial price range |
| CategoryProducts.Page.constructor | src/pages/CategoryProducts.tsx:25-31 | the initial filters, with the listing computed from them |
| CategoryProducts.Page.Refresh | src/pages/CategoryProducts.tsx:130-166 | the effect recomputes the listing from the current filters |
| CategoryProducts.Page.ToggleTag | src/pages/CategoryProducts.tsx:168-174 | the tag is toggled and the listing is unchanged |
| CategoryProducts.Page.SetQuery | src/pages/CategoryProducts.tsx:225 | the query is set and the listing follows it |
| CategoryProducts.Page.SetPriceRange | src/pages/CategoryProducts.tsx:303 | the range is set and the listing follows it |
| CategoryProducts.Page.SetSort | src/pages/CategoryProducts.tsx:256 | the sort key is set and the listing follows it |
| CategoryProducts.Page.ClearFilters | src/pages/CategoryProducts.tsx:176-181 | every filter returns to its initial value and the listing follows |
| CategoryProducts.Page.ShowClearFilters | src/pages/CategoryProducts.tsx:243 | the clear button shows when a tag is selected |
| CategoryProducts.ClearedListsCategoryInOrder | src/pages/CategoryProducts.tsx:130-181 | after clearing, the page lists exactly the category's products in catalogue order |
| Products.Page.constructor | src/pages/Products.tsx:22-59 | the initial filters, with the listing computed from them |
| Products.Page.Refresh | src/pages/Products.tsx:61-91 | the effect recomputes the listing from search, price and sort |
| Products.Page.ToggleCategory | src/pages/Products.tsx:93-99 | the category is toggled and the listing is unchanged |
| Products.Page.ToggleTag | src/pages/Products.tsx:101-107 | the tag is toggled and the listing is unchanged |
| Products.Page.SetQuery | src/pages/Products.tsx:61-91 | the query is set and the listing follows it |
| Products.Page.SetPriceRange | src/pages/Products.tsx:61-91 | the range is set and the listing follows it |
| Products.Page.SetSort | src/pages/Products.tsx:61-91 | the sort key is set and the listing follows it |
| Products.Page.ClearFilters | src/pages/Products.tsx:109-115 | every filter returns to its initial value and the listing follows |
| Products.Page.ShowClearFilters | src/pages/Products.tsx:163 | the clear button shows when a category or tag is selected |
| Products.SelectionIsIgnored | src/pages/Products.tsx:63-69 | the listing depends on search and price only, not on the selected categories or tags |
| Products.DefaultsShowEverything | src/pages/Products.tsx:45-59 | initially the whole mock catalogue is listed |
| Seqs.ToggleMembership | src/pages/Products.tsx:101-107 | toggling flips the membership of its element and of nothing else |
| Seqs.ToggleTwice | src/pages/Products.tsx:101-107 | toggling twice restores membership, and the list when the element was absent |
| Seqs.Toggle | src/pages/Products.tsx:93-99 | the two branches of the toggle; what they mean for membership is stated by `Seqs.ToggleMembership` and `Seqs.ToggleTwice` |
| RelatedProducts.ExcludedIff | src/components/RelatedProducts.tsx:115-128 | a product is left out exactly when it is the current one, or when it does not share the category, some tags are wanted, it has tags and none of them is wanted |
| RelatedProducts.RelatedAmong | src/components/RelatedProducts.tsx:115-128 | exactly the related products are kept |
| RelatedProducts.IsRelated | src/components/RelatedProducts.tsx:115-128 | the filter's callback (its exclusion condition in `RelatedProducts.ExcludedIff`) |
| RelatedProducts.Take | src/components/RelatedProducts.tsx:139 | a prefix of the length `slice(0, limit)` gives, counting a negative limit from the end |
| RelatedProducts.RelatedSpec | src/components/RelatedProducts.tsx:112-140 | the strip holds related products other than the current one, at most `limit` of them, by falling tag relevance, and all of them when there are few enough |
| RelatedProducts.Related | src/components/RelatedProducts.tsx:112-140 | filter, relevance sort, cut to `limit` (properties in `RelatedProducts.RelatedSpec`) |
| RelatedProducts.DefaultLimitOnePage | src/components/RelatedProducts.tsx:139-163 | with the default `limit` of 4 (line 30) the strip holds at most four products on at most one page, so the arrows never show |
| RelatedProducts.KeptAreMostRelevant | src/components/RelatedProducts.tsx:130-139 | no dropped product has more matching tags than a kept one |
| RelatedProducts.NextIndex | src/components/RelatedProducts.tsx:148-150 | "next" moves on one and wraps from the last page to the first |
| RelatedProducts.PrevIndex | src/components/RelatedProducts.tsx:152-154 | "previous" moves back one and wraps from the first page to the last |
| RelatedProducts.NextPrevInverse | src/components/RelatedProducts.tsx:148-154 | "previous" undoes "next" and vice versa |
| RelatedProducts.AdvanceCycles | src/components/RelatedProducts.tsx:148-150 | pressing "next" once per page returns to the first page |
| RelatedProducts.Strip.TotalPages | src/components/RelatedProducts.tsx:142 | the page count is 0 exactly for an empty strip |
| RelatedProducts.Strip.constructor | src/components/RelatedProducts.tsx:32-33 | no related products yet, page 0 |
| RelatedProducts.Strip.CurrentProducts | src/components/RelatedProducts.tsx:143-146 | at most four products, and some whenever the page is in range |
| RelatedProducts.Strip.Refresh | src/components/RelatedProducts.tsx:112-140 | the strip is recomputed and the current page is kept |
| RelatedProducts.Strip.Next | src/components/RelatedProducts.tsx:148-150 | the page advances with wrap-around and stays in range |
| RelatedProducts.Strip.Prev | src/components/RelatedProducts.tsx:152-154 | the page goes back with wrap-around and stays in range |
| RelatedProducts.Strip.RendersNothing | src/components/RelatedProducts.tsx:157 | the strip renders nothing exactly when there are no related products |
| RelatedProducts.Strip.ShowsControls | src/components/RelatedProducts.tsx:163 | the arrows appear only with more than one page |
| Wishlist.WithoutEntry | src/pages/Wishlist.tsx:81-84 | the delete leaves exactly the rows with another id |
| Wishlist.Normalize | src/pages/Wishlist.tsx:62-66 | null data gives no items; otherwise one item per row with its product embedded |
| Wishlist.WithoutItem | src/pages/Wishlist.tsx:88 | the remaining items are exactly those with another id |
| Wishlist.WithoutItemKeepsOrder | src/pages/Wishlist.tsx:88 | removal keeps the remaining items in order |
| Wishlist.ImageOf | src/pages/Wishlist.tsx:207 | a non-empty image url is shown, otherwise the placeholder |
| Wishlist.CartButton | src/pages/Wishlist.tsx:245-248 | the button is disabled and reads "Out of Stock" exactly when stock is below 1 |
| Wishlist.LinesOf | src/pages/Wishlist.tsx:116-121 | exactly the user's lines for the product |
| Wishlist.Bump | src/pages/Wishlist.tsx:125-128 | the line with that id gets quantity + 1 and every other line is unchanged |
| Wishlist.BumpQuantity | src/pages/Wishlist.tsx:123-128 | bumping one line raises the product's total quantity by one |
| Wishlist.AddToCartAddsOne | src/pages/Wishlist.tsx:114-142 | a successful add raises the user's quantity of that product by exactly one and changes no other pair |
| Wishlist.ExistingLineIsBumped | src/pages/Wishlist.tsx:123-130 | with one existing line, only that line changes, to quantity + 1 |
| Wishlist.NoLineIsInserted | src/pages/Wishlist.tsx:131-141 | with no line, one line of quantity 1 is appended |
| Wishlist.AddToCartKeepsIdsDistinct | src/pages/Wishlist.tsx:114-142 | a fresh line id keeps cart ids distinct |
| Wishlist.AfterAddToCart | src/pages/Wishlist.tsx:114-142 | the cart after a successful add (properties in `Wishlist.AddToCartAddsOne`) |
| Wishlist.Page.Load | src/pages/Wishlist.tsx:33-76 | with a user the items become the normalised data, errors ignored; loading ends |
| Wishlist.Page.constructor | src/pages/Wishlist.tsx:26-27 | no items, loading |
| Wishlist.Page.Remove | src/pages/Wishlist.tsx:79-101 | on success both the table row and the item go; on failure nothing changes |
| Wishlist.Page.AddToCart | src/pages/Wishlist.tsx:103-154 | without a user nothing is written; otherwise, on success, the cart is the add's result; no other table changes |
| WishlistButton.EntriesOf | src/components/WishlistButton.tsx:38-45 | exactly the user's rows for the product |
| WishlistButton.WithoutEntries | src/components/WishlistButton.tsx:68-73 | exactly the other rows survive the delete |
| WishlistButton.IsListed | src/components/WishlistButton.tsx:36-47 | the flag is set exactly when one row matches |
| WishlistButton.AriaLabel | src/components/WishlistButton.tsx:133 | the accessible label follows the flag |
| WishlistButton.Caption | src/components/WishlistButton.tsx:149 | the button text follows the flag |
| WishlistButton.DeleteLeavesNone | src/components/WishlistButton.tsx:66-76 | after the delete no row for the pair is left, and every other pair's rows are unchanged |
| WishlistButton.DeleteKeepsOthers | src/components/WishlistButton.tsx:68-73 | the delete leaves every other pair's rows as they were |
| WishlistButton.InsertAddsOne | src/components/WishlistButton.tsx:82-92 | the insert adds one row for the pair and none for any other |
| WishlistButton.AddThenRemove | src/components/WishlistButton.tsx:53-107 | removing after adding takes the product back off |
| WishlistButton.Button.CheckStatus | src/components/WishlistButton.tsx:30-51 | with a user the flag is whether exactly one row matches |
| WishlistButton.Button.constructor | src/components/WishlistButton.tsx:23-24 | the flag starts from the initial prop and nothing is loading |
| WishlistButton.Button.Toggle | src/components/WishlistButton.tsx:53-107 | the flag and the table change only on a successful write, in the direction of the flag, and stay in step |
| WishlistButton.CheckPutsInStep | src/components/WishlistButton.tsx:36-47 | with at most one row, the status check matches the table |
| WishlistButton.ToggleKeepsInStep | src/components/WishlistButton.tsx:66-92 | a successful toggle leaves exactly zero or one row, matching the new flag |
| Admin.ParseTagsSpec | src/pages/Admin.tsx:92 | an empty field gives no tags; otherwise one trimmed, comma-free tag per comma-separated piece |
| Admin.ProductData | src/pages/Admin.tsx:88-93 | the payload copies the form, parses the tags and takes the parsed price and stock |
| Admin.Patch | src/pages/Admin.tsx:69-71 | elements that match get the patch, the rest are unchanged, and length and order are kept |
| Admin.PatchMessages | src/pages/Admin.tsx:69-71 | the patch of messages whose id matches to the new status |
| Admin.PatchProducts | src/pages/Admin.tsx:134-136 | the same patch on products |
| Admin.PatchMessagesSpec | src/pages/Admin.tsx:69-71 | ids and order are kept, the last patch wins, and patching is idempotent |
| Admin.PatchProductsSpec | src/pages/Admin.tsx:134-136 | ids are kept and the last patch wins |
| Admin.PatchAbsentId | src/pages/Admin.tsx:69-71 | an absent id changes nothing |
| Admin.MessageBadge | src/pages/Admin.tsx:218-220 | "New" is destructive, "In Progress" default, and anything else secondary |
| Admin.ProductBadge | src/pages/Admin.tsx:278 | default exactly for "In Stock" |
| Admin.Dashboard.constructor | src/pages/Admin.tsx:18-34 | empty lists, the empty form, loading |
| Admin.Dashboard.Load | src/pages/Admin.tsx:40-60 | each list is replaced only when its query returned data; loading ends |
| Admin.Dashboard.UpdateMessageStatus | src/pages/Admin.tsx:62-84 | unless the call rejects, the local patch and the success toast follow; only success reaches the table |
| Admin.Dashboard.UpdateProductStatus | src/pages/Admin.tsx:127-149 | the same for products |
| Admin.Dashboard.AddProduct | src/pages/Admin.tsx:86-125 | on success the payload is appended and the form reset; otherwise nothing changes |
| Admin.ParseTags | src/pages/Admin.tsx:92 | split on commas and trim each piece; `ParseTagsSpec` states the result |
| ProductReviews.InitialRating | src/components/ProductReviews.tsx:35 | the own review's non-zero rating, else 5 |
| ProductReviews.InitialText | src/components/ProductReviews.tsx:36 | the own review's text, else "" |
| ProductReviews.Decide | src/components/ProductReviews.tsx:45-74 | sign-in first, then at least 10 trimmed characters, then the update callback for an own review, else the add callback; the text is passed untrimmed |
| ProductReviews.Form.constructor | src/components/ProductReviews.tsx:35-38 | the initial rating and text, not submitting, form closed |
| ProductReviews.Form.SetRating | src/components/ProductReviews.tsx:41-43 | only the rating changes |
| ProductReviews.Form.SetText | src/components/ProductReviews.tsx:143 | only the text changes |
| ProductReviews.Form.SetFormShown | src/components/ProductReviews.tsx:94-152 | only the form's visibility changes |
| ProductReviews.Form.Submit | src/components/ProductReviews.tsx:45-86 | a refusal calls nothing; the form closes only when the callback resolves; each path gets its toast |
| ProductReviews.StarsAgree | src/components/ProductReviews.tsx:123-131 | list star i matches form star i+1, and a listed review shows its rating clamped to 0..5 |
| ProductReviews.FormTitle | src/components/ProductReviews.tsx:106 | "Edit Your Review" for an own review, else "Write a Review" |
| ProductReviews.EmptyState | src/components/ProductReviews.tsx:88-94 | the bare empty state shows with no reviews, no user and the form closed |
| ProductCard.StockBadge | src/components/ProductCard.tsx:38-49 | "Low Stock" secondary, "Out of Stock" destructive, anything else default |
| ProductCard.DisplayedImage | src/components/ProductCard.tsx:73 | a present non-empty image, else the placeholder; never empty |
| ProductCard.FilledStars | src/components/ProductCard.tsx:122-131 | the filled stars are the rating's ceiling, clamped to 0..5 |
| ProductCard.Card.Hover | src/components/ProductCard.tsx:51-56 | only a card with a second image switches to it |
| ProductCard.Card.Leave | src/components/ProductCard.tsx:58-61 | back to the first image, not hovered |
| ProductCard.Card.constructor | src/components/ProductCard.tsx:35-36 | the first image, not hovered |
| ProductCard.ShownIsAnImage | src/components/ProductCard.tsx:51-73 | the index always points into the list or is 0, so one of the images or the placeholder is shown |
| ProductCard.InquireDisabled | src/components/ProductCard.tsx:150 | the inquire button is disabled exactly for "Out of Stock" |
| ProductCard.RatingOf | src/components/ProductCard.tsx:29 | an absent rating reads as 0 |
| ProductCard.RatingShown | src/components/ProductCard.tsx:122 | the stars appear only for a positive rating |
| RecommendedProducts.Toggled | src/components/RecommendedProducts.tsx:76-86 | the id's membership flips and every other id's is kept |
| RecommendedProducts.ToggleTwice | src/components/RecommendedProducts.tsx:76-86 | toggling twice gives back the original set |
| RecommendedProducts.TogglesCommute | src/components/RecommendedProducts.tsx:76-86 | toggles of two ids do not interfere |
| RecommendedProducts.Section.ToggleWishlist | src/components/RecommendedProducts.tsx:76-86 | the set is replaced by its toggled copy |
| RecommendedProducts.Section.constructor | src/components/RecommendedProducts.tsx:25 | nothing wishlisted |
| RecommendedProducts.SectionTitle | src/components/RecommendedProducts.tsx:93-95 | a signed-in user with a name gets the greeting ending in the name; otherwise "Featured Products" |
| RecommendedProducts.Tagline | src/components/RecommendedProducts.tsx:105 | "AI Powered" when signed in, else "Curated Selection" |
| RecommendedProducts.FeaturedIffNotPersonalised | src/components/RecommendedProducts.tsx:93-95 | the generic heading shows exactly when the greeting does not |
| RecommendedProducts.Personalised | src/components/RecommendedProducts.tsx:93-95 | the title is personalised exactly for a signed-in user with a non-empty name (used by `SectionTitle`) |
| Gallery.FileExtension | src/pages/Gallery.tsx:96 | the extension holds no '.' |
| Gallery.ExtensionSpec | src/pages/Gallery.tsx:96 | the extension is the text after the last '.', or the whole name when there is none |
| Gallery.StoragePath | src/pages/Gallery.tsx:97 | the path lies in the user's folder |
| Gallery.PathKeepsExtension | src/pages/Gallery.tsx:96-97 | the stored object keeps the chosen file's extension |
| Gallery.Rejection | src/pages/Gallery.tsx:74-90 | no user, then no file or a blank caption, refuse; otherwise the upload goes on |
| Gallery.UploadDisabled | src/pages/Gallery.tsx:187 | disabled while uploading, without a file or with a blank caption (tied to the guards by `Gallery.DisabledMatchesGuards`) |
| Gallery.DisabledMatchesGuards | src/pages/Gallery.tsx:187 | for a signed-in user who is not uploading, the button is enabled exactly when the guards pass |
| Gallery.Page.Load | src/pages/Gallery.tsx:40-64 | an error keeps the list; otherwise the data, or nothing for null |
| Gallery.Page.SelectFile | src/pages/Gallery.tsx:66-71 | an empty choice keeps the previous file |
| Gallery.Page.SetCaption | src/pages/Gallery.tsx:180 | only the caption changes |
| Gallery.Page.constructor | src/pages/Gallery.tsx:23-27 | no items, not uploading, an empty caption, no file |
| Gallery.Page.Upload | src/pages/Gallery.tsx:73-140 | a refusal writes nothing; otherwise the object is stored at the user's path, the row carries the trimmed caption and is unapproved, and only full success resets the caption and file |
| Gallery.SubmissionAwaitsApproval | src/pages/Gallery.tsx:111-118 | a submitted row is unapproved with a non-empty, trimmed caption |
| Text.TrimSpec | src/components/ProductReviews.tsx:55 | trimming removes exactly the leading and trailing white space |
| Text.Trim | src/components/ProductReviews.tsx:55 | `trim()` (properties in `Text.TrimSpec`) |
| Text.TrimIdempotent | src/pages/Admin.tsx:92 | trimming twice equals trimming once |
| Text.SplitLength | src/pages/Admin.tsx:92 | a split gives one more piece than there are separators |
| Text.Split | src/pages/Admin.tsx:92 | `split` gives at least one piece |
| Text.SplitJoin | src/pages/Admin.tsx:92 | joining the pieces with the separator restores the input |
| Text.SplitPiecesFree | src/pages/Admin.tsx:92 | no piece of a split holds the separator |
| Text.SplitLastPiece | src/pages/Gallery.tsx:96 | the last piece of a split is the text after the last separator |
| Text.LastPieceIsEnd | src/pages/Gallery.tsx:96 | that text is the end of the input, follows a separator when there is one, and is the whole input otherwise |
| Text.SplitAfterLast | src/pages/Gallery.tsx:96 | after a final separator and a separator-free tail, the last piece is that tail |
| Text.ToLowerIdempotent | src/pages/CategoryProducts.tsx:137-138 | lower-casing twice equals lower-casing once |
| Text.IncludesIff | src/pages/CategoryProducts.tsx:137-138 | `includes` holds exactly when the query occurs at some position |
| Text.Includes | src/pages/CategoryProducts.tsx:137-138 | `includes` (characterised by `Text.IncludesIff`) |
| Text.ToLower | src/pages/CategoryProducts.tsx:137-138 | the input lower-cased letter by letter, with the length kept |
| Text.ParseNatToString | src/pages/OrderConfirmation.tsx:118 | the decimal text of a number parses back to it |
| Text.NatToString | src/pages/OrderConfirmation.tsx:118 | at least one digit, all digits, and no leading zero |
| Text.PadZeros | src/pages/OrderConfirmation.tsx:118 | left-padding digits with zeros keeps them digits with the same value |
| Text.PadStart | src/pages/OrderConfirmation.tsx:118 | the input, left-padded with the fill character to the width |
| Paging.PagesCoverList | src/pages/Orders.tsx:121-125 | the pages, in order, make up the whole list |
| Paging.PageAtCount | src/pages/Orders.tsx:121-125 | a page below the page count is non-empty and every later page is empty |
| Paging.TotalPages | src/components/RelatedProducts.tsx:142 | the ceiling of the count over the page size |
| Paging.Slice | src/components/RelatedProducts.tsx:143-146 | `slice` with both bounds clamped to the length: its length, the plain slice when the bounds are in range, and nothing from a start past the end |
| Paging.PageAt | src/components/RelatedProducts.tsx:143-146 | a page holds at most the page size |
| Paging.FullPagesBeforeLast | src/pages/Orders.tsx:121-125 | every page before the last is full |

## Left out

- Store calls, storage, auth sessions and navigation are not modelled as
  I/O. Each call's outcome and the rows a query returns are parameters.
  The tables that the calls write are `seq` or `map` fields, and each
  write is stated on them.
- Rendering, toasts' wording and the description strings are not modelled.
  Toasts are an enumeration per page.
- Floating point: money is an exact `real`, and `toFixed` and
  `toLocaleString` formatting is not modelled. There is no NaN, so
  Orders.NormalizeRow gives a row without a product the price 0.0 where
  `Number(d.product?.price)` (src/pages/Orders.tsx:88) gives NaN.
- Dates are day numbers, and ISO date formatting is not modelled.
  `Date.now` is the parameter `now`, and `Math.random` is a draw below 10^7.
- `localeCompare` is replaced by code-unit order, and `toLowerCase` is
  ASCII-only. JavaScript `trim` is modelled over space, tab, line feed,
  carriage return, form feed and vertical tab only.
- Catalogue.Sort: it is modelled as a stable insertion sort on values, and
  the model proves it sorted and a permutation. It does not prove that
  equal elements keep their order, nor that it matches the engine's
  in-place `Array.prototype.sort`.
- `parseFloat` and `parseInt` in the admin form are not modelled. Their
  results are the `price` and `stock` parameters.
- Query.Embedded: a joined product that comes back as an empty array would
  make the source read `undefined`. The model's callers require a
  well-formed join instead.
- Concurrency is not modelled: interleaved async handlers, stale closures,
  and effects re-running on dependency changes. Each handler runs to
  completion.
- ShoppingCart.Cart.UpdateQuantity: the invariant that the count equals
  the sum of quantities is promised only when the line exists. For an
  absent id the source drifts the count (`ShoppingCart.AbsentUpdateDrifts`).
- Admin.Dashboard.AddProduct: the `fetchData` reload after a successful
  insert is not part of this method. Use `Admin.Dashboard.Load`.
- ProductCard: the pages pass `product={...}`, but the card destructures
  flat props. The model follows the card's declared props. As the code
  reads, `images` is then undefined at every use, and
  `images[currentImageIndex]` (src/components/ProductCard.tsx:73) throws
  when the card renders; this comes from reading the code.
- Checkout.Page.LoadCart: the source casts `data as CartItem[]`
  (src/pages/Checkout.tsx:89-90) without normalising an array-shaped
  join as the shopping cart does. The model takes the joined product to
  be an object.
- The mock catalogue that RecommendedProducts loads on mount is not part of
  this model. Only its wishlist set and heading are.
- The section list in the admin dashboard, the view-mode and
  filter-visibility toggles, and the image alt texts are not modelled.
- Other source files are not part of this model: App, Navbar, Footer, Hero,
  SEO, CommunityHub, Index, ProductDetail, Profile, CraftingSupplies,
  HandmadeCollection and OrderProcess.
