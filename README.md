# Farm-Eco storefront, modelled in Dafny

Farm-Eco is a React storefront for farm products and farm equipment rental.
This project models its core logic and proves properties of it. Each core
source file has one Dafny module:

- **Zustand stores.** The rental store (`rental_store.dfy`, with the shipped
  catalog in `rental_catalog.dfy`), the product store (`product_store.dfy`)
  and the cart store (`cart_store.dfy`).
- **Customer pages.** The rental listing and details page
  (`rental_page.dfy`), the products page (`products_page.dfy`), the product
  details page (`product_details.dfy`), the cart page (`cart_page.dfy`), the
  checkout wizard (`checkout.dfy`), the sign-up wizard (`signup_form.dfy`) and
  the rental booking form (`rental_confirmation.dfy`).
- **Admin pages.** The products table (`admin_products_list.dfy`), the rental
  equipment table (`admin_rentals.dfy`), the orders page (`admin_orders.dfy`),
  the add-product form (`admin_add_product.dfy`) and the add-rental wizard
  (`admin_add_rentals.dfy`).

Shared building blocks:

- `basics.dfy`: `Option`, `Min`/`Max` and `CeilDiv`.
- `strings.dfy`: ASCII lower-casing, `includes`, white space and digits, and
  code-unit lexicographic order.
- `numbers.dfy`: `parseInt`.
- `seqs.dfy`: order-preserving filtering, JavaScript `slice`, pagination,
  `find` and `[...new Set(...)]`.
- `sorting.dfy`: a stable sort over a total preorder, standing in for
  `Array.prototype.sort`.

State that the source keeps is modelled as classes:

- a Zustand store's fields, and a component's `useState` hooks, become class
  fields;
- every action becomes a method that states the whole new state;
- every getter becomes a function, proved against the specification
  functions of its module.

Pure pipelines, such as filter then sort then slice, are functions with
lemmas about their meaning.

Conventions:

- Product and cart prices are whole cents.
- Rental prices are whole pesewas (hundredths of a cedi): the tractor's
  daily 250 cedis is 25000. The booking form's delivery fee of 50 cedis is
  5000.
- Dates are day numbers obtained through a `dayOf` parameter.

Notable behaviour of the code, which the model keeps:

- `getTotalPages` is 0, not 1, when nothing matches.
- `setCurrentPage` stores any page, including 0 or one past the end.
- `viewToolDetails` does not check that the id exists. An unknown id renders
  a blank details page.
- The rental search also matches the tool's description.
- `getProductsByCategory` with a falsy category returns the whole catalog.
- In `filterProducts`, a price range with a missing bound matches nothing.
- `parseInt` honours a `0x` prefix.
- The product details "Add to cart" button only shows an alert, so it is not
  modelled as a cart change.
- The order total sent at checkout leaves out shipping.
- The booking form's e-mail check is unanchored (`\S+@\S+\.\S+` anywhere in
  the text).
- The admin rentals search box keeps the page number; see Findings.

## Model

| member | source | states |
|---|---|---|
| Basics.CeilDiv | src/store/rentalStore.js:350 | `Math.ceil(n / d)` for positive `d`: the least `q` with `n <= q * d`, and `(q - 1) * d < n` |
| Strings.LowerChar | src/store/rentalStore.js:305 | lower-casing maps each letter `A`–`Z` to its own lower-case letter (`A` to `a`, …, `Z` to `z`) and leaves every other character alone |
| Strings.Lower | src/store/rentalStore.js:305-306 | `toLowerCase` keeps the length and lower-cases each character in place |
| Strings.EmptyQueryMatches | src/store/productStore.js:316-319 | every text includes the empty search term |
| Strings.MatchesItself | src/store/productStore.js:316-319 | every text includes itself, ignoring case |
| Strings.LowerIdempotent | src/store/rentalStore.js:305-306 | lower-casing twice is lower-casing once |
| Strings.LexLeTotal | src/admin/ProductsList.jsx:104-105 | the name comparator relates every pair of names one way or the other |
| Strings.LexLeTransitive | src/admin/ProductsList.jsx:104-105 | the name comparator is transitive |
| Strings.LexLeAntisymmetric | src/admin/ProductsList.jsx:104-105 | names comparing equal both ways are the same name |
| Numbers.DigitValue | src/pages/ProductDetails.jsx:69 | a decimal digit's value is its offset from `0`; every digit is below the radix |
| Numbers.LeadingDigits | src/pages/ProductDetails.jsx:69 | `parseInt` reads the maximal run of digits at the start of the text |
| Numbers.RadixValueDecimal | src/pages/ProductDetails.jsx:69 | in base 10 a run of digits has its decimal value |
| Numbers.TrimStart | src/pages/ProductDetails.jsx:69 | leading white space is skipped: the rest is a suffix starting with a non-space, preceded only by spaces |
| Numbers.ParseMagnitude | src/pages/ProductDetails.jsx:69 | an unsigned magnitude is never negative |
| Numbers.LeadingDigitsOfRun | src/pages/ProductDetails.jsx:69 | the digit run of `digits + rest` is exactly `digits` when `rest` does not continue it |
| Numbers.MagnitudeOfDecimalRun | src/pages/ProductDetails.jsx:69 | a decimal run (not `0x`) followed by a non-digit reads as its decimal value |
| Numbers.NothingToTrim | src/pages/ProductDetails.jsx:69 | text without leading white space is parsed as written |
| Numbers.SignOfDigitRun | src/pages/ProductDetails.jsx:69 | a leading minus negates the magnitude, and a failed magnitude stays a failure |
| Numbers.ParseDecimalPrefix | src/pages/ProductDetails.jsx:69 | `parseInt("12abc") == 12`, `parseInt("-12abc") == -12`: the digit prefix decides |
| Numbers.ParseIntWithoutDigits | src/pages/ProductDetails.jsx:69 | text without any digit parses to NaN |
| Numbers.ParseIntSkipsSpace | src/pages/ProductDetails.jsx:69 | a leading white-space character does not change the result |
| Seqs.Filter | src/store/rentalStore.js:303-314 | `Array.prototype.filter` keeps exactly the elements satisfying the predicate, and no more elements than it was given |
| Seqs.FilterIsSubsequence | src/store/rentalStore.js:303 | a filtered list is an order-preserving subsequence of the list |
| Seqs.FilterKeepsAll | src/store/rentalStore.js:303 | filtering with a predicate every element passes returns the list itself |
| Seqs.FilterRejectsAll | src/store/productStore.js:328 | filtering with a predicate no element passes returns the empty list |
| Seqs.FilterOfFilter | src/pages/ProductDetails.jsx:33-34 | filtering twice is filtering once by the conjunction |
| Seqs.FilterAppend | src/store/cartStore.js:23 | filtering distributes over concatenation |
| Seqs.FilterKeepsUniqueKeys | src/store/cartStore.js:23 | filtering keeps keys pairwise distinct |
| Seqs.FilterLength | src/admin/Rentals.jsx:117-119 | the filtered length is the count of matching elements |
| Seqs.JsSlice | src/store/rentalStore.js:343 | `slice(start, end)` with JavaScript's negative-index and clamping rules |
| Seqs.TakeIsPrefix | src/pages/Rental.jsx:584 | `slice(0, n)` is a prefix of at most `n` elements |
| Seqs.Page | src/store/rentalStore.js:342-343 | page `p` of size `k` is the slice `[(p-1)k, pk)` clamped to the list, and holds at most `k` elements |
| Seqs.PageZeroIsEmpty | src/store/rentalStore.js:342-343 | page 0 (start `-k`, end 0) is empty |
| Seqs.PagesReassemble | src/store/rentalStore.js:342-350 | pages 1..ceil(n/k) laid end to end give back the list |
| Seqs.FindFirst | src/store/rentalStore.js:356 | `find` returns an element satisfying the predicate, or nothing exactly when none does |
| Seqs.FindFirstIsFirst | src/store/rentalStore.js:356 | `find` returns the first satisfying element |
| Seqs.Distinct | src/store/rentalStore.js:191-193 | `[...new Set(xs)]` holds every element of `xs`, only elements of `xs`, each once |
| Seqs.DistinctFirstOccurrenceOrder | src/store/rentalStore.js:191-193 | the distinct elements come in the order of their first occurrences |
| Sorting.ByKeyIsTotalPreorder | src/store/rentalStore.js:322-333 | a numeric comparator `a.k - b.k` is a total preorder |
| Sorting.ReversedIsTotalPreorder | src/store/rentalStore.js:327-331 | the descending comparator `b.k - a.k` is a total preorder |
| Sorting.StableSort | src/store/rentalStore.js:322 | the sorted copy is a permutation of the input |
| Sorting.StableSortSorted | src/store/rentalStore.js:322 | the sorted copy is ordered by the comparator |
| Sorting.StableSortIsStable | src/store/rentalStore.js:322 | elements the comparator ties keep their input order (the sort is stable) |
| RentalStore.FilteredToolsSpec | src/store/rentalStore.js:303-314 | getFilteredTools keeps, in catalog order, exactly the tools matching search, category, subcategory, location and availability |
| RentalStore.NoFiltersKeepsCatalog | src/store/rentalStore.js:303-314 | with every filter empty the whole catalog is listed |
| RentalStore.FilteredToolsDependOnFiltersOnly | src/store/rentalStore.js:303-314 | sort, page, layout and selection do not affect the filtered list |
| RentalStore.ToolOrderIsTotalPreorder | src/store/rentalStore.js:322-333 | each of the four sort keys orders the tools as a total preorder |
| RentalStore.SortedToolsSpec | src/store/rentalStore.js:318-334 | getSortedTools is a permutation of the filtered tools, ordered by price (either way), rating or reviews, and stable among ties |
| RentalStore.SortedLength | src/store/rentalStore.js:318-334 | sorting keeps the number of tools |
| RentalStore.PaginatedToolsSpec | src/store/rentalStore.js:337-344 | a page holds at most 6 tools: the 6-wide window of the sorted list at the page |
| RentalStore.TotalPagesSpec | src/store/rentalStore.js:347-351 | getTotalPages is ceil(n / 6), and 0 exactly when nothing matches |
| RentalStore.PagesCoverSortedTools | src/store/rentalStore.js:337-351 | the pages 1..getTotalPages laid end to end are the sorted list |
| RentalStore.PageZeroShowsNothing | src/store/rentalStore.js:268 | the unclamped page 0 shows no tool |
| RentalStore.SelectedToolIsFirstMatch | src/store/rentalStore.js:354-357 | getSelectedTool returns the first catalog tool with the selected id |
| RentalStore.SelectedToolIgnoresFilters | src/store/rentalStore.js:354-357 | the selected tool is looked up in the whole catalog, not the filtered list |
| RentalStore.Toggled | src/store/rentalStore.js:271-276 | toggleFilterSection flips one section's flag (missing reads as false) and keeps every other flag |
| RentalStore.Store.constructor | src/store/rentalStore.js:190-220 | the store starts on the catalog with its unique categories, subcategories and locations, empty filters, `recommended` sort, grid view, page 1 and every section expanded |
| RentalStore.Store.SetSearchTerm | src/store/rentalStore.js:223-226 | sets the search term and returns to page 1, all else unchanged |
| RentalStore.Store.SetSelectedCategory | src/store/rentalStore.js:229-232 | sets the category and returns to page 1 |
| RentalStore.Store.SetSelectedSubcategory | src/store/rentalStore.js:235-238 | sets the subcategory and returns to page 1 |
| RentalStore.Store.SetSelectedLocation | src/store/rentalStore.js:241-244 | sets the location and returns to page 1 |
| RentalStore.Store.ToggleAvailableOnly | src/store/rentalStore.js:247-250 | flips "available only" and returns to page 1 |
| RentalStore.Store.SetAvailableOnly | src/store/rentalStore.js:253-256 | sets "available only" and returns to page 1 |
| RentalStore.Store.SetSortBy | src/store/rentalStore.js:259-262 | sets the sort key and returns to page 1 |
| RentalStore.Store.SetViewMode | src/store/rentalStore.js:265 | changes only the layout |
| RentalStore.Store.SetCurrentPage | src/store/rentalStore.js:268 | stores the page as given, unclamped |
| RentalStore.Store.ToggleFilterSection | src/store/rentalStore.js:271-276 | flips one section's expanded flag, nothing else |
| RentalStore.Store.ClearAllFilters | src/store/rentalStore.js:279-286 | clears the five filters and returns to page 1; sort, layout, sections and selection stay; afterwards no filter is active |
| RentalStore.Store.ViewToolDetails | src/store/rentalStore.js:289-292 | selects any id, unchecked, and opens the details view |
| RentalStore.Store.BackToListings | src/store/rentalStore.js:295-297 | closes the details view and keeps the selected id |
| RentalStore.Store.GetFilteredTools | src/store/rentalStore.js:300-315 | an order-preserving subsequence of the catalog holding exactly the matching tools |
| RentalStore.Store.GetSortedTools | src/store/rentalStore.js:318-334 | a permutation of the filtered tools, in the order of the sort key |
| RentalStore.Store.GetPaginatedTools | src/store/rentalStore.js:337-344 | at most 6 tools: the current page's window of the sorted list |
| RentalStore.Store.GetTotalPages | src/store/rentalStore.js:347-351 | ceil(n / 6) of the filtered count, 0 exactly when nothing matches |
| RentalStore.Store.GetSelectedTool | src/store/rentalStore.js:354-357 | a catalog tool carrying the selected id, or nothing exactly when no tool carries it |
| RentalCatalog.UnfilteredCatalogPaging | src/store/rentalStore.js:4-188 | the 14 shipped tools are all listed with no filter, on 3 pages |
| RentalCatalog.FourteenToolsPaging | src/store/rentalStore.js:337-344 | with 14 matches page 3 holds the last 2 tools and page 4 is empty |
| RentalCatalog.UnfilteredLastPage | src/store/rentalStore.js:337-344 | on the shipped catalog page 3 holds 2 tools and page 4 none |
| RentalCatalog.AvailabilityOfTools | src/store/rentalStore.js:4-188 | the shipped tools' availability flags, in catalog order |
| RentalCatalog.CountAvailable | src/store/rentalStore.js:4-188 | 11 of the 14 availability flags are set |
| RentalCatalog.CountIsSetFlags | src/store/rentalStore.js:311 | counting the tools that pass a test is counting their flags |
| RentalCatalog.SetFlagsAppend | src/store/rentalStore.js:311 | counting flags distributes over concatenation |
| RentalCatalog.AvailabilitySetFlags | src/store/rentalStore.js:4-188 | eleven of the catalog's availability flags are set |
| RentalCatalog.AvailableOnlyLeavesEleven | src/store/rentalStore.js:311 | "available only" leaves 11 shipped tools, on 2 pages |
| RentalCatalog.SearchMatchesDescriptions | src/store/rentalStore.js:304-306 | the search also reads descriptions: "tractor" lists the post hole digger, whose name lacks it |
| RentalCatalog.DiggerNameLacksTractor | src/store/rentalStore.js:305 | the post hole digger's name does not contain "tractor" |
| RentalCatalog.DiggerDescriptionHasTractor | src/store/rentalStore.js:306 | its description contains "tractor", ignoring case |
| RentalPage.PreviousPage | src/pages/Rental.jsx:414 | the previous arrow goes one page back, never below 1 |
| RentalPage.NextPage | src/pages/Rental.jsx:452 | the next arrow goes one page on, never past the last page |
| RentalPage.ArrowsStayInRange | src/pages/Rental.jsx:414-454 | from a page in range the arrows stay in range and undo each other when enabled |
| RentalPage.Slots | src/pages/Rental.jsx:423-448 | one slot per page 1..totalPages, each decided by the window rule |
| RentalPage.AnchorsHaveButtons | src/pages/Rental.jsx:426-429 | the first, last and current pages always get a button |
| RentalPage.ButtonPagesAreFew | src/pages/Rental.jsx:426-429 | buttons appear only for the ends and the current page's neighbours |
| RentalPage.HiddenPagesLieBehindEllipsis | src/pages/Rental.jsx:442-446 | a hidden page lies beyond an ellipsis two pages from the current one |
| RentalPage.EllipsisPlacement | src/pages/Rental.jsx:442-446 | an ellipsis sits exactly two pages from the current one, strictly inside the range |
| RentalPage.PaginationShownBeyondOnePage | src/pages/Rental.jsx:410 | the bar is shown only below a non-empty page and only when more than 6 tools match, and on a page in range exactly then; when it is hidden, page 1 lists every match |
| RentalPage.RelatedTools | src/pages/Rental.jsx:582-584 | related equipment: at most 3 tools of the sorted list in the selected tool's category, other than itself, in order |
| RentalPage.RelatedToolsAreTheFirstMatches | src/pages/Rental.jsx:582-584 | the related tools are the first three qualifying tools, fewer only when fewer qualify |
| RentalPage.ItemsFoundIgnoresPage | src/pages/Rental.jsx:27 | "items found" counts every filtered tool whatever page is shown, at least the page's length |
| RentalPage.ViewFor | src/pages/Rental.jsx:481-482 | details show exactly when viewing details and the id is found; viewing an unknown id renders nothing |
| RentalPage.UnknownIdRendersBlank | src/pages/Rental.jsx:481-482 | opening an id no tool carries renders a blank page |
| RentalPage.KnownIdRendersDetails | src/pages/Rental.jsx:481-482 | opening a catalog tool's id renders that tool |
| RentalPage.EmptyMessageOnFirstPage | src/pages/Rental.jsx:279 | on page 1 "No equipment found" shows exactly when nothing matches |
| ProductStore.ProductByIdSpec | src/store/productStore.js:306 | getProductById returns the first product with the id, and nothing exactly when no product has it |
| ProductStore.ProductsByCategorySpec | src/store/productStore.js:309-312 | a falsy category returns the catalog; otherwise exactly the category's products, in order |
| ProductStore.SearchProductsSpec | src/store/productStore.js:315-321 | exactly the products whose name or description includes the query, ignoring case, in order; "" keeps all |
| ProductStore.FilterProductsSpec | src/store/productStore.js:327-352 | exactly the products matching category, stock, price range and search, in order |
| ProductStore.DefaultCriteriaKeepAll | src/store/productStore.js:327 | with every argument at its default the catalog comes back |
| ProductStore.PriceBoundsInclusive | src/store/productStore.js:339-341 | both price bounds are inclusive; a null bound does not constrain |
| ProductStore.MissingBoundMatchesNothing | src/store/productStore.js:337-341 | a range object lacking a bound compares against `undefined` and matches nothing |
| ProductStore.Store.constructor | src/store/productStore.js:5-300 | the store starts on the catalog with no selection |
| ProductStore.Store.SetSelectedProduct | src/store/productStore.js:324 | replaces the selection, catalog unchanged |
| ProductStore.Store.AllProducts | src/store/productStore.js:303 | getAllProducts returns the catalog |
| CartStore.QuantitySum | src/store/cartStore.js:45-46 | totalItems of an empty cart is 0, and at least one per item when quantities are positive |
| CartStore.SumsAppend | src/store/cartStore.js:45-50 | both totals distribute over concatenation |
| CartStore.DecrementMatching | src/store/cartStore.js:31-36 | the `map` step decrements exactly the items with the id |
| CartStore.AppendKeepsValid | src/store/cartStore.js:12-15 | appending an item with a new id and positive quantity keeps ids distinct and quantities positive |
| CartStore.AddedToSpec | src/store/cartStore.js:8-18 | addToCart appends the product with quantity 1 when its id is new and changes nothing otherwise; both totals follow; the cart stays valid |
| CartStore.DecrementKeepsIds | src/store/cartStore.js:31-36 | decrementing keeps every id in place |
| CartStore.DecrementMatchingSum | src/store/cartStore.js:31-36 | with distinct ids the `map` step takes one unit off when the id is present |
| CartStore.DropZerosKeepsSum | src/store/cartStore.js:37 | dropping non-positive items from non-negative quantities keeps the unit count |
| CartStore.DecreasedKeepsOrder | src/store/cartStore.js:28-39 | the items with other ids are exactly the old ones, in their old order |
| CartStore.DecreasedSpec | src/store/cartStore.js:28-39 | decreaseQuantity keeps other items in their order, lowers the item by one (dropping it at 0), is a subsequence of the decremented list, takes one unit off, and is a no-op for an absent id |
| CartStore.DecreasedValid | src/store/cartStore.js:28-39 | decreaseQuantity keeps ids distinct and quantities positive |
| CartStore.DecreasedKeepsOthers | src/store/cartStore.js:28-39 | other items stay, and an item left with the id is the old one minus one unit |
| CartStore.DecreasedSum | src/store/cartStore.js:28-39 | one unit goes when the id is present; an absent id leaves the cart unchanged |
| CartStore.TailKeepsUniqueIds | src/store/cartStore.js:10 | distinct ids stay distinct in the tail |
| CartStore.DecreasedItem | src/store/cartStore.js:28-39 | an item with quantity 1 disappears; a larger one loses exactly one unit |
| CartStore.RemovedSum | src/store/cartStore.js:21-25 | removing takes off exactly the removed item's quantity |
| CartStore.RemovedSpec | src/store/cartStore.js:21-25 | removeFromCart drops exactly the id, keeps the rest in order, keeps validity, and is a no-op for an absent id |
| CartStore.QuantityOfItem | src/store/cartStore.js:10 | the quantity looked up by id is the item's, at least 1 |
| CartStore.Cart.constructor | src/store/cartStore.js:5 | the cart starts empty |
| CartStore.Cart.AddToCart | src/store/cartStore.js:8-18 | the cart becomes addToCart's result and stays valid |
| CartStore.Cart.RemoveFromCart | src/store/cartStore.js:21-25 | the cart becomes removeFromCart's result and stays valid |
| CartStore.Cart.DecreaseQuantity | src/store/cartStore.js:28-39 | the cart becomes decreaseQuantity's result and stays valid |
| CartStore.Cart.ClearCart | src/store/cartStore.js:42 | the cart becomes empty |
| CartStore.Cart.TotalItems | src/store/cartStore.js:45-46 | the unit count, at least the number of lines |
| CartStore.Cart.TotalPrice | src/store/cartStore.js:49-50 | the sum of price times quantity, 0 for an empty cart |
| CartPage.Shipping | src/pages/Cart.jsx:16 | shipping is free from $50.00 and $4.99 below |
| CartPage.FinalTotal | src/pages/Cart.jsx:19 | the total is the subtotal from $50.00 and the subtotal plus $4.99 below it |
| CartPage.FinalTotalDropsAtThreshold | src/pages/Cart.jsx:16-19 | $49.99 of goods costs $54.98, more than $50.00 of goods |
| CartPage.FinalTotalMonotoneWithinBands | src/pages/Cart.jsx:16-19 | within each side of the threshold the total rises with the subtotal |
| CartPage.ItemLabel | src/pages/Cart.jsx:35 | "item" exactly for one unit, otherwise "items" |
| CartPage.EmptyViewIffNoUnits | src/pages/Cart.jsx:35-39 | a valid cart shows the empty view exactly when it has no units; its label then reads "0 items", and the total computed for it (which the empty view does not show) is $4.99 |
| CartPage.PlusButtonIsNoOp | src/pages/Cart.jsx:107 | "+" on a listed item changes nothing, since addToCart ignores known ids |
| CartPage.MinusButtonTakesOneUnit | src/pages/Cart.jsx:97 | "-" takes one unit off and drops an item at quantity 1 |
| ProductsPage.FilteredProductsSpec | src/pages/Products.jsx:187-192 | exactly the products matching the search and the category, in order; the same as filterProducts with those criteria and as searchProducts without a category |
| ProductsPage.CurrentProducts | src/pages/Products.jsx:195-197 | at most 6 products: the page's window of the filtered list |
| ProductsPage.TotalPages | src/pages/Products.jsx:198 | ceil(n / 6), 0 exactly for no results |
| ProductsPage.PagesInRangeAreNonEmpty | src/pages/Products.jsx:195-198 | every page in range is non-empty and every page before the last is full |
| ProductsPage.ShownRangeSpec | src/pages/Products.jsx:245-246 | "Showing a-b of n" reads 0-0 for no results and names the first and last shown positions otherwise |
| ProductsPage.Categories | src/pages/Products.jsx:184 | the sidebar categories are the products' categories, each once, in order of first appearance |
| ProductsPage.CardAddToCartSpec | src/pages/Products.jsx:42-78 | the card adds only in-stock products, each once, and keeps the cart valid |
| ProductsPage.View.constructor | src/pages/Products.jsx:171-173 | the page starts with an empty search, every category, page 1 |
| ProductsPage.View.SetSearchQuery | src/pages/Products.jsx:201-203 | a changed search resets the page to 1 |
| ProductsPage.View.SelectCategory | src/pages/Products.jsx:201-203 | a changed category resets the page to 1 |
| ProductsPage.View.GoToPage | src/pages/Products.jsx:289 | a numbered button sets its page |
| ProductsPage.View.PreviousPage | src/pages/Products.jsx:279 | one page back, never below 1 |
| ProductsPage.View.NextPage | src/pages/Products.jsx:301 | one page on, never past the page count |
| ProductDetails.RelatedProducts | src/pages/ProductDetails.jsx:32-36 | at most 4 other products of the same category |
| ProductDetails.RelatedProductsSpec | src/pages/ProductDetails.jsx:32-36 | the related products are the first four others of the category, in catalog order |
| ProductDetails.ViewFor | src/pages/ProductDetails.jsx:26-36 | "not found" exactly when no product has the id; otherwise that product, its related list, and cart controls exactly when in stock |
| ProductDetails.NextQuantity | src/pages/ProductDetails.jsx:68-73 | the quantity takes the parsed value only when positive, so it stays at least 1 |
| ProductDetails.TypedQuantities | src/pages/ProductDetails.jsx:68-73 | typing digits sets their value when positive; a negative or empty entry is ignored |
| ProductDetails.Specifications | src/pages/ProductDetails.jsx:252-253 | every detail except features, benefits, rating and reviews becomes a row |
| ProductDetails.SpecificationsKeepOrder | src/pages/ProductDetails.jsx:252-253 | the rows keep the details' order |
| ProductDetails.QuantityField.constructor | src/pages/ProductDetails.jsx:17 | the quantity starts at 1 |
| ProductDetails.QuantityField.HandleQuantityChange | src/pages/ProductDetails.jsx:68-73 | the quantity follows NextQuantity and stays positive |
| Checkout.NextStep | src/pages/Checkout.jsx:54-56 | one step on, capped at 4 |
| Checkout.PreviousStep | src/pages/Checkout.jsx:58-60 | one step back, floored at 1 |
| Checkout.StepsStayInRange | src/pages/Checkout.jsx:54-60 | the step stays in 1..4 and the two moves undo each other inside it |
| Checkout.ButtonsShownWhereTheyMove | src/pages/Checkout.jsx:459-480 | Back is shown exactly on the steps it moves back from, Next exactly on those it moves on from |
| Checkout.EnabledNextAdvances | src/pages/Checkout.jsx:470-478 | an enabled Next advances one step, and reaches payment only with an address and review only with a payment method |
| Checkout.OrderStatus | src/pages/Checkout.jsx:84 | "pending" exactly for pay-on-delivery, "processing" otherwise |
| Checkout.OrderItems | src/pages/Checkout.jsx:93-98 | one order row per cart item with its id, quantity and price |
| Checkout.OrderItemsMatchTotal | src/pages/Checkout.jsx:82-98 | the rows add up to the order's total and name each product once |
| Checkout.OrderAmountLeavesOutShipping | src/pages/Checkout.jsx:82 | below the free-shipping threshold the order amount is the cart total minus shipping |
| Checkout.Wizard.constructor | src/pages/Checkout.jsx:8-15 | the wizard starts on step 1 with nothing chosen |
| Checkout.Wizard.AddressFetched | src/pages/Checkout.jsx:21-52 | a fetched address is stored; a failure stores its message |
| Checkout.Wizard.HandleNextStep | src/pages/Checkout.jsx:54-56 | the step follows NextStep |
| Checkout.Wizard.HandlePreviousStep | src/pages/Checkout.jsx:58-60 | the step follows PreviousStep |
| Checkout.Wizard.HandlePaymentMethodSelect | src/pages/Checkout.jsx:62-64 | the chosen method is stored |
| Checkout.Wizard.PlaceOrder | src/pages/Checkout.jsx:66-116 | the order carries the status rule; on success the order id is kept, the order completes and the cart is emptied; on failure the fixed message is shown and the cart kept |
| SignupForm.Changed | src/pages/SignupForm.jsx:42-48 | handleChange stores the checkbox state or the text under the field's name, all other fields kept |
| SignupForm.SplitIsLocalAtDomain | src/pages/SignupForm.jsx:74 | a split accepted by the e-mail pattern gives a local part and a dotted domain |
| SignupForm.LocalAtDomainIsSplit | src/pages/SignupForm.jsx:74 | a local part with a dotted domain is accepted by the pattern |
| SignupForm.SignupEmailAsLocalAndDomain | src/pages/SignupForm.jsx:74 | the pattern accepts exactly `local@domain` with no spaces or extra `@`, where the domain has a dot with text on both sides |
| SignupForm.SignupEmailExamples | src/pages/SignupForm.jsx:74 | "a@b.c" is accepted; "a@.c", "a@b." and "a@b@c.d" are rejected |
| SignupForm.ValidateStep1 | src/pages/SignupForm.jsx:68-90 | step 1 passes exactly when the three fields are filled, the e-mail is well formed, the password has 8+ characters and both passwords agree; otherwise the message of the first failing check: "all fields required" exactly when one is missing, then the e-mail, the length and the mismatch messages in that order |
| SignupForm.ValidateStep2 | src/pages/SignupForm.jsx:92-104 | step 2 passes exactly when both names are given and the phone is absent or valid; a missing name gives "First and last name are required", otherwise a failure is the invalid-phone message |
| SignupForm.ValidateStep3 | src/pages/SignupForm.jsx:106-113 | step 3 passes exactly when the five required address fields are filled, and its only message is the address one |
| SignupForm.AddressLine2IsOptional | src/pages/SignupForm.jsx:106-113 | the second address line never affects step 3 |
| SignupForm.DisplayName | src/pages/SignupForm.jsx:139 | the display name as typed when filled; otherwise the first and last names joined by a space |
| SignupForm.Wizard.constructor | src/pages/SignupForm.jsx:7-40 | the wizard starts on step 1 with the empty form |
| SignupForm.Wizard.HandleChange | src/pages/SignupForm.jsx:42-48 | the form follows Changed |
| SignupForm.Wizard.NextStep | src/pages/SignupForm.jsx:50-59 | a failing check shows its message and stays; a passing one clears the error and advances below step 4 |
| SignupForm.Wizard.PrevStep | src/pages/SignupForm.jsx:61-66 | one step back, clearing the error |
| SignupForm.Wizard.Submit | src/pages/SignupForm.jsx:115-189 | success shows the confirmation step; a failure shows its message or the default one |
| SignupForm.AdvancingNeedsValidStep | src/pages/SignupForm.jsx:50-59 | the wizard advances only past a step whose check passes |
| RentalConfirmation.Duration | src/pages/RentalConfirmationPage.jsx:41-48 | 0 days exactly when a date is missing; for two valid dates the absolute day difference, or 1 on the same day; 1 for an invalid date |
| RentalConfirmation.DurationIsSymmetric | src/pages/RentalConfirmationPage.jsx:41-48 | swapping the dates does not change the duration |
| RentalConfirmation.TotalCost | src/pages/RentalConfirmationPage.jsx:51-55 | price per day times days times quantity, plus the delivery fee exactly when delivery is chosen |
| RentalConfirmation.TotalCostMonotone | src/pages/RentalConfirmationPage.jsx:51-55 | a longer rental or a larger quantity never costs less |
| RentalConfirmation.MulLe | src/pages/RentalConfirmationPage.jsx:51-55 | products of naturals grow with their factors |
| RentalConfirmation.SignupEmailIsBookingEmail | src/pages/RentalConfirmationPage.jsx:86 | every address the sign-up form accepts, the booking form accepts |
| RentalConfirmation.BookingEmailIsLooser | src/pages/RentalConfirmationPage.jsx:86 | " a@b.c" and "a@b@c.d" pass the booking check and fail the sign-up check |
| RentalConfirmation.FieldError | src/pages/RentalConfirmationPage.jsx:75-91 | each field's message: "Start date is required", "Name is required" and "Phone number is required" exactly when blank; for the end date "End date must be after start date" when the dates are out of order, otherwise "End date is required" when blank; for the e-mail "Email is required" when blank, "Email is invalid" when set but not matching; no message for other fields |
| RentalConfirmation.ValidateForm | src/pages/RentalConfirmationPage.jsx:75-91 | the error map holds exactly the failing fields, each with its message: the four "required" messages, "end before start" for dates out of order, and the e-mail's required or invalid message |
| RentalConfirmation.SubmitDisabledGates | src/pages/RentalConfirmationPage.jsx:389 | a submission under way disables the button; otherwise it is disabled exactly for the catalog's unavailable tools |
| RentalConfirmation.AcceptedForms | src/pages/RentalConfirmationPage.jsx:75-91 | the error map is empty exactly when dates, name, phone and e-mail all pass |
| RentalConfirmation.Booking.constructor | src/pages/RentalConfirmationPage.jsx:25-38 | the booking starts with the initial details, quantity 1 and no errors |
| RentalConfirmation.Booking.HandleChange | src/pages/RentalConfirmationPage.jsx:58-72 | stores the value and blanks the field's error only if it had one |
| RentalConfirmation.Booking.SelectQuantity | src/pages/RentalConfirmationPage.jsx:258-268 | stores a quantity from 1 to 5 |
| RentalConfirmation.Booking.HandleSubmit | src/pages/RentalConfirmationPage.jsx:94-110 | with errors they are stored and nothing else changes; without, submission starts |
| RentalConfirmation.Booking.SubmissionFinished | src/pages/RentalConfirmationPage.jsx:104-109 | the confirmation shows and submitting ends |
| AdminProductsList.CategoryMenu | src/admin/ProductsList.jsx:83 | "All" then each category once, covering every row, in order of first appearance |
| AdminProductsList.SortOrderIsTotalPreorder | src/admin/ProductsList.jsx:100-112 | each column and direction orders the rows as a total preorder |
| AdminProductsList.ListedSpec | src/admin/ProductsList.jsx:89-112 | the rows shown are a permutation of the matching rows, ordered by the column in the direction |
| AdminProductsList.SortOrderMeaning | src/admin/ProductsList.jsx:100-112 | sorted by the comparator means in order by the column |
| AdminProductsList.SameMembers | src/admin/ProductsList.jsx:100-112 | a permutation has the same rows |
| AdminProductsList.UnknownColumnKeepsOrder | src/admin/ProductsList.jsx:100-112 | an unknown column leaves the filtered order unchanged |
| AdminProductsList.SortClicked | src/admin/ProductsList.jsx:118-125 | the same column flips the direction; another column sorts ascending |
| AdminProductsList.SortClickedTwice | src/admin/ProductsList.jsx:118-125 | two clicks on the sorted column restore the direction |
| AdminProductsList.FeaturedToggled | src/admin/ProductsList.jsx:128-132 | the rows with the id flip their featured flag, the rest stay |
| AdminProductsList.FeaturedToggledTwice | src/admin/ProductsList.jsx:128-132 | toggling twice restores the list, and a toggle changes only the flag |
| AdminProductsList.Deleted | src/admin/ProductsList.jsx:135-139 | unconfirmed deletion keeps the list; confirmed deletion leaves no row with the id |
| AdminProductsList.DeletedSpec | src/admin/ProductsList.jsx:135-139 | the other rows stay in order, and as many rows go as carry the id |
| AdminProductsList.CountComplement | src/admin/ProductsList.jsx:135-139 | the rows with and without a property add up to all rows |
| AdminProductsList.Stats | src/admin/ProductsList.jsx:166-201 | total, featured and low-stock (below 5) counters |
| AdminProductsList.StockBadge | src/admin/ProductsList.jsx:350-354 | red exactly below 5, green exactly from 10 |
| AdminProductsList.LowStockIsRedBadges | src/admin/ProductsList.jsx:350-354 | the low-stock counter counts exactly the red badges |
| AdminProductsList.Table.constructor | src/admin/ProductsList.jsx:6-80 | the table starts on the sample rows, sorted by name ascending |
| AdminProductsList.Table.SetSearchTerm | src/admin/ProductsList.jsx:73 | stores the search term |
| AdminProductsList.Table.SetFilterCategory | src/admin/ProductsList.jsx:74 | stores the category |
| AdminProductsList.Table.HandleSort | src/admin/ProductsList.jsx:118-125 | the sort follows SortClicked |
| AdminProductsList.Table.ToggleFeatured | src/admin/ProductsList.jsx:128-132 | the rows follow FeaturedToggled |
| AdminProductsList.Table.DeleteProduct | src/admin/ProductsList.jsx:135-139 | the rows follow Deleted with the confirmation's answer |
| AdminRentals.FilteredSpec | src/admin/Rentals.jsx:401-412 | exactly the rows matching the search (name or category), category and status, in order; all rows with no filter |
| AdminRentals.Paginated | src/admin/Rentals.jsx:415-418 | at most 5 rows: the page's window |
| AdminRentals.DisplayedPages | src/admin/Rentals.jsx:451 | the bar's count is ceil(n / 5), but at least 1 |
| AdminRentals.DisplayedPagesAreNonEmpty | src/admin/Rentals.jsx:415-418 | with rows, every page the bar offers shows some |
| AdminRentals.PreviousClicked | src/admin/Rentals.jsx:318-319 | Previous goes back one page and is inert on page 1 |
| AdminRentals.NextClicked | src/admin/Rentals.jsx:325-326 | Next goes on one page and is inert on the last |
| AdminRentals.ButtonsKeepPageInRange | src/admin/Rentals.jsx:318-366 | from a page in range both buttons stay in range |
| AdminRentals.Stats | src/admin/Rentals.jsx:114-119 | total, rented, available and maintenance counters |
| AdminRentals.StatusCountsBounded | src/admin/Rentals.jsx:117-119 | the three status counters add up to at most the total |
| AdminRentals.StatsBounded | src/admin/Rentals.jsx:114-119 | the status counters never exceed the total |
| AdminRentals.StatusColour | src/admin/Rentals.jsx:86-96 | blue exactly for rented, green exactly for available, yellow exactly for maintenance, red exactly for overdue, grey for any other status |
| AdminRentals.SearchCanStrandPage | src/admin/Rentals.jsx:429 | a search leaving 1–5 rows from page 2 shows an empty page 2 of 1 |
| AdminRentals.Dashboard.constructor | src/admin/Rentals.jsx:380-385 | loading, no rows, no filters, page 1 |
| AdminRentals.Dashboard.Loaded | src/admin/Rentals.jsx:389-397 | the simulated fetch installs the mock rows |
| AdminRentals.Dashboard.SetSearchTerm | src/admin/Rentals.jsx:429 | as written: stores the term and keeps the page |
| AdminRentals.Dashboard.SetSearchTermResettingPage | src/admin/Rentals.jsx:429-439 | stores the term, returns to page 1, page in range |
| AdminRentals.Dashboard.ChangeCategory | src/admin/Rentals.jsx:431-434 | stores the category, returns to page 1, page in range |
| AdminRentals.Dashboard.ChangeStatus | src/admin/Rentals.jsx:436-439 | stores the status, returns to page 1, page in range |
| AdminRentals.Dashboard.ClearFilters | src/admin/Rentals.jsx:460-464 | resets the three filters and keeps the page, which stays in range when nothing matched |
| AdminRentals.Dashboard.Previous | src/admin/Rentals.jsx:318-319 | the page follows PreviousClicked and stays in range |
| AdminRentals.Dashboard.Next | src/admin/Rentals.jsx:325-326 | the page follows NextClicked and stays in range |
| AdminRentals.Dashboard.GoToPage | src/admin/Rentals.jsx:350-353 | a numbered button sets a page in range |
| AdminOrders.BadgeStyle | src/admin/Orders.jsx:77-84 | a known status keeps its style; an unknown one is styled as pending |
| AdminOrders.Label | src/admin/Orders.jsx:89 | the label upper-cases the first character and keeps the rest |
| AdminOrders.StatusUpdated | src/admin/Orders.jsx:95-100 | every order with the id takes the status; the others stay |
| AdminOrders.StatusUpdatedOverwrites | src/admin/Orders.jsx:95-100 | the last status set wins, and only statuses change |
| AdminOrders.Timeline | src/admin/Orders.jsx:305-351 | placed first; processing unless pending; shipped when shipped or delivered; delivered and cancelled for their status |
| AdminOrders.TimelineInTimeOrder | src/admin/Orders.jsx:305-351 | the timestamped lines appear in time order |
| AdminOrders.TrackingMapFollowsShipment | src/admin/Orders.jsx:286 | the map shows exactly for a toggled-on order whose history has a "Shipped" line; a status other than shipped or delivered hides it |
| AdminOrders.OrdersAdmin.constructor | src/admin/Orders.jsx:70-72 | the mock orders, nothing selected, map hidden |
| AdminOrders.OrdersAdmin.Select | src/admin/Orders.jsx:378-392 | selects a listed order |
| AdminOrders.OrdersAdmin.Back | src/admin/Orders.jsx:182 | clears the selection |
| AdminOrders.OrdersAdmin.ToggleMap | src/admin/Orders.jsx:277 | flips the map |
| AdminOrders.OrdersAdmin.UpdateOrderStatus | src/admin/Orders.jsx:95-105 | the list follows StatusUpdated, the shown order takes the status, and the selection stays a listed order |
| AdminAddProduct.IndexOf | src/admin/AddProduct.jsx:31 | the first position of the character, or the length |
| AdminAddProduct.SplitName | src/admin/AddProduct.jsx:31 | `name.split('.')`'s first two parts: the text before the first dot and the segment after it |
| AdminAddProduct.IndexOfAfterPrefix | src/admin/AddProduct.jsx:31 | the first dot of `p.s` is after `p` when `p` has none |
| AdminAddProduct.InputChanged | src/admin/AddProduct.jsx:27-45 | a dotted name stores into its group; any other name stores at top level |
| AdminAddProduct.DetailEditIsLocal | src/admin/AddProduct.jsx:27-45 | editing `details.x` changes only that detail |
| AdminAddProduct.InputChangedKeepsFeatures | src/admin/AddProduct.jsx:27-45 | any input other than the features list leaves the features alone |
| AdminAddProduct.WithFeatures | src/admin/AddProduct.jsx:58-90 | replacing the features keeps every other top-level field and every other `details` member, and adds no other member |
| AdminAddProduct.FeatureAdded | src/admin/AddProduct.jsx:58-66 | addFeature appends one empty line |
| AdminAddProduct.Spliced | src/admin/AddProduct.jsx:68-78 | `splice(index, 1)` with JavaScript's index rules |
| AdminAddProduct.SplicedRow | src/admin/AddProduct.jsx:68-78 | removing a row drops exactly that line and keeps the others in order |
| AdminAddProduct.AddThenRemoveLast | src/admin/AddProduct.jsx:58-78 | adding a line then removing the last restores the list |
| AdminAddProduct.Form.constructor | src/admin/AddProduct.jsx:5-25 | the initial draft with one empty feature, no image, no message |
| AdminAddProduct.Form.HandleInputChange | src/admin/AddProduct.jsx:27-45 | the draft follows InputChanged; the features are kept |
| AdminAddProduct.Form.HandleImageChange | src/admin/AddProduct.jsx:47-56 | a chosen file's data becomes the preview; no file changes nothing |
| AdminAddProduct.Form.AddFeature | src/admin/AddProduct.jsx:58-66 | one more feature line |
| AdminAddProduct.Form.RemoveFeature | src/admin/AddProduct.jsx:68-78 | one fewer feature line, never below one |
| AdminAddProduct.Form.HandleFeatureChange | src/admin/AddProduct.jsx:80-90 | replaces one feature line |
| AdminAddProduct.Form.HandleSubmit | src/admin/AddProduct.jsx:92-128 | shows the success message and keeps the draft |
| AdminAddProduct.Form.SuccessTimerFired | src/admin/AddProduct.jsx:102-104 | clears the message |
| AdminAddRentals.ScreenOf | src/admin/AddRentals.jsx:382-399 | the preview shows exactly when its flag is set |
| AdminAddRentals.Next | src/admin/AddRentals.jsx:40-46 | one step on below step 4; the preview from step 4 |
| AdminAddRentals.Back | src/admin/AddRentals.jsx:48-52 | as written: one step back above step 1, preview flag untouched |
| AdminAddRentals.BackInPreviewIsInvisible | src/admin/AddRentals.jsx:48-52 | from the preview, Back is enabled but the screen stays, and "Edit Details" then opens step 3 |
| AdminAddRentals.BackCorrected | src/admin/AddRentals.jsx:48-52 | Back leaving the preview first |
| AdminAddRentals.BackCorrectedChangesScreen | src/admin/AddRentals.jsx:48-52 | with the correction every enabled Back changes the screen, returning from the preview to its step |
| AdminAddRentals.StepsStayInRange | src/admin/AddRentals.jsx:40-52 | the step stays in 1..4, and four Next clicks reach the preview |
| AdminAddRentals.MarkerOf | src/admin/AddRentals.jsx:86-110 | a step is ticked exactly when before the current one, current exactly when equal |
| AdminAddRentals.IndicatorShowsProgress | src/admin/AddRentals.jsx:86-110 | on step c exactly the earlier steps are ticked |
| AdminAddRentals.Wizard.constructor | src/admin/AddRentals.jsx:16-30 | step 1, the initial form, no preview |
| AdminAddRentals.Wizard.HandleInputChange | src/admin/AddRentals.jsx:32-38 | stores the checkbox state or the text under the name |
| AdminAddRentals.Wizard.HandleImageChange | src/admin/AddRentals.jsx:76-83 | stores the fixed placeholder image address |
| AdminAddRentals.Wizard.HandleNext | src/admin/AddRentals.jsx:40-46 | follows Next and stays in range |
| AdminAddRentals.Wizard.HandleBack | src/admin/AddRentals.jsx:48-52 | as written: follows Back |
| AdminAddRentals.Wizard.EditDetails | src/admin/AddRentals.jsx:420-425 | leaves the preview |
| AdminAddRentals.Wizard.HandleSubmit | src/admin/AddRentals.jsx:54-74 | resets the form, the step and the preview |

## Left out

- Backend calls:
  - Supabase sign-up, order inserts and address fetches are not modelled;
    their outcomes are method parameters.
  - Authentication state is a boolean parameter.
- Timers and browser dialogs:
  - the simulated 500 ms fetch and the three-second success timer become
    separate methods;
  - `alert` and `confirm` are modelled as the answer they return;
  - `window.scrollTo` is not modelled.
- Loading flags and spinners are not modelled, apart from the admin rentals
  `loading` field.
- `FileReader` is modelled as an `Option` parameter holding the data URL.
- Dates:
  - parsing dates and `new Date()` are replaced by a `dayOf` parameter giving
    day numbers;
  - the order timeline gives offsets from the order date, not formatted
    dates.
- `localeCompare`: names are compared by code unit (`Strings.LexLe`), not by
  locale collation.
- Unicode: lower- and upper-casing cover ASCII letters only.
- SignupForm.ValidateStep1: the password's length is counted in characters (Unicode
  scalar values), while JavaScript's `length` counts UTF-16 code units, so a
  password of four characters outside the Basic Multilingual Plane (four
  emoji, say) passes the 8-character check in the browser but not here.
- ProductDetails.NextQuantity: `parseInt` returns a double, which rounds integers above
  2^53; the model's `Numbers.ParseInt` and `ParseDecimalPrefix` are exact.
- Floating point: prices are whole cents, or whole pesewas; the
  cart's `toFixed(2)` display is not modelled.
- `Number(id)`: route ids are parameters that have already been converted
  (`None` stands for NaN).
- Images, icons, thumbnails, styles and mobile filter toggles are not
  modelled.
- `AdminAddProduct.MembersOf`: spreading a non-object parent gives `{}`. A
  string parent's character keys are not modelled.
- `AdminAddProduct.Form.HandleFeatureChange`: requires an index in range.
  The form only renders in-range rows.
- `AdminAddProduct.Form.HandleInputChange`: requires a name other than the
  features list. No input of the form has that name.
- `RentalConfirmation.Booking.SelectQuantity`: takes the number from the
  menu. The string value React stores, and its coercion in the cost, are not
  modelled.
- `SignupForm.Wizard.PrevStep`: requires the wizard not to be on the success
  screen. The Back button is rendered only on steps 2 to 4.
- The admin products table's sample counter values are not stated as a
  lemma, because that lemma is too costly to verify.
- The settings, dashboard, login, home and about pages, the navbar and
  footer, and the featured and category stores are not part of this model.

## Findings

| source | as written | input that shows it | evidently intended | confidence | as-written member | corrected member |
|---|---|---|---|---|---|---|
| src/admin/Rentals.jsx:429 | the search box sets the term but, unlike the category and status menus (431-439), does not reset the page | the mock list on page 2 with no filters, then search "drone": one row matches, the bar reads "page 2 of 1" and the table is empty | typing a search returns to page 1 | not executed | AdminRentals.SearchCanStrandPage | AdminRentals.Dashboard.SetSearchTermResettingPage |
| src/admin/AddRentals.jsx:48-52 | Back is enabled in the preview (407) but only lowers the hidden step | step 4 in the preview, click Back: the preview stays; "Edit Details" then opens step 3 | Back leaves the preview and returns to the step it came from | not executed | AdminAddRentals.BackInPreviewIsInvisible | AdminAddRentals.BackCorrectedChangesScreen |
