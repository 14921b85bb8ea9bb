# Klassico storefront: a verified model of the cart, checkout and catalogue logic

This project models the client-side logic of the Klassico clothing storefront in Dafny. The model covers:

- the shopping-cart store with its local-storage persistence;
- the cart drawer's buttons and the product page's guarded add-to-cart;
- checkout, with its two-step order creation against the remote `orders` and `order_items` tables;
- the catalogue queries and the featured-product tabs;
- the category page's title and count label;
- the admin dashboard's slug generator and its auto-slug rules.

Each operation has a contract, and lemmas relate the operations to each other.

The modules follow the source files:

| module | file | models |
|---|---|---|
| `Seqs` | seqs.dfy | `Array.prototype.filter`, `slice(0, n)`, `String.prototype.includes` and sums |
| `Catalog` | catalog.dfy | `src/data/products.ts` and the `Product` record of `src/components/ProductCard.tsx` |
| `FeaturedTabs` | featured.dfy | the tab filter of `src/components/FeaturedProducts.tsx` |
| `CategoryPage` | category_page.dfy | `src/pages/CategoryPage.tsx` |
| `CartLines` | cart_lines.dfy | the list operations behind `src/contexts/CartContext.tsx` |
| `CartStorage` | cart_storage.dfy | what `JSON.stringify`/`JSON.parse` do to the cart |
| `CartContext` | cart_store.dfy | the cart provider as a class with `items`, the storage map and a notice log |
| `CartDrawer` | cart_drawer.dfy | the buttons of `src/components/Cart.tsx` |
| `ProductDetails` | product_details.dfy | `src/pages/ProductDetails.tsx` |
| `Orders` | orders.dfy | `src/services/orderService.ts` over a `Backend` holding the two tables |
| `Checkout` | checkout.dfy | `src/pages/CheckoutPage.tsx` |
| `Admin` | admin.dfy | the slug helpers and schemas of `src/pages/AdminDashboard.tsx` |

## Design

State that the source changes step by step is modelled with classes:

- `CartContext.CartStore`: the cart store, with `items`, the local-storage map and a log of notices.
- `Orders.Backend`: the remote `orders` and `order_items` tables, as ordinary fields so the order-details query can return their rows.
- `ProductDetails.ProductDetailsPage`, `Checkout.CheckoutPage`, `Admin.ProductForm` and `Admin.CategoryForm`: page and form state.

Everything else is pure functions and lemmas.

Inputs from outside the browser become parameters:

- the remote tables' answers (`Outcome`);
- the signed-in user;
- the id the database gives a new order;
- the auth loading flag;
- the answers of the e-mail and URL validators.

The tables enforce the two constraints the schema implies:

- an order id is a primary key, so inserting a duplicate fails;
- every item row must name an existing order, and a batch insert is all-or-nothing.

Prices and quantities are unbounded integers. Strings are ASCII.

## Model

| member | source | states |
|---|---|---|
| Seqs.Filter | src/data/products.ts:111 | `filter` keeps exactly the elements satisfying the predicate, with their multiplicities, as an order-preserving subsequence |
| Seqs.Take | src/data/products.ts:123 | `slice(0, n)` is the prefix of length min(n, length) |
| Seqs.IncludesIff | src/data/products.ts:111 | `includes` holds exactly when the needle occurs at some position |
| Catalog.ByCategory | src/data/products.ts:110-112 | the products kept are exactly those whose category string contains the argument, each as often as in the input, in their order |
| Catalog.ProductsByCategory | src/data/products.ts:110-112 | `getProductsByCategory` over the catalogue: exactly the products whose category contains `c`, with their catalogue multiplicities, as a subsequence of the catalogue |
| Catalog.FindBySlug | src/data/products.ts:115-117 | `find` on slug: none exactly when no product has the slug, otherwise the first one that has it |
| Catalog.ProductBySlug | src/data/products.ts:115-117 | `getProductBySlug` returns a catalogue product with that slug, or none when no product has it |
| Catalog.RelatedIn | src/data/products.ts:120-124 | the first min(4, number of matches) of the products other than the current id whose category contains `c`, in order: a prefix of the filtered list |
| Catalog.RelatedProducts | src/data/products.ts:120-124 | `getRelatedProducts` over the catalogue: the first four matches (all of them when fewer), in catalogue order |
| Catalog.FeaturedProducts | src/data/products.ts:127-129 | `getFeaturedProducts` is a prefix of the catalogue of at most 8 products |
| Catalog.FeaturedIsWholeCatalogue | src/data/products.ts:127-129 | with eight products, the featured list is the whole catalogue |
| Catalog.CatalogueKeysDistinct | src/data/products.ts:5-78 | ids and slugs of the catalogue are pairwise distinct |
| Catalog.EmptyCategoryMatchesAll | src/data/products.ts:111 | `getProductsByCategory("")` is the whole catalogue |
| Catalog.EmptyCategoryKeepsAll | src/data/products.ts:111 | the empty category keeps every product of any list |
| Catalog.MenMatchesWomen | src/data/products.ts:111 | every product whose category contains "women" is returned for "men" |
| Catalog.MissingCharMatchesNothing | src/data/products.ts:111 | when every category lacks one of two characters of `c`, nothing matches `c` |
| Catalog.PluralCategoriesMatchNothing | src/data/products.ts:12-75 | "kurtis" and "blazers" match no catalogue product |
| Catalog.CategoryCases | src/data/products.ts:12-75 | the category string of each of the eight products |
| Catalog.CategoryLacks | src/data/products.ts:12-75 | no catalogue category holds both `s` and `k`, or both `s` and `b` |
| Catalog.WomensKurtiListedUnderMen | src/data/products.ts:12 | the first product, tagged "women", is in `getProductsByCategory("men")` |
| Catalog.Tags | src/data/products.ts:12 | a category string splits into at least one tag, none containing a comma |
| Catalog.TagsOfPair | src/data/products.ts:12 | `"a,b"` splits into exactly `[a, b]` |
| Catalog.CatalogueTags | src/data/products.ts:12-75 | each catalogue category is an audience tag followed by a garment tag |
| Catalog.CatalogueIncludesTags | src/data/products.ts:12-75 | each catalogue category contains both of its tags as substrings |
| Catalog.PairIncludesBoth | src/data/products.ts:12 | a comma-joined pair of tags contains each of its tags |
| Catalog.ProductsByTag | src/data/products.ts:110-112 | whole-tag matching: exactly the catalogue products carrying the tag, with their catalogue multiplicities, in order |
| Catalog.MenTagExcludesWomen | src/data/products.ts:12-75 | with whole-tag matching, no product selected by "men" is tagged "women" |
| Catalog.MenPairNotWomen | src/data/products.ts:12-75 | a tag pair containing "men" does not contain "women" |
| FeaturedTabs.VisibleProducts | src/components/FeaturedProducts.tsx:16-27 | tab `all` shows the input; `women` exactly the products containing "women" or "kurti"; `men` exactly those containing "men", "jeans" or "blazer", each as often as in the input; always an order-preserving subsequence |
| FeaturedTabs.WomenTaggedShownOnMenTab | src/components/FeaturedProducts.tsx:20-23 | every product containing "women" also shows on the `men` tab |
| FeaturedTabs.MenTabShowsWholeCatalogue | src/components/FeaturedProducts.tsx:23 | every catalogue product shows on the `men` tab |
| CategoryPage.UpperAscii | src/pages/CategoryPage.tsx:35 | `toUpperCase` on one character: `a`-`z` move to `A`-`Z`, others are unchanged |
| CategoryPage.FormatCategoryName | src/pages/CategoryPage.tsx:20-37 | a named category gets its capitalised title; any other name keeps its length, with its first character upper-cased and the rest unchanged |
| CategoryPage.AliasesAgree | src/pages/CategoryPage.tsx:21-33 | "kurti" and "kurtis" both give "Kurti Sets"; "blazer" and "blazers" both give "Blazers"; the other titles; "" gives "" |
| CategoryPage.CountLabel | src/pages/CategoryPage.tsx:49 | the label is "product" exactly when the count is 1, and "products" otherwise |
| CategoryPage.RouteCategory | src/pages/CategoryPage.tsx:13 | `category \|\| ''`: the route parameter, or "" without one |
| CategoryPage.PageProducts | src/pages/CategoryPage.tsx:13 | the listed products are exactly the catalogue products whose category contains the route's category, each as often as in the catalogue and in catalogue order, so `products.length` counts them |
| CategoryPage.MissingCategoryListsAll | src/pages/CategoryPage.tsx:13 | without a route parameter the page lists the whole catalogue |
| CategoryPage.PluralRoutesListNothing | src/pages/CategoryPage.tsx:13 | the `/kurtis` and `/blazers` pages list no product |
| CategoryPage.CanonicalTag | src/pages/CategoryPage.tsx:26-33 | the plural aliases map to their singular tag; other names are unchanged |
| CategoryPage.AliasedPageProducts | src/pages/CategoryPage.tsx:13 | lookup through the alias: exactly the products whose category contains the canonical tag, with their catalogue multiplicities and order |
| CategoryPage.NamedRoutesListProducts | src/pages/CategoryPage.tsx:21-33 | with the alias, every named category route lists at least one product |
| CategoryPage.TagListsProduct | src/pages/CategoryPage.tsx:13 | each of the five catalogue tags lists at least one product |
| CartLines.FindLine | src/contexts/CartContext.tsx:51-53 | `findIndex` on `(product.id, size)`: -1 exactly when no line has the key, otherwise the first line that has it |
| CartLines.AddLine | src/contexts/CartContext.tsx:48-67 | with a matching line, only the first match gains `quantity`; with none, one line is appended |
| CartLines.RemoveById | src/contexts/CartContext.tsx:69-77 | exactly the lines of other products remain, each as often as before, in their order |
| CartLines.SetQuantity | src/contexts/CartContext.tsx:79-88 | same length; every line of the product gets the quantity, unchecked; other lines, products and sizes unchanged |
| CartLines.AddExisting | src/contexts/CartContext.tsx:51-61 | adding an existing key keeps the line count, raises only that line's quantity, keeps the others, and raises total and item count accordingly |
| CartLines.MergeAt | src/contexts/CartContext.tsx:56-61 | adding an existing key is a point update of that line's quantity |
| CartLines.AddNew | src/contexts/CartContext.tsx:63-65 | appending a new line raises the total by `price * quantity` and the count by `quantity` |
| CartLines.AddItemCount | src/contexts/CartContext.tsx:48-67 | `addItem` always raises the item count by `quantity` |
| CartLines.AddPreservesUnique | src/contexts/CartContext.tsx:48-67 | `addItem` keeps the `(id, size)` keys distinct |
| CartLines.AddPreservesPositive | src/contexts/CartContext.tsx:48-67 | `addItem` with a positive quantity keeps every quantity positive |
| CartLines.AddSameKeyTwice | src/contexts/CartContext.tsx:48-67 | adding 2 then 3 of the same product and size gives one line of 5 |
| CartLines.AddTwoSizes | src/contexts/CartContext.tsx:63-65 | adding sizes M and L of one product gives two lines |
| CartLines.SubsequenceUnique | src/contexts/CartContext.tsx:71-73 | any subsequence of a cart with distinct keys has distinct keys |
| CartLines.RemovePreservesUnique | src/contexts/CartContext.tsx:69-77 | `removeItem` keeps the keys distinct |
| CartLines.RemovePreservesPositive | src/contexts/CartContext.tsx:69-77 | `removeItem` keeps quantities positive |
| CartLines.RemoveDropsAllSizes | src/contexts/CartContext.tsx:71-73 | no line of the product stays, in any size; every other line stays |
| CartLines.SetQuantityPreservesUnique | src/contexts/CartContext.tsx:79-88 | `updateQuantity` keeps the keys distinct |
| CartLines.SetQuantitySizeVariants | src/contexts/CartContext.tsx:82-83 | after `updateQuantity`, all size variants of the product share the new quantity |
| CartLines.TotalSplitsById | src/contexts/CartContext.tsx:95-100 | the total is the remaining lines' total plus the total of the removed product's lines |
| CartLines.TotalNonNegative | src/contexts/CartContext.tsx:95-100 | with non-negative prices and positive quantities the total is non-negative |
| CartLines.ItemCountAtLeastLines | src/contexts/CartContext.tsx:102-104 | with positive quantities the item count is at least the number of lines |
| CartLines.ItemCountIsNotLineCount | src/contexts/CartContext.tsx:102-104 | one line of quantity 3 counts 3 items, not 1 |
| CartLines.KeysOf | src/contexts/CartContext.tsx:51-53 | the merge keys of the lines, position by position |
| CartLines.AddLineKeys | src/contexts/CartContext.tsx:48-67 | `addItem` appends its key exactly when it is new |
| CartLines.AddLineQuantity | src/contexts/CartContext.tsx:48-67 | `addItem` raises the summed quantity under its key by `quantity` and leaves every other key's unchanged |
| CartLines.AddAllKeys | src/contexts/CartContext.tsx:48-67 | after a run of `addItem`s the keys are the old keys followed by the new ones in first-seen order |
| CartLines.AddAllQuantity | src/contexts/CartContext.tsx:48-67 | after a run of `addItem`s each key's quantity is its old quantity plus all quantities added under it |
| CartLines.AddAllPreservesUnique | src/contexts/CartContext.tsx:48-67 | a run of `addItem`s keeps the keys distinct |
| CartLines.AdditionsFromEmpty | src/contexts/CartContext.tsx:48-67 | from an empty cart: distinct keys, one line per distinct key, and each key's quantity is the sum added under it |
| CartStorage.EncodeItem | src/contexts/CartContext.tsx:45 | a line serialises to a fixed-width token group holding no bracket |
| CartStorage.EncodeItems | src/contexts/CartContext.tsx:45 | the lines serialise to `ItemWidth` tokens per line |
| CartStorage.Serialize | src/contexts/CartContext.tsx:45 | the list is bracketed |
| CartStorage.DecodeItem | src/contexts/CartContext.tsx:35 | a decoded group re-encodes to the same tokens; decoding fails exactly on a kind mismatch |
| CartStorage.DecodeItems | src/contexts/CartContext.tsx:35 | decoded lines re-encode to the same tokens |
| CartStorage.Parse | src/contexts/CartContext.tsx:34-39 | whatever parses re-serialises to the same tokens |
| CartStorage.DecodeEncodeItems | src/contexts/CartContext.tsx:35-45 | decoding encoded lines gives them back |
| CartStorage.ParseSerialize | src/contexts/CartContext.tsx:35-45 | `parse(serialize(items)) == items` |
| CartStorage.SerializeParse | src/contexts/CartContext.tsx:35-45 | a parse that succeeds is inverted by `serialize` |
| CartStorage.CorruptDataRejected | src/contexts/CartContext.tsx:34-39 | a bracketed stream whose length is not a whole number of lines is rejected |
| CartContext.CartStore.Mount | src/contexts/CartContext.tsx:27-46 | mounting with valid stored data adopts it and leaves the storage as it was; otherwise the cart starts empty and `[]` is saved |
| CartContext.CartStore.LoadFromStorage | src/contexts/CartContext.tsx:31-41 | a present, non-empty value that parses replaces `items`; one that fails removes the key and keeps `items`; an absent or empty value changes nothing |
| CartContext.CartStore.Save | src/contexts/CartContext.tsx:44-46 | the storage maps `klassico_cart` to the serialised `items`, and nothing else changes |
| CartContext.CartStore.AddItem | src/contexts/CartContext.tsx:48-67 | `items` becomes `AddLine(old items, …)`, is saved, logs Added or QuantityUpdated, keeps distinct keys and positive quantities, and raises the item count by `quantity` |
| CartContext.CartStore.RemoveItem | src/contexts/CartContext.tsx:69-77 | `items` becomes `RemoveById(old items, id)`, is saved, logs Removed, and keeps both invariants |
| CartContext.CartStore.UpdateQuantity | src/contexts/CartContext.tsx:79-88 | `items` becomes `SetQuantity(old items, id, q)`, is saved with no notice, keeps distinct keys, and keeps quantities positive only when `q >= 1` |
| CartContext.CartStore.ClearCart | src/contexts/CartContext.tsx:90-93 | `items` becomes empty and is saved, Cleared is logged, and total and count are 0 |
| CartContext.CartStore.OnUserChange | src/contexts/CartContext.tsx:31-46 | re-running the load effect: valid data replaces `items` and the storage stays as it was; corrupt data removes the key and keeps `items`; an absent or empty value changes nothing |
| CartContext.CartStore.GetTotal | src/contexts/CartContext.tsx:95-100 | 0 for the empty cart, and non-negative under non-negative prices and positive quantities |
| CartContext.CartStore.GetItemCount | src/contexts/CartContext.tsx:102-104 | 0 for the empty cart, and at least the number of lines under positive quantities |
| CartDrawer.PressStep | src/components/Cart.tsx:81-107 | a press on a line not shown, and `-` on a line of quantity 1, change nothing |
| CartDrawer.PressKeepsInvariants | src/components/Cart.tsx:81-107 | every press keeps quantities at least 1 and keys distinct |
| CartDrawer.PressAllKeepsInvariants | src/components/Cart.tsx:81-107 | no run of presses drives a quantity below 1 or duplicates a key |
| CartDrawer.DecreaseLine | src/components/Cart.tsx:92-95 | `-` calls `updateQuantity(id, q - 1)` only when `q > 1`, so every size of the product drops to `q - 1`; otherwise nothing changes |
| CartDrawer.IncreaseLine | src/components/Cart.tsx:103 | `+` sets every size of the product to `q + 1` and saves |
| CartDrawer.RemoveLineAt | src/components/Cart.tsx:81 | `x` removes every size of the product, saves and logs Removed |
| CartDrawer.FooterSubtotal | src/components/Cart.tsx:123-127 | the footer shows exactly when the cart is non-empty, with `getTotal()` |
| CartDrawer.IncreaseRaisesEverySize | src/components/Cart.tsx:103 | `+` on size M of a product also raises its size L line |
| ProductDetails.OfferedSizes | src/pages/ProductDetails.tsx:121 | a product without sizes offers S, M, L, XL, XXL; a present list is used as it is |
| ProductDetails.RelatedAmong | src/pages/ProductDetails.tsx:40-42 | the first min(4, number of matches) other products of exactly the same category, in order: a prefix of the filtered list |
| ProductDetails.RelatedAreSubstringMatches | src/pages/ProductDetails.tsx:40-42 | every product related by exact category also contains the category as a substring |
| ProductDetails.ProductDetailsPage.Open | src/pages/ProductDetails.tsx:16-18 | no size, quantity 1, not wishlisted |
| ProductDetails.ProductDetailsPage.OnSlugChange | src/pages/ProductDetails.tsx:25-28 | a slug change resets size to `''` and quantity to 1; the wishlist flag stays |
| ProductDetails.ProductDetailsPage.SelectSize | src/pages/ProductDetails.tsx:161 | the chosen size is selected and nothing else changes |
| ProductDetails.ProductDetailsPage.DecreaseQuantity | src/pages/ProductDetails.tsx:184 | `-` lowers the quantity only while it is above 1, so it stays at least 1 |
| ProductDetails.ProductDetailsPage.IncreaseQuantity | src/pages/ProductDetails.tsx:192 | `+` raises the quantity by 1 |
| ProductDetails.ProductDetailsPage.HandleAddToCart | src/pages/ProductDetails.tsx:89-96 | refused, with the cart untouched, exactly when no size is selected; otherwise `addItem(product, quantity, size)`, saved, with the "added" or "quantity updated" notice; keeps the cart invariants, and every new line has a size |
| ProductDetails.ProductDetailsPage.ToggleWishlist | src/pages/ProductDetails.tsx:98-112 | without a user the page goes to `/auth` and the flag stays; with one the flag flips |
| ProductDetails.AddedLineHasSize | src/pages/ProductDetails.tsx:95 | every line `addItem` creates or touches carries the given size |
| Orders.PendingOrder | src/services/orderService.ts:27-35 | the order row carries the user's id, copies amount, address and payment method, and is "pending" |
| Orders.OrderItemRows | src/services/orderService.ts:45-51 | one row per item, in order, each with the new order id and the item's fields copied |
| Orders.OrderItemRowsRoundTrip | src/services/orderService.ts:45-51 | dropping `order_id` from each row gives back the items |
| Orders.OrdersWithId | src/services/orderService.ts:95-106 | `eq("id", orderId)` selects exactly the rows with that id |
| Orders.ItemsOf | src/services/orderService.ts:114-128 | `eq("order_id", orderId)` selects exactly the item rows of that order, each as often as in the table, as a subsequence of the table |
| Orders.ItemsOfAppend | src/services/orderService.ts:114-128 | the item query distributes over appended rows |
| Orders.OrderDetailsIn | src/services/orderService.ts:93-138 | `fetchOrderDetails` answers exactly when both queries answer and one row has the id; the answer is that row with its items |
| Orders.Backend.Empty | src/services/orderService.ts:27-55 | empty tables satisfy the key constraints |
| Orders.Backend.InsertOrder | src/services/orderService.ts:27-37 | the insert succeeds exactly when the table answers and the id is fresh; it then appends the row, and otherwise changes nothing |
| Orders.Backend.InsertOrderItems | src/services/orderService.ts:53-55 | the batch succeeds exactly when the table answers and every row names an existing order; it then appends all rows, otherwise none |
| Orders.OrdersWithIdConcat | src/services/orderService.ts:105 | the id query distributes over appended rows |
| Orders.AbsentIdFindsNothing | src/services/orderService.ts:105-111 | an unknown id selects no row, so `single()` fails |
| Orders.SingleOrderWithId | src/services/orderService.ts:105-106 | with distinct ids a stored id selects exactly one row |
| Orders.StoredOrderIsFound | src/services/orderService.ts:93-138 | with both queries answering, every stored order's details are found |
| Orders.CreateOrder | src/services/orderService.ts:18-63 | the result is `NotSignedIn` exactly without a user, `OrderInsertFailed` exactly when the order insert errs or the id is taken, `ItemsInsertFailed` when only the items insert errs, and `Created` exactly when both inserts succeed; the first two write nothing, the third leaves the pending order with no items, the last stores the order and one item row per item |
| Orders.FreshIdFindsAppended | src/services/orderService.ts:105-106 | a fresh id finds exactly the appended row |
| Orders.NoItemsForNewOrder | src/services/orderService.ts:114-128 | no item row names a fresh id |
| Orders.CreatedOrderReadsBack | src/services/orderService.ts:18-138 | after a successful `createOrder`, `fetchOrderDetails` returns the pending row with exactly the new item rows |
| Orders.OrphanedOrderHasNoItems | src/services/orderService.ts:53-60 | after a failed items insert, `fetchOrderDetails` returns the pending row with no items |
| Checkout.DefaultForm | src/pages/CheckoutPage.tsx:39-50 | default payment method "cod", one of the allowed three; the e-mail is the user's if known, else empty; every other field starts empty |
| Checkout.DefaultFormRejected | src/pages/CheckoutPage.tsx:17-50 | the default form fails the schema |
| Checkout.AddressNesting | src/pages/CheckoutPage.tsx:70 | the address template read as nested `", "` and `" - "` joins |
| Checkout.SplitComma | src/pages/CheckoutPage.tsx:70 | a split at the first `", "` re-joins to its input |
| Checkout.SplitDash | src/pages/CheckoutPage.tsx:70 | a split at the first `" - "` re-joins to its input |
| Checkout.SplitCommaOf | src/pages/CheckoutPage.tsx:70 | a join whose left part has no comma splits back into its parts |
| Checkout.SplitDashOf | src/pages/CheckoutPage.tsx:70 | a join whose left part has no `-` splits back into its parts |
| Checkout.ParseShippingAddress | src/pages/CheckoutPage.tsx:70 | whatever parses is rebuilt exactly by the template |
| Checkout.ShippingAddressRoundTrip | src/pages/CheckoutPage.tsx:70 | the template is invertible while address and city hold no comma and state holds no `-` |
| Checkout.ShippingAddressAmbiguous | src/pages/CheckoutPage.tsx:70 | with a comma in the address, two different forms give the same string |
| Checkout.Digit | src/pages/CheckoutPage.tsx:78 | a digit value maps to a character `0`-`9` |
| Checkout.NatToString | src/pages/CheckoutPage.tsx:78 | `toString` of a natural number is a digit string |
| Checkout.IntToString | src/pages/CheckoutPage.tsx:78 | `toString` of an integer is non-empty |
| Checkout.ParseNatToString | src/pages/CheckoutPage.tsx:78 | reading the digits back gives the number |
| Checkout.IntToStringRoundTrip | src/pages/CheckoutPage.tsx:78 | the product id string parses back to the id |
| Checkout.IntToStringInjective | src/pages/CheckoutPage.tsx:78 | distinct ids give distinct `product_id` strings |
| Checkout.OrderItemsFromCart | src/pages/CheckoutPage.tsx:77-82 | one order item per cart line, in order, with the id as a string that parses back, the quantity, the size and the unit price |
| Checkout.OrderItemsMatchTotal | src/pages/CheckoutPage.tsx:74-82 | the items' Σ price × quantity equals `getTotal()` |
| Checkout.BuildOrderInput | src/pages/CheckoutPage.tsx:73-83 | total is `getTotal()`, which equals the items' sum; the address is the template; the payment method is copied; one item per line |
| Checkout.CheckoutRedirect | src/pages/CheckoutPage.tsx:53-63 | `/auth` exactly when loading has finished without a user; otherwise `/` exactly when the cart is empty; no redirect exactly in the remaining case |
| Checkout.CheckoutPage.Open | src/pages/CheckoutPage.tsx:35 | not submitting, no navigation, no notices |
| Checkout.CheckoutPage.BeginSubmit | src/pages/CheckoutPage.tsx:17-29 | a submission starts exactly when none is running and the schema accepts the form, and then raises `isSubmitting` |
| Checkout.CheckoutPage.Settle | src/pages/CheckoutPage.tsx:84-98 | on success, clear the cart and go to `/orders`; on failure, keep the cart and report; either way drop `isSubmitting` |
| Checkout.CheckoutPage.Submit | src/pages/CheckoutPage.tsx:65-99 | no effect while submitting or on an invalid form; otherwise the outcome follows the user and the two inserts as in `createOrder`; success stores the order with one row per line, whose amounts sum to the total, empties the cart and goes to /orders; any failure keeps the cart; a failed items insert leaves the order row without items |
| Admin.Lower | src/pages/AdminDashboard.tsx:199 | upper-case ASCII letters become lower-case, all other characters stay |
| Admin.LowerAll | src/pages/AdminDashboard.tsx:199 | `toLowerCase` maps each character |
| Admin.LowerAllFixed | src/pages/AdminDashboard.tsx:199 | text without upper-case letters is unchanged |
| Admin.StripNonWord | src/pages/AdminDashboard.tsx:200 | exactly the word characters and spaces remain, and the text does not grow |
| Admin.StripNonWordIsFilter | src/pages/AdminDashboard.tsx:200 | the deletion is `filter` on word characters and spaces: the survivors keep their order and multiplicities |
| Admin.StripNonWordKeepsAll | src/pages/AdminDashboard.tsx:200 | text of word characters and spaces is unchanged |
| Admin.StripNonWordDrops | src/pages/AdminDashboard.tsx:200 | one character outside `[A-Za-z0-9_ ]` makes the text shorter |
| Admin.DropSpaces | src/pages/AdminDashboard.tsx:201 | the rest of a run of spaces starts with no space and uses only characters of the input |
| Admin.CollapseSpaces | src/pages/AdminDashboard.tsx:201 | `replace(/ +/g, "-")`: no space remains, only `-` is added, and no `--` appears when the input had no `-` |
| Admin.CollapseWithoutSpaces | src/pages/AdminDashboard.tsx:201 | text without spaces is unchanged |
| Admin.CollapseAfterWord | src/pages/AdminDashboard.tsx:201 | a word followed by a run of spaces becomes the word followed by one `-` |
| Admin.DropSpacesRun | src/pages/AdminDashboard.tsx:201 | skipping a run of spaces reaches exactly what follows it |
| Admin.GenerateSlug | src/pages/AdminDashboard.tsx:197-202 | the slug has only characters of `[a-z0-9_-]`, no space and no `--`, and is no longer than the name |
| Admin.GenerateSlugValue | src/pages/AdminDashboard.tsx:197-202 | the slug is the lower-cased name, filtered to word characters and spaces, with each run of spaces made one `-` |
| Admin.HyphenIsDeleted | src/pages/AdminDashboard.tsx:200 | `generateSlug("a-b") == "ab"` |
| Admin.OuterSpacesBecomeHyphens | src/pages/AdminDashboard.tsx:201 | `generateSlug(" a ") == "-a-"` |
| Admin.NotIdempotent | src/pages/AdminDashboard.tsx:197-202 | `generateSlug` applied to `"a-b"`, its own output for `"a b"`, gives `"ab"` |
| Admin.FixedPoints | src/pages/AdminDashboard.tsx:197-202 | the names the generator leaves unchanged are exactly the strings over `[a-z0-9_]` |
| Admin.WordCharGivesNonEmptySlug | src/pages/AdminDashboard.tsx:197-202 | a name with a letter, digit or underscore gives a non-empty slug |
| Admin.PunctuationGivesEmptySlug | src/pages/AdminDashboard.tsx:200 | a name of punctuation alone gives the empty slug |
| Admin.NextProductSlug | src/pages/AdminDashboard.tsx:209-216 | the slug is regenerated when empty, equal to the edited product's slug, or equal to the slug of the edited product's name; otherwise it stays |
| Admin.NewProductSlugFreezes | src/pages/AdminDashboard.tsx:209-216 | for a new product, once the first keystroke gives a non-empty slug, no later name change alters it |
| Admin.NewProductSlugCounterexample | src/pages/AdminDashboard.tsx:209-216 | typing `a` then `ab` leaves the slug `a`, not `ab` |
| Admin.NextProductSlugTracking | src/pages/AdminDashboard.tsx:209-216 | the same three conditions with the previous name in place of the edited product's: the slug is regenerated when empty, equal to the edited product's slug or to the slug of the previous name; otherwise it stays |
| Admin.TrackingFollowsName | src/pages/AdminDashboard.tsx:209-216 | with that comparison, a generated slug equals the slug of the last name after any sequence of edits |
| Admin.ProductForm.Open | src/pages/AdminDashboard.tsx:112-126 | the dialog starts with the edited product's name and slug, or empty ones |
| Admin.ProductForm.OnNameChange | src/pages/AdminDashboard.tsx:205-217 | the name is set and the slug follows the rule as written |
| Admin.ProductForm.OnNameChangeTracking | src/pages/AdminDashboard.tsx:205-217 | the corrected handler: a slug generated from the old name is regenerated from the new one |
| Admin.NextCategorySlug | src/pages/AdminDashboard.tsx:224-227 | the category slug is filled in from the name only while empty |
| Admin.CategoryForm.Open | src/pages/AdminDashboard.tsx:79-88 | the category form starts with every field empty, the image field included |
| Admin.CategoryForm.OnNameChange | src/pages/AdminDashboard.tsx:220-228 | the name is set and the slug is filled in only while empty; description and image stay |
| Admin.CategorySlugSticks | src/pages/AdminDashboard.tsx:224-227 | once the category slug is non-empty, no sequence of name changes alters it |
| Admin.SchemaRejections | src/pages/AdminDashboard.tsx:40-48 | the default product values (price 0, empty fields) fail `productSchema`, and so does a product whose slug was generated from punctuation |
| Admin.GeneratedCategorySlugAccepted | src/pages/AdminDashboard.tsx:50-55 | a category named with a word character, whose slug was generated from its name and whose image URL the validator accepts, passes `categorySchema` |
| Admin.EmptyCategoryImageRejected | src/pages/AdminDashboard.tsx:54 | with the image field left as the form opens it (`""`), `categorySchema` rejects the category whatever the name, slug and validator say |
| Admin.EmptyCategoryImageAccepted | src/pages/AdminDashboard.tsx:50-55 | the schema that reads `""` as no image accepts a category named with a word character, its generated slug and an empty image field |

## Left out

- JSON text is not modelled. The stored cart is a token stream, and `JSON.stringify`/`JSON.parse` become `Serialize`/`Parse`.
- CartContext.CartStore.LoadFromStorage: the source's `JSON.parse` accepts any well-formed JSON and installs it as the cart whatever its shape. The model's `Parse` rejects a stream that is not a list of cart lines and treats it like text that does not parse.
- Toast messages are recorded only as a log naming which mutation fired (`Notice`, `CheckoutNotice`). Their text is not modelled.
- React effect scheduling, state batching, `StrictMode` double effects and async interleaving are not modelled. Each cart operation and `onSubmit` is one sequential step, and the save effect runs at the end of every mutator.
- CartLines.AddLine: `updatedItems[i].quantity += quantity` (src/contexts/CartContext.tsx:58) mutates the line object that the previous state array shares. The model builds a new value, so that aliasing is not captured.
- The remote service is not modelled. `auth.getUser` is the `user` parameter; each table call's success or failure is an `Outcome` parameter; the id the database assigns is the `newId` parameter.
- The remote tables are ordinary fields of `Orders.Backend`, not ghost state, because the order-details query returns their rows.
- Orders.OrderDetailsIn: only order rows and item rows are modelled. The column selection, `created_at`, item ids and the join on `products` are left out.
- Orders.ItemsOf: the items query has no ordering clause, so the server may return the rows in any order. The model returns them in insertion order; `Orders.CreatedOrderReadsBack` pins that order only because of this choice.
- `fetchUserOrders` is left out: it is server-side filtering and ordering.
- src/services/productService.ts is not part of this model. `fetchProductBySlug` and `fetchProducts` become parameters of the product page.
- Checkout.ValidCheckoutForm: the zod e-mail regex is not modelled; its verdict is the `emailValid` parameter.
- Admin.UrlAccepted: URL validation is not modelled beyond the empty string, which is never a URL; on other text its verdict is the `imageUrlValid` parameter.
- `z.coerce.number` is not modelled: prices are integers.
- Unicode is not modelled. `toLowerCase`, `toUpperCase` and `\w` work on ASCII only.
- Checkout.IntToString: `Number.prototype.toString` is modelled for integer ids only.
- Not part of this model:
  - the auth, profile, orders and index pages and the admin dashboard's submit, delete and fetch handlers, which are remote calls or presentation;
  - the navigation bar, footer, hero, layout, banners, product card, newsletter and not-found page;
  - the product page's loading state and share button.

## Findings

| source | as written | input that shows it | evidently intended | confidence | as-written member | corrected member |
|---|---|---|---|---|---|---|
| src/components/NavBar.tsx:47 | the navigation links to `/kurtis` and `/blazers`, and CategoryPage looks the route up with `getProductsByCategory(category)` (src/pages/CategoryPage.tsx:13) | route `kurtis`: no catalogue tag contains "kurtis" | the plural aliases that `formatCategoryName` accepts list the kurti and blazer products | not executed | CategoryPage.PluralRoutesListNothing | CategoryPage.AliasedPageProducts |
| src/data/products.ts:111 | category matching is a substring test on the comma-joined string | `getProductsByCategory("men")` returns product 1, "women,kurti" | "men" selects the products tagged "men" | not executed | Catalog.WomensKurtiListedUnderMen | Catalog.ProductsByTag |
| src/pages/AdminDashboard.tsx:211-214 | the slug is regenerated only if it equals the slug of the edited product's name, not of the name typed before | new product, type `a` then `ab`: slug stays `a` | the slug follows the name until it is edited by hand | not executed | Admin.NewProductSlugCounterexample | Admin.NextProductSlugTracking |
| src/pages/AdminDashboard.tsx:54 | `image_url: z.string().url().optional()`, while the category form opens with `image_url: ""` (src/pages/AdminDashboard.tsx:85, 326) bound to a plain text input | a new category with a name, its generated slug and the image field left empty is rejected: `""` is not a URL, and `optional()` admits only an absent value | the image is optional, so an empty field counts as no image | not executed; rests on zod's documented behaviour | Admin.EmptyCategoryImageRejected | Admin.EmptyCategoryImageAccepted |

Each row is backed by lemmas:

- The men/women row: `Catalog.MenMatchesWomen` and `FeaturedTabs.WomenTaggedShownOnMenTab` show the same substring effect on the home page's `men` tab. `Catalog.MenTagExcludesWomen` proves that whole-tag matching removes it.
- The plural-route row: `CategoryPage.NamedRoutesListProducts` proves that every named route lists products once the alias is applied.
- The slug row: `Admin.TrackingFollowsName` proves the corrected rule, and `Admin.ProductForm.OnNameChangeTracking` is the corrected handler.
- The category-image row: `Admin.EmptyCategoryImageRejected` shows the as-written schema rejecting the form's default image, and `Admin.EmptyCategoryImageAccepted` shows `Admin.ValidCategoryEmptyImageAllowed`, the schema that reads `""` as no image, accepting it; `Admin.GeneratedCategorySlugAccepted` proves that both accept a category with a valid URL.
