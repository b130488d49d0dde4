# Savia storefront rules in Dafny

This project models the business rules of the Savia storefront, a Next.js
shop for a health-food store. Products live in a Firebase database. Customers
fill a cart and send the order as a WhatsApp message. The admin pages
edit, filter, import and export the catalogue. The model covers:

- the cart store and its time-limited saved copy (`CartContext`);
- the price, discount and amount rules of the three public product views
  (`RecommendedProducts`, `CategoryProducts`, `WeeklyOffers`) and of the
  admin product table;
- shipping, totals, phone normalisation and the order message of the cart
  drawer and the cart page;
- the catalogue service: `slugify`, `mapProduct`, the validation and the
  payloads of `createProduct`/`updateProduct`, the newest-first listing and
  the offer lists;
- the three product forms (new product, edit form, shared form component);
- the store-data service and page: the seven-day opening hours, bulk editing
  and the dotted-path update of the form;
- the admin lists (home page and the two product lists): filters, sorts,
  delete, merge-on-edit and the Excel export rows;
- the spreadsheet import: the column check, the row mapping and the
  sequential import loop;
- the sitemap.

JavaScript values are modelled by `JsValue.Value`: undefined, null,
booleans, numbers as exact reals, strings, arrays and objects. `Number(...)`
results are `JsValue.Number`: finite, NaN or ±Infinity. Truthiness, `||`,
`??`, `Number(x)` on strings (decimal, exponent, hexadecimal, octal and
binary literals, "Infinity") and comparisons follow the language. Numbers
are exact reals and `Math.round(x)` is ⌊x + ½⌋. The database, the clock,
`Math.random`, `localStorage` and the money formatter enter the model as
parameters: a snapshot value, a `now` integer, draw indexes, a stored value
and a `fmt` function. Writes are the payloads returned.

Components whose state the source updates in place are classes with
`modifies` clauses: the cart, the amount maps of the product views and the
store-data form. Loops of the source are `while` loops with invariants:
the shuffle, the message builders, the hour normalisation, the dotted-path
walk, the bulk apply, the filter chains and the import. Most methods are
proved equal to a specification function, and the properties of those
functions are lemmas. The shuffle and the recommendation are not: the
shuffle is proved to return a permutation of its input, and the
recommendation a prefix of that permutation of at most the requested
length.

The store-data form is held as a value, so one day of the schedule can
never share an object with another. `DatosSharing` models the schedule as
objects instead, to show what sharing does after a bulk apply (see
Findings).

Modules, one per source file, plus the shared `JsText` (strings), `JsValue`
(values), `Lists` (filter and subsequence) and `Sorting` (the stable sort
that `Array.prototype.sort` is):

| module | source |
|---|---|
| CartContext | src/context/CartContext.jsx |
| Pricing | the rounding and percentage rules shared by the product views |
| RecommendedProducts | src/_components/RecommendedProducts/RecommendedProducts.jsx |
| CategoryProducts | src/_components/productosporcategoria/CategoryProducts.jsx |
| WeeklyOffers | src/_components/Offers/WeeklyOffers.jsx |
| OrderSummary | the message pieces shared by the two cart views |
| CartDrawer | src/_components/Cart/CartDrawer.jsx |
| CarritoPage | src/app/carrito/page.jsx |
| LocalService | src/services/localService.js |
| DatosPage | src/app/root/datos/page.jsx |
| DatosSharing | src/app/root/datos/page.jsx (the schedule as shared objects) |
| ProductsService | src/services/productsService.js |
| NuevoPage | src/app/root/productos/nuevo/page.jsx |
| EditProductForm | src/app/root/productos/ProductForm.jsx |
| ProductForm | src/_components/Root/Products/ProductForm.jsx |
| RootPage | src/app/root/page.jsx |
| TodosProductosClient | src/app/root/productos/todos-los-productos/ProductosRootClient.jsx |
| ProductosClient | src/app/root/productos/ProductosRootClient.jsx |
| ProductTable | src/_components/Root/Products/ProductTable.jsx |
| ExcelService | src/services/excelService.js |
| ImportPage | src/app/root/productos/importar/page.jsx |
| Sitemap | src/app/sitemap.js |

The variants are modelled as written, not unified: the read and write paths
of `tipoVenta` differ, `CategoryProducts` applies any offer while the
recommendations check it, `WeeklyOffers` uses `||` where the
recommendations use `??`, and `localService` defaults Sunday to open while
the store-data page defaults it to closed.

## Model

| member | source | states |
|---|---|---|
| ProductsService.RemoveDiacritics | src/services/productsService.js:9-10 | the decomposed text without combining marks (U+0300 to U+036F), never longer than the input |
| ProductsService.RemoveDiacriticsOfAscii | src/services/productsService.js:9-10 | text below U+0080 passes through unchanged |
| ProductsService.LowerCaseUnchanged | src/services/productsService.js:11 | lower-casing leaves text without capitals as it is |
| ProductsService.DashSpaces | src/services/productsService.js:12 | no white space is left after runs of it become dashes |
| ProductsService.DashSpacesWithoutSpaces | src/services/productsService.js:12 | text without white space is unchanged |
| ProductsService.DashSpacesBetween | src/services/productsService.js:12 | one space between two words becomes exactly one dash |
| ProductsService.KeepSlugChars | src/services/productsService.js:13 | only a-z, 0-9 and "-" are left, and the text never grows |
| ProductsService.KeepSlugCharsExact | src/services/productsService.js:13 | the kept text is a subsequence of the input holding each slug character exactly as often as the input does |
| ProductsService.KeepSlugCharsOfSlug | src/services/productsService.js:13 | a text made of slug characters is unchanged |
| ProductsService.Slugify | src/services/productsService.js:7-14 | the slug contains only a-z, 0-9 and "-" |
| ProductsService.SlugifyIdempotent | src/services/productsService.js:7-14 | the slug of a slug is itself |
| ProductsService.SlugifyTwoWords | src/services/productsService.js:7-14 | two space-separated words are slugged word by word and joined by one dash |
| ProductsService.SlugifyEmpty | src/services/productsService.js:8 | a missing or empty name gives the empty slug |
| ProductsService.StoredTipoVenta | src/services/productsService.js:39-40 | the read path gives "u" exactly for the stored strings "u" and "unidad", case-sensitive, and "kg" otherwise |
| ProductsService.NormalizeTipoVenta | src/services/productsService.js:101-105 | the write path always gives "u" or "kg" |
| ProductsService.NormalizeTipoVentaOfText | src/services/productsService.js:101-105 | a text gives "u" exactly when its lower-case form is "u" or "unidad" |
| ProductsService.NormalizeTipoVentaIgnoresCase | src/services/productsService.js:101-105 | capitals make no difference on the write path |
| ProductsService.NormalizeTipoVentaMissing | src/services/productsService.js:101 | a null or undefined sale mode is "kg" |
| ProductsService.StoredTipoVentaStricter | src/services/productsService.js:39-40 | whatever the read path takes for "u", the write path takes for "u" as well |
| ProductsService.StoredTipoVentaIsCaseSensitive | src/services/productsService.js:39-40 | the converse fails: "Unidad" is written as "u" but read back from storage as "kg" |
| ProductsService.NormalizedTipoVentaReadsBack | src/services/productsService.js:104-105 | the sale mode the write path stores reads back unchanged |
| ProductsService.RecordOf | src/services/productsService.js:17-43 | the stored object's properties as read with data.x, price and offer among them |
| ProductsService.TextOr | src/services/productsService.js:19-20 | a string is kept and a falsy value becomes "" |
| ProductsService.CategoryName | src/services/productsService.js:21 | categoriaNombre when truthy, else categoria when truthy, else "" |
| ProductsService.StoredPrice | src/services/productsService.js:25-28 | a number is kept; otherwise Number(x), with NaN giving 0 (and a text reading as an infinity giving 0, see Left out) |
| ProductsService.StoredOffer | src/services/productsService.js:29-34 | a number is kept; null, undefined and "" give null; otherwise Number(x), with 0 and NaN giving null (and a text reading as an infinity giving null, see Left out) |
| ProductsService.Normalize | src/services/productsService.js:17-43 | the normalised product: the key as id, the category name and the slug fallback, disponible true unless boolean, the case-sensitive sale mode, the stored price and offer |
| ProductsService.MapProduct | src/services/productsService.js:17-43 | mapProduct is the normalisation of the stored object's properties |
| ProductsService.NormalizeDefaults | src/services/productsService.js:25-42 | an object without those properties reads as an available "kg" product with price 0, no offer, no offer flags and a null creation time |
| ProductsService.NormalizeDefaultTexts | src/services/productsService.js:19-24 | and its name, category name and slug are all empty |
| ProductsService.ToRecord | src/services/productsService.js:17-43 | the normalised product as the object the admin pages hold: the id as a string, price and offer as numbers or null, no categoria |
| ProductsService.NormalizeOfRecord | src/services/productsService.js:17-43 | normalising an already normalised product gives the same product back |
| ProductsService.OfferInput | src/services/productsService.js:72-75 | no offer exactly when the submitted offer is "", null or undefined |
| ProductsService.ValidatePrices | src/services/productsService.js:71-89 | an error is one of the two messages; on success the price is finite and positive, and the offer is kept only when finite |
| ProductsService.ValidatePricesRejects | src/services/productsService.js:77-89 | both directions of each rejection: a non-finite or non-positive price, or else a finite offer at or above the price |
| ProductsService.ValidatedOfferBelowPrice | src/services/productsService.js:81-89 | an accepted offer is strictly below the accepted positive price |
| ProductsService.ValidatePricesOfTypedPrice | src/services/productsService.js:71-89 | a price typed as a positive whole number is accepted, and a non-numeric offer is dropped, not rejected |
| ProductsService.CommonPayload | src/services/productsService.js:107-125 | the written fields: the validated price, the time as updatedAt, the flags coerced with !!, the lower-cased sale mode |
| ProductsService.CreateProduct | src/services/productsService.js:70-129 | fails exactly when validation fails, with its message; on success writes the fresh key, both time stamps and disponible as a boolean (false when missing) |
| ProductsService.UpdateProduct | src/services/productsService.js:132-185 | fails exactly when validation fails; on success writes neither the key nor the creation time |
| ProductsService.UpdateIsCreateWithoutIdentity | src/services/productsService.js:132-185 | update accepts what create accepts and writes what create writes, less id and createdAt |
| ProductsService.CreatedProductReadsBack | src/services/productsService.js:70-129 | a created product read back through mapProduct has the validated price and offer, the normalised sale mode, the coerced flags and the creation time |
| ProductsService.CreatedKey | src/services/productsService.js:56 | `createdAt || 0`: a falsy creation time is 0, a numeric one is itself |
| ProductsService.NewerFirst | src/services/productsService.js:56 | on numeric creation times a product may stay before another exactly when it is not older; a NaN creation time ties with every product |
| ProductsService.NewerFirstOnNumericDates | src/services/productsService.js:56 | on products whose creation times read as numbers, a missing one as 0, the comparator is a total preorder |
| ProductsService.NewerFirstNotTransitiveWithNaN | src/services/productsService.js:56 | with a creation time "x" between ones of 5 and 7 the comparator is not transitive |
| ProductsService.MapEntries | src/services/productsService.js:54-55 | each snapshot entry mapped by mapProduct, in order |
| ProductsService.GetProducts | src/services/productsService.js:46-57 | no snapshot gives the empty list; otherwise one product per entry |
| ProductsService.GetProductsNewestFirst | src/services/productsService.js:54-56 | the list is a permutation of the mapped entries, sorted newest first when every creation time reads as a number |
| ProductsService.UndatedKeepOrder | src/services/productsService.js:54-56 | products whose creation time reads as NaN keep their snapshot order among themselves |
| ProductsService.TextDateUndated | src/services/productsService.js:41 | a product stored with the creation time "x" reads it as NaN in the comparator |
| ProductsService.UndatedStaysFirst | src/services/productsService.js:54-56 | of two entries, one whose creation time reads as NaN stays first |
| ProductsService.NaNDateKeepsPlace | src/services/productsService.js:54-56 | entries created at "x" and at 5 come back in the snapshot's order |
| ProductsService.GeneralOffers | src/services/productsService.js:194-197 | every listed product has the general offer flag and is available |
| ProductsService.WeeklyOffers | src/services/productsService.js:200-203 | every listed product has the weekly offer flag and is available |
| ProductsService.OfferListsExact | src/services/productsService.js:194-203 | both offer lists hold exactly the flagged, available products, as subsequences of the catalogue |
| JsValue.Coalesce | src/services/productsService.js:41-42 | a ?? b is b exactly when a is null or undefined |
| JsValue.Or | src/services/productsService.js:19-20 | a \|\| b is a when a is truthy, else b |
| JsValue.Truthy | src/services/productsService.js:19-20 | null and undefined are falsy, arrays and objects truthy, and a number is truthy exactly when it is not 0 |
| JsValue.ToNumber | src/services/productsService.js:25-28 | Number(x) of a number is that number; only a text (or an array holding one) can read as an infinity |
| JsValue.StringToNumber | src/services/productsService.js:27 | Number(text) is an infinity exactly for "Infinity", "+Infinity" and "-Infinity" after trimming, negative only for the last |
| JsValue.NumberOf | src/services/productsService.js:71 | Number(x) held as a value reads back as the same number |
| JsValue.Round | src/_components/RecommendedProducts/RecommendedProducts.jsx:164-165 | Math.round gives the integer within one half of x, halves rounded up |
| JsValue.RoundMonotone | src/_components/Offers/WeeklyOffers.jsx:53-58 | rounding preserves order |
| JsValue.WordReadsAsNaN | src/services/productsService.js:56 | a text that is not a numeral, such as "x", reads as NaN in a subtraction |
| JsValue.ParseNatStr | src/app/root/productos/nuevo/page.jsx:105 | Number of the decimal text of a natural number is that number |
| JsValue.GreaterOrEqualOrders | src/app/root/page.jsx:100-114 | on numbers other than NaN, >= is total and transitive, and a positive difference is its strict part |
| Sorting.SortBy | src/services/productsService.js:56 | the sorted list is as long as its input (its contents and order are the lemmas below) |
| Sorting.SortByPermutes | src/services/productsService.js:56 | sorting returns a permutation of its input |
| Sorting.SortBySorted | src/services/productsService.js:56 | with a total preorder as comparator the result is sorted |
| Sorting.SortBySortedOn | src/app/root/productos/todos-los-productos/ProductosRootClient.jsx:105-106 | the result is sorted when the comparator is a preorder on the values the list holds |
| Sorting.SortBySortedIsIdentity | src/services/productsService.js:56 | an already sorted list is unchanged |
| Sorting.InsertFilter | src/services/productsService.js:56 | inserting an element that no kept element precedes puts it first among the kept elements and keeps their order |
| Sorting.SortByKeepsOrderOf | src/services/productsService.js:56 | the elements of any set the comparator ties together leave the sort in their input order |
| Sorting.SortByStable | src/services/productsService.js:56 | the sort is stable: with a transitive comparator, the elements tied with any given one keep their input order |
| Sorting.SortByKeepsAll | src/app/root/page.jsx:100-114 | every property all input elements have, all sorted elements have |
| Lists.Filter | src/services/productsService.js:196 | only kept elements remain, and the result is no longer than the input |
| Lists.FilterMembership | src/services/productsService.js:196 | an element is in the result exactly when it is in the input and kept |
| Lists.FilterIsSubsequence | src/services/productsService.js:196 | the result is a subsequence of the input |
| Lists.FilterFilter | src/app/root/productos/ProductosRootClient.jsx:64-71 | two successive filters keep what their conjunction keeps |
| Lists.FilterCommutes | src/app/root/productos/ProductosRootClient.jsx:64-71 | two successive filters can be applied in either order |
| Lists.Narrow | src/app/root/productos/ProductosRootClient.jsx:64-71 | one `if (active) result = result.filter(g)` step turns the list kept by one predicate into the list kept by that predicate and, when active, g |
| CartContext.LoadCartWithTTL | src/context/CartContext.jsx:19-47 | nothing stored gives the empty cart; a bare array is returned as is; a removal of the stored entry always comes with an empty cart |
| CartContext.SavedCartExpiresAfterTtl | src/context/CartContext.jsx:41-46 | a cart saved at time t loads back unchanged up to and including t + 3 h, and is removed and empty after it |
| CartContext.CorruptEnvelopeIsRemoved | src/context/CartContext.jsx:35-39 | an envelope whose items are not an array or whose expiry is not a number is removed and gives the empty cart |
| CartContext.Bump | src/context/CartContext.jsx:95-97 | only the lines with the slug change, by the given quantity; length and order are kept |
| CartContext.AddLine | src/context/CartContext.jsx:90-101 | an existing slug raises that line; a new slug is appended with quantity 1 |
| CartContext.AddExistingIncrements | src/context/CartContext.jsx:94-97 | adding an existing slug raises only that line by one; the length and every other line stay |
| CartContext.AddNewAppends | src/context/CartContext.jsx:100 | adding a new slug appends the product at the end with quantity exactly 1, whatever quantity it carried |
| CartContext.DecreaseLine | src/context/CartContext.jsx:107-113 | every line left has a positive quantity |
| CartContext.DecreaseOnlyDropsTarget | src/context/CartContext.jsx:107-113 | when all quantities were positive, only the target slug's line can disappear; every other line survives unchanged and in order |
| CartContext.BumpOneLine | src/context/CartContext.jsx:109-111 | with unique slugs, lowering the slug's quantity changes its one line and no other |
| CartContext.DecreaseAboveOne | src/context/CartContext.jsx:107-113 | a line with quantity above 1 stays at its place with one less, the rest unchanged |
| CartContext.WithoutLine | src/context/CartContext.jsx:107-113 | with unique slugs, removing a line removes its slug from the cart |
| CartContext.DecreaseAtOne | src/context/CartContext.jsx:107-113 | a line with quantity 1 disappears, the others stay unchanged and in order, and the slug is gone |
| CartContext.DecreaseTarget | src/context/CartContext.jsx:107-113 | in a cart of positive quantities and unique slugs: above 1 the target line loses one in place, at 1 it is removed and the slug is gone; every other line is unchanged and the item count drops by exactly one |
| CartContext.DecreaseAbsent | src/context/CartContext.jsx:107-113 | decreasing a slug not in a cart of positive quantities leaves the cart unchanged |
| CartContext.RemoveLine | src/context/CartContext.jsx:118-120 | no line with the slug is left |
| CartContext.RemoveLineExact | src/context/CartContext.jsx:118-120 | exactly the lines with another slug remain, in their original order |
| CartContext.AddKeepsUnique | src/context/CartContext.jsx:90-101 | adding keeps the slugs unique |
| CartContext.DecreaseKeepsUnique | src/context/CartContext.jsx:107-113 | decreasing keeps the slugs unique |
| CartContext.RemoveKeepsUnique | src/context/CartContext.jsx:118-120 | removing keeps the slugs unique |
| CartContext.TotalItemsAppend | src/context/CartContext.jsx:135-138 | the item count of two runs of lines is the sum of their counts |
| CartContext.TotalPriceAppend | src/context/CartContext.jsx:143-146 | the price total of two runs of lines is the sum of their totals |
| CartContext.TotalItemsBounds | src/context/CartContext.jsx:135-138 | with positive quantities the item count is at least the number of lines; with non-negative ones it is not negative |
| CartContext.TotalPriceNonNegative | src/context/CartContext.jsx:143-146 | with non-negative quantities and prices the price total is not negative |
| CartContext.BumpItems | src/context/CartContext.jsx:95-138 | raising the lines with a slug by d raises the item count by d for each such line |
| CartContext.BumpPrice | src/context/CartContext.jsx:95-146 | raising the lines with a slug by d raises the price total by d times those lines' unit prices |
| CartContext.AddRaisesTotals | src/context/CartContext.jsx:90-146 | on a cart with unique slugs, every add raises the item count by one and the total by the price of the raised or appended line |
| CartContext.RemoveSubtractsQuantity | src/context/CartContext.jsx:118-138 | removing a slug takes exactly its quantity off the item count |
| CartContext.CartStore.constructor | src/context/CartContext.jsx:49-63 | the lines come through the expiry gate, a saved delivery method replaces "retiro", and the save effects write both back |
| CartContext.CartStore.Persist | src/context/CartContext.jsx:68-77 | the save writes the lines with expiresAt = now + 10 800 000 ms and changes nothing else |
| CartContext.CartStore.AddToCart | src/context/CartContext.jsx:90-102 | the new lines are the added lines, slugs stay unique, and the saved copy follows |
| CartContext.CartStore.DecreaseQty | src/context/CartContext.jsx:107-113 | the new lines are the decreased lines, slugs stay unique, and the saved copy follows |
| CartContext.CartStore.RemoveFromCart | src/context/CartContext.jsx:118-120 | the new lines are the other slugs' lines, slugs stay unique, and the saved copy follows |
| CartContext.CartStore.ClearCart | src/context/CartContext.jsx:125-130 | the cart is empty, and the save effect that follows writes an empty cart back |
| CartContext.CartStore.SetDeliveryMethod | src/context/CartContext.jsx:82-85 | the method changes and is saved; the cart is untouched |
| Pricing.PercentOffWithin | src/_components/RecommendedProducts/RecommendedProducts.jsx:191-193 | an offer strictly between 0 and the price is a discount of 0 to 100 percent |
| Pricing.PercentOffOfNoSaving | src/_components/productosporcategoria/CategoryProducts.jsx:95-97 | an offer at or above a positive price is no discount at all |
| Pricing.ScaledRoundMonotone | src/_components/RecommendedProducts/RecommendedProducts.jsx:164-165 | rounded prices grow with the amount and are never negative |
| Pricing.PercentOff | src/_components/RecommendedProducts/RecommendedProducts.jsx:191-193 | an offer equal to the price is 0 percent off, an offer of 0 is 100 percent off |
| RecommendedProducts.Draw | src/_components/RecommendedProducts/RecommendedProducts.jsx:27 | Math.floor(Math.random() * n) is an index below n |
| RecommendedProducts.SwapPermutes | src/_components/RecommendedProducts/RecommendedProducts.jsx:28 | swapping two entries keeps the multiset |
| RecommendedProducts.ShuffleArray | src/_components/RecommendedProducts/RecommendedProducts.jsx:24-31 | a fresh array of the input's length holding a permutation of it, for every sequence of draws; the argument is untouched |
| RecommendedProducts.SliceEnd | src/_components/RecommendedProducts/RecommendedProducts.jsx:115 | where slice(0, limit) stops, negative limits counted from the end |
| RecommendedProducts.Recommend | src/_components/RecommendedProducts/RecommendedProducts.jsx:112-118 | the shown products are available catalogue products, at most the limit, a sub-multiset of the available ones |
| RecommendedProducts.GetTipoVenta | src/_components/RecommendedProducts/RecommendedProducts.jsx:81-84 | the card's sale mode is "u" or "kg" |
| RecommendedProducts.GetTipoVentaOfMapped | src/_components/RecommendedProducts/RecommendedProducts.jsx:81-84 | on a product read through mapProduct the card's sale mode is the stored one |
| RecommendedProducts.ParsePrecio | src/_components/RecommendedProducts/RecommendedProducts.jsx:86-89 | Number(v) when finite, else 0 |
| RecommendedProducts.BasePrice | src/_components/RecommendedProducts/RecommendedProducts.jsx:91-92 | the charged base is the offer exactly when the offer is valid (positive and below the price), otherwise the price; never above the price |
| RecommendedProducts.HasValidOffer | src/_components/RecommendedProducts/RecommendedProducts.jsx:91-92 | no offer is never valid, and a valid offer needs a positive price |
| RecommendedProducts.PriceFor | src/_components/RecommendedProducts/RecommendedProducts.jsx:152-166 | 0 for a non-positive amount; otherwise base × amount for units and base × amount / 1000 for kilograms, rounded |
| RecommendedProducts.PriceForMonotone | src/_components/RecommendedProducts/RecommendedProducts.jsx:152-166 | with a non-negative base, more of a product never costs less and never less than 0 |
| RecommendedProducts.OfferNotDearer | src/_components/RecommendedProducts/RecommendedProducts.jsx:161-165 | a base at most the price never costs more than the price for the same amount, and is not negative when the base is not |
| RecommendedProducts.FinalPrice | src/_components/RecommendedProducts/RecommendedProducts.jsx:152-166 | 0 for no amount; never negative for a non-negative base; never more than the undiscounted price for the amount |
| RecommendedProducts.Discount | src/_components/RecommendedProducts/RecommendedProducts.jsx:191-193 | the rounded percentage when the offer is valid, else 0, always within 0 to 100 |
| RecommendedProducts.ToFixed2 | src/_components/RecommendedProducts/RecommendedProducts.jsx:103 | toFixed(2) writes digits, a point and two decimals |
| RecommendedProducts.ToFixed2Value | src/_components/RecommendedProducts/RecommendedProducts.jsx:103 | the written digits denote x rounded to the nearest hundredth |
| RecommendedProducts.TrimZeros | src/_components/RecommendedProducts/RecommendedProducts.jsx:103 | only the trailing zeros go, and the point before them when nothing but zeros followed it |
| RecommendedProducts.KgText | src/_components/RecommendedProducts/RecommendedProducts.jsx:101-103 | whole kilograms are written as the number, others with two decimals, trailing zeros trimmed |
| RecommendedProducts.AmountLabel | src/_components/RecommendedProducts/RecommendedProducts.jsx:94-104 | "0u"/"0g" for no amount, "{n}u" for units, "{n}g" under 1000 g, kilograms above |
| RecommendedProducts.WholeKilograms | src/_components/RecommendedProducts/RecommendedProducts.jsx:102 | a whole number of kilograms is written as that number |
| RecommendedProducts.WholeKilogramsLabel | src/_components/RecommendedProducts/RecommendedProducts.jsx:99-102 | k whole kilograms are labelled "{k}kg" |
| RecommendedProducts.DisplayedAmount | src/_components/RecommendedProducts/RecommendedProducts.jsx:186-187 | the chosen amount, or 1 unit or 100 g when none was chosen |
| RecommendedProducts.CardCartItem | src/_components/RecommendedProducts/RecommendedProducts.jsx:328-336 | the line added has quantity 1 and the final price |
| RecommendedProducts.EnabledCardAddsPricedLine | src/_components/RecommendedProducts/RecommendedProducts.jsx:195 | an enabled button adds a line of positive price keyed by the product id and the amount label |
| RecommendedProducts.Disabled | src/_components/RecommendedProducts/RecommendedProducts.jsx:195 | no amount disables the button, and an enabled button with a non-negative base has a positive price |
| RecommendedProducts.SnapCount | src/_components/RecommendedProducts/RecommendedProducts.jsx:140 | the nearest whole number of steps |
| RecommendedProducts.Snap | src/_components/RecommendedProducts/RecommendedProducts.jsx:140 | a multiple of the step, non-negative for a non-negative amount |
| RecommendedProducts.SnapIdempotent | src/_components/RecommendedProducts/RecommendedProducts.jsx:140 | snapping a snapped amount changes nothing |
| RecommendedProducts.Typed | src/_components/RecommendedProducts/RecommendedProducts.jsx:136-137 | the typed number when finite, else the fallback |
| RecommendedProducts.SettledAmount | src/_components/RecommendedProducts/RecommendedProducts.jsx:135-143 | the stored amount is clamped to 0 or above, and snapped to a multiple of the step when asked |
| RecommendedProducts.SettleNumeral | src/_components/RecommendedProducts/RecommendedProducts.jsx:135-143 | a typed whole number is stored as it is, unsnapped or on the unit step |
| RecommendedProducts.Adjusted | src/_components/RecommendedProducts/RecommendedProducts.jsx:145-150 | max(0, current + delta), a missing entry starting at the fallback and a stored 0 staying 0 |
| RecommendedProducts.StepFromDefault | src/_components/RecommendedProducts/RecommendedProducts.jsx:145-150 | from the defaults the buttons give 2 or 0 units, 150 or 50 grams |
| RecommendedProducts.AmountsById.constructor | src/_components/RecommendedProducts/RecommendedProducts.jsx:43 | no amount is chosen at first |
| RecommendedProducts.AmountsById.SetAmount | src/_components/RecommendedProducts/RecommendedProducts.jsx:135-143 | only the chosen id's entry changes, to the settled amount |
| RecommendedProducts.AmountsById.AdjustAmount | src/_components/RecommendedProducts/RecommendedProducts.jsx:145-150 | only the chosen id's entry changes, to the adjusted amount |
| CategoryProducts.CategoryTitle | src/_components/productosporcategoria/CategoryProducts.jsx:22-25 | the title is the slug with every "-" replaced by a space, all other characters kept |
| CategoryProducts.Listing | src/_components/productosporcategoria/CategoryProducts.jsx:27-40 | an empty slug lists nothing; every listed product has the decoded slug |
| CategoryProducts.ListingExact | src/_components/productosporcategoria/CategoryProducts.jsx:37 | the page lists exactly the catalogue products of its category, in catalogue order |
| CategoryProducts.PricePerKg | src/_components/productosporcategoria/CategoryProducts.jsx:75 | the offer when there is one, else the price, without checking that the offer is below the price |
| CategoryProducts.FinalPrice | src/_components/productosporcategoria/CategoryProducts.jsx:71-78 | 0 for a non-positive amount, otherwise the rounded price per kilogram / 1000 × grams |
| CategoryProducts.OfferChargedUnchecked | src/_components/productosporcategoria/CategoryProducts.jsx:75 | an offer at or above the price is still charged, so it never costs less than the price |
| CategoryProducts.FinalPriceMonotone | src/_components/productosporcategoria/CategoryProducts.jsx:71-78 | more grams never cost less when the price per kilogram is not negative |
| CategoryProducts.Discount | src/_components/productosporcategoria/CategoryProducts.jsx:95-97 | 0 without a truthy offer, otherwise the rounded percentage (an infinity over a price of 0) |
| CategoryProducts.BadgeMeansSaving | src/_components/productosporcategoria/CategoryProducts.jsx:104-106 | with a positive price a badge appears only for an offer below it, and then at most 100 when the offer is positive |
| CategoryProducts.DisplayedGrams | src/_components/productosporcategoria/CategoryProducts.jsx:92 | the chosen grams, or 100 |
| CategoryProducts.CardCartItem | src/_components/productosporcategoria/CategoryProducts.jsx:155-161 | the line added has quantity 1, the final price, no image and the slug "{id}-{g}" |
| CategoryProducts.DefaultCard | src/_components/productosporcategoria/CategoryProducts.jsx:92-93 | a card first shows 100 g, priced at a tenth of the price per kilogram, rounded |
| CategoryProducts.GramsById.constructor | src/_components/productosporcategoria/CategoryProducts.jsx:14 | no weight is chosen at first |
| CategoryProducts.GramsById.HandleGramChange | src/_components/productosporcategoria/CategoryProducts.jsx:58-61 | only that id's entry changes, to max(0, value) |
| CategoryProducts.GramsById.AdjustGrams | src/_components/productosporcategoria/CategoryProducts.jsx:63-69 | only that id's entry changes, to max(0, current + change), a missing entry starting at 100 and a stored 0 staying 0 |
| WeeklyOffers.FinalPrice | src/_components/Offers/WeeklyOffers.jsx:53-58 | 0 for a non-positive amount, otherwise the raw price less the percentage, rounded |
| WeeklyOffers.DiscountNeverRaises | src/_components/Offers/WeeklyOffers.jsx:53-58 | a discount of 0 to 100 percent never raises the rounded price and never makes it negative |
| WeeklyOffers.ListedOffersAreDiscounts | src/_components/Offers/WeeklyOffers.jsx:12-34 | every offer on the list is 0 to 100 percent off a positive price, so its cards never charge more than the undiscounted price |
| WeeklyOffers.DisplayedGrams | src/_components/Offers/WeeklyOffers.jsx:66 | the chosen grams, or 100 |
| WeeklyOffers.AdjustStart | src/_components/Offers/WeeklyOffers.jsx:47 | the stored grams unless absent or 0, else 100 |
| WeeklyOffers.ZeroRestartsAtDefault | src/_components/Offers/WeeklyOffers.jsx:45-51 | after the input is cleared to 0 the card shows 0 g, yet the buttons start again from 100 g |
| WeeklyOffers.CardCartItem | src/_components/Offers/WeeklyOffers.jsx:117-123 | the line added has quantity 1, the final price and the slug "{slug}-{g}" |
| WeeklyOffers.GramsBySlug.constructor | src/_components/Offers/WeeklyOffers.jsx:38 | no weight is chosen at first |
| WeeklyOffers.GramsBySlug.HandleGramChange | src/_components/Offers/WeeklyOffers.jsx:40-43 | only that slug's entry changes, to max(0, value) |
| WeeklyOffers.GramsBySlug.AdjustGrams | src/_components/Offers/WeeklyOffers.jsx:45-51 | only that slug's entry changes, to max(0, start + change), never negative |
| OrderSummary.TotalByMethod | src/_components/Cart/CartDrawer.jsx:70-74 | pickup pays the subtotal, home delivery the subtotal plus the cost, never less than the subtotal for a non-negative cost |
| OrderSummary.CostoEnvio | src/_components/Cart/CartDrawer.jsx:70 | shipping is 0 unless the method is home delivery, and never more than the cost |
| OrderSummary.TotalFinal | src/_components/Cart/CartDrawer.jsx:72-74 | with a non-negative cost, quantities and prices the total to pay is not negative |
| OrderSummary.ItemsCount | src/_components/Cart/CartDrawer.jsx:76-79 | the views' item count is the cart's totalItems |
| OrderSummary.ItemsCountFromTotal | src/_components/Cart/CartDrawer.jsx:76-79 | the reduce from any start adds the sum of the quantities |
| OrderSummary.ItemsCountIsTotalItems | src/_components/Cart/CartDrawer.jsx:76-79 | the views' item count is the cart's totalItems, the sum of quantities |
| OrderSummary.ProductLine | src/_components/Cart/CartDrawer.jsx:102-108 | a product line shows the name, x{quantity} and price × quantity |
| OrderSummary.ShownAddress | src/_components/Cart/CartDrawer.jsx:93 | a typed address is shown as typed |
| OrderSummary.ProductLines | src/_components/Cart/CartDrawer.jsx:102-108 | one product line per cart line, in cart order |
| OrderSummary.ProductLinesAppend | src/_components/Cart/CartDrawer.jsx:102-108 | the lines of two runs of the cart are the lines of each, in order |
| OrderSummary.Append | src/_components/Cart/CartDrawer.jsx:87-114 | one `message +=` step appends the text of one more piece |
| OrderSummary.AppendProducts | src/_components/Cart/CartDrawer.jsx:102-108 | the forEach appends one product piece per cart line, in cart order |
| OrderSummary.HasOfParts | src/_components/Cart/CartDrawer.jsx:87-114 | product pieces are never optional pieces, so the message holds an optional piece exactly when its opening or closing does |
| OrderSummary.SubtotalIsSumOfLines | src/_components/Cart/CartDrawer.jsx:103-110 | the subtotal shown is the sum of the product lines' totals |
| CartDrawer.DeliveryCost | src/_components/Cart/CartDrawer.jsx:43-57 | a finite stored number (or numeric text) is the cost; a missing value, a non-finite one or a failed read gives 0 |
| CartDrawer.DeliveryCostOfNumeral | src/_components/Cart/CartDrawer.jsx:50 | a cost stored as the text of a whole number reads as that number |
| CartDrawer.DeliveryCostState.constructor | src/_components/Cart/CartDrawer.jsx:29-30 | the cost starts at 0 and loading |
| CartDrawer.DeliveryCostState.StartLoading | src/_components/Cart/CartDrawer.jsx:41 | the loading flag goes up and the cost stays |
| CartDrawer.DeliveryCostState.FinishLoading | src/_components/Cart/CartDrawer.jsx:52-59 | a cancelled load changes nothing; otherwise the cost is the parsed read and loading ends |
| CartDrawer.SendToWhatsApp | src/_components/Cart/CartDrawer.jsx:84-118 | the message is the pieces of the order written in sequence, and the link carries the encoded message to the store's phone |
| CartDrawer.WriteMessage | src/_components/Cart/CartDrawer.jsx:87-114 | the `+=` steps write exactly the order's pieces |
| CartDrawer.WriteOpening | src/_components/Cart/CartDrawer.jsx:87-100 | the steps before the forEach write the opening pieces |
| CartDrawer.AppendClosing | src/_components/Cart/CartDrawer.jsx:110-114 | the steps after the forEach append the closing pieces |
| CartDrawer.MessageOrder | src/_components/Cart/CartDrawer.jsx:87-114 | the fixed order: header, method, product heading, every cart line in order, subtotal, and the total last |
| CartDrawer.OpeningPieces | src/_components/Cart/CartDrawer.jsx:87-100 | the opening holds an address piece exactly for home delivery and a notes piece exactly with notes |
| CartDrawer.ClosingPieces | src/_components/Cart/CartDrawer.jsx:110-114 | the closing holds a shipping piece exactly for home delivery |
| CartDrawer.ConditionalLines | src/_components/Cart/CartDrawer.jsx:92-113 | address and shipping pieces exactly for home delivery, notes exactly when there are notes, never a pickup address |
| CartDrawer.HomeDeliveryLines | src/_components/Cart/CartDrawer.jsx:92-113 | for home delivery the third piece is the address or "No indicada", and shipping comes just before the total |
| CarritoPage.DefaultStore | src/app/carrito/page.jsx:31-36 | before the load and after a failed one: no delivery cost, no address, no schedule, only an empty whatsapp among the networks |
| CarritoPage.NormalizeFields | src/app/carrito/page.jsx:48-65 | the delivery cost is the stored one as a number (0 when absent or not finite), every text is the stored truthy value or "", a missing schedule is null |
| CarritoPage.LoadWithoutObject | src/app/carrito/page.jsx:48-65 | absent settings, or settings that are not an object, give a free delivery, no address and empty networks |
| CarritoPage.StoreState.constructor | src/app/carrito/page.jsx:31-37 | the defaults, loading |
| CarritoPage.StoreState.StartLoading | src/app/carrito/page.jsx:44 | the loading flag goes up and the data stay |
| CarritoPage.StoreState.FinishLoading | src/app/carrito/page.jsx:67-80 | after the page has gone nothing changes; otherwise the loaded data and loading ends |
| CarritoPage.PhoneDigits | src/app/carrito/page.jsx:103 | only digits are left |
| CarritoPage.Phone | src/app/carrito/page.jsx:103-104 | "549" before the stored digits, or the fallback number when there are none |
| CarritoPage.PhoneIsDigits | src/app/carrito/page.jsx:103-104 | the number dialled is all digits |
| CarritoPage.PhoneIgnoresNonDigits | src/app/carrito/page.jsx:103 | spaces, dashes and a leading + in the stored number make no difference |
| CarritoPage.PhoneOfDigits | src/app/carrito/page.jsx:103-104 | a stored number of digits is dialled with the 549 prefix |
| CarritoPage.PhoneOfNumber | src/app/carrito/page.jsx:103-104 | a number stored as a JSON number is dialled by its digits |
| CarritoPage.SendToWhatsApp | src/app/carrito/page.jsx:101-142 | the message is the order's pieces in sequence, and the link carries it to the stored number |
| CarritoPage.WriteMessage | src/app/carrito/page.jsx:106-137 | the `+=` steps write exactly the order's pieces |
| CarritoPage.WriteOpening | src/app/carrito/page.jsx:106-123 | the steps before the forEach write the opening pieces |
| CarritoPage.AppendClosing | src/app/carrito/page.jsx:131-137 | the steps after the forEach append the closing pieces |
| CarritoPage.MessageOrder | src/app/carrito/page.jsx:106-137 | the fixed order: header, method, product heading, every cart line in order, subtotal, and the total last |
| CarritoPage.OpeningPieces | src/app/carrito/page.jsx:106-123 | address exactly for home delivery, the store's address exactly for pickup with a known address, notes exactly with notes |
| CarritoPage.ClosingPieces | src/app/carrito/page.jsx:131-137 | the closing holds a shipping piece exactly for home delivery |
| CarritoPage.ConditionalLines | src/app/carrito/page.jsx:112-135 | the customer address (or "No indicada") for home delivery, the store address for pickup when known, notes when given, shipping for home delivery |
| CarritoPage.ThirdLine | src/app/carrito/page.jsx:112-119 | the third piece names where the order goes, and shipping comes just before the total for home delivery |
| LocalService.NormalizeDayFields | src/services/localService.js:20-30 | each field of a day is the stored value unless null or undefined; a missing cerrado is false (Sunday too), missing bands are 08:00-12:00 and 16:00-20:00 |
| LocalService.NormalizeHorarios | src/services/localService.js:17-33 | the forEach over the day keys builds the normalised schedule |
| LocalService.DiasDistinct | src/services/localService.js:6-14 | the seven day keys are seven different days |
| LocalService.HorariosKeys | src/services/localService.js:17-33 | whatever is stored, exactly the seven day keys, and a day with nothing stored is open with the default bands |
| LocalService.GetLocalData | src/services/localService.js:36-55 | the read is refused exactly when it fails or the stored value is null |
| LocalService.GetLocalDataMissing | src/services/localService.js:39-54 | with nothing stored the address and every link are "", the cost is 0 and every day gets the defaults |
| LocalService.GetLocalDataFields | src/services/localService.js:41-53 | the address, the shipping cost and each of the five links (instagram, whatsapp, facebook, telegram, email) is the stored value when present, else "" (0 for the cost) |
| DatosPage.Keys | src/app/root/datos/page.jsx:143 | the day keys of the week list, in order |
| DatosPage.SameWeek | src/app/root/datos/page.jsx:8-16 | the page's day keys are the service's, in the same order |
| DatosPage.SafeTime | src/app/root/datos/page.jsx:38-40 | a string is kept, anything else becomes "" |
| DatosPage.NormalizeHorarios | src/app/root/datos/page.jsx:42-67 | the loop builds the normalised schedule |
| DatosPage.NormalizeDays | src/app/root/datos/page.jsx:44-65 | the loop over the day keys writes one normalised day per key |
| DatosPage.NormalizeOne | src/app/root/datos/page.jsx:45-64 | one turn writes the day from the stored and default values, then empties both bands when it is closed |
| DatosPage.HorariosKeys | src/app/root/datos/page.jsx:42-67 | whatever is passed in, exactly the seven day keys |
| DatosPage.NormalizeDayMeaning | src/app/root/datos/page.jsx:48-64 | cerrado is the stored boolean or the day's default; a closed day has both bands empty; an open day's times are stored strings, the default where nothing is stored, "" for anything else |
| DatosPage.DefaultHorariosCerrado | src/app/root/datos/page.jsx:24-36 | by default only Sunday is closed |
| DatosPage.DeliveryOf | src/app/root/datos/page.jsx:113 | the stored cost as a number when finite, else 0 |
| DatosPage.NormalizeOpenDay | src/app/root/datos/page.jsx:48-58 | a day stored open with two bands of strings is open with exactly those bands |
| DatosPage.LoadWithNothingStored | src/app/root/datos/page.jsx:106-120 | with nothing stored every day loads open with the service's 08:00-12:00 and 16:00-20:00 bands; the page's Sunday default never applies |
| DatosPage.GetPath | src/app/root/datos/page.jsx:127 | a path that reads something other than undefined starts at an object |
| DatosPage.SetPath | src/app/root/datos/page.jsx:122-131 | assigning into anything but an object throws; a success is an object with the first key added to its keys |
| DatosPage.GetPathBelowNonObject | src/app/root/datos/page.jsx:127 | below anything that is not an object every path reads undefined |
| DatosPage.SetPathDefined | src/app/root/datos/page.jsx:122-131 | the dotted-path assignment succeeds exactly when the walk ends on an object |
| DatosPage.SetPathGets | src/app/root/datos/page.jsx:122-131 | after the assignment the path reads the assigned value |
| DatosPage.SetPathFrame | src/app/root/datos/page.jsx:122-131 | every path that neither leads to the assigned one nor passes through it reads what it read before |
| DatosPage.SetPathBelow | src/app/root/datos/page.jsx:122-131 | every path through the assigned one reads inside the new value |
| DatosPage.NoAssignmentBelow | src/app/root/datos/page.jsx:127 | a walk that meets null or undefined before the last key throws |
| DatosPage.Toggle | src/app/root/datos/page.jsx:133-139 | the day is selected afterwards exactly when it was not, and the list grows by at most one |
| DatosPage.ToggleMembership | src/app/root/datos/page.jsx:133-139 | after a toggle the day is selected exactly when it was not, every other day keeps its state, and no repeats appear |
| DatosPage.ToggleTwice | src/app/root/datos/page.jsx:133-139 | toggling twice selects the same days as before, and gives back the same list when the day was not selected |
| DatosPage.IndexIn | src/app/root/datos/page.jsx:145 | indexOf: the first position of the key, -1 exactly when absent |
| DatosPage.ByIndexPreorder | src/app/root/datos/page.jsx:144-146 | the comparison by week position is a total preorder |
| DatosPage.Shorts | src/app/root/datos/page.jsx:148 | each key shown by the label found for it |
| DatosPage.SelectedLabelSorted | src/app/root/datos/page.jsx:141-150 | a non-empty selection is shown as the labels of a week-ordered permutation of it |
| DatosPage.SortedSelectionIsWeekOrder | src/app/root/datos/page.jsx:144-146 | sorting a selection of different known days gives exactly those days in week order |
| DatosPage.LabelInWeekOrder | src/app/root/datos/page.jsx:141-150 | the label lists the short names of exactly the selected days, Monday first, joined by " · " |
| DatosPage.ShortNames | src/app/root/datos/page.jsx:148 | the short name shown for each day is its label |
| DatosPage.SelectedLabel | src/app/root/datos/page.jsx:141-150 | no selection reads "Ningún día seleccionado"; one day reads as its own label |
| DatosPage.Preset | src/app/root/datos/page.jsx:152-166 | a preset never selects anything but week days when the current selection does not |
| DatosPage.PresetsAreWeekPrefixes | src/app/root/datos/page.jsx:152-166 | the presets select Monday to Friday, Monday to Saturday, the whole week, nothing; anything else leaves the selection |
| DatosPage.PayloadBands | src/app/root/datos/page.jsx:172-180 | a closed block writes two empty bands, an open one the block's times |
| DatosPage.AssignDays | src/app/root/datos/page.jsx:184-187 | the forEach gives every selected day the payload |
| DatosPage.BulkApplied | src/app/root/datos/page.jsx:182-189 | the apply succeeds exactly when the form and its schedule are objects, and then adds no field but the schedule |
| DatosPage.BulkAppliedMeaning | src/app/root/datos/page.jsx:182-189 | every selected day holds the payload, every other day is as it was, and nothing outside the schedule changes |
| DatosPage.SundayAssignment | src/app/root/datos/page.jsx:192-202 | closing Sunday needs the form and its schedule to be objects and leaves every other day and field as they were |
| DatosPage.SundayClosed | src/app/root/datos/page.jsx:194-198 | Sunday is closed and both its bands are empty |
| DatosPage.DatosState.constructor | src/app/root/datos/page.jsx:70-87 | no form, loading, Monday to Friday selected, the initial block |
| DatosPage.DatosState.Load | src/app/root/datos/page.jsx:106-120 | a rejected read leaves the page loading; otherwise the normalised data and loading ends; the selection and block stay |
| DatosPage.DatosState.Update | src/app/root/datos/page.jsx:122-131 | the form becomes the one with the dotted path assigned, or stays when the walk throws; nothing else changes |
| DatosPage.DatosState.ToggleDay | src/app/root/datos/page.jsx:133-139 | the selection is toggled and nothing else changes |
| DatosPage.DatosState.SelectPreset | src/app/root/datos/page.jsx:152-166 | the selection becomes the preset and nothing else changes |
| DatosPage.DatosState.ApplyBulkToSelected | src/app/root/datos/page.jsx:168-190 | nothing without a form or a selected day; otherwise every selected day gets the payload, or nothing when the updater throws |
| DatosPage.DatosState.SetSundayClosed | src/app/root/datos/page.jsx:192-202 | Sunday is closed with empty bands, or the form stays when the assignment throws |
| DatosSharing.WriteThrough | src/app/root/datos/page.jsx:126-128 | a write through a day keeps every reference valid and the days' references unchanged |
| DatosSharing.WriteReads | src/app/root/datos/page.jsx:122-131 | a write through one day is read through every day that holds the same object, and through no other |
| DatosSharing.WriteFrame | src/app/root/datos/page.jsx:463-516 | without shared objects, a per-day edit changes that day alone |
| DatosSharing.PointSlots | src/app/root/datos/page.jsx:184-187 | pointing the selected days at one reference sets exactly those days to it and leaves the rest |
| DatosSharing.BulkSharedReads | src/app/root/datos/page.jsx:169-189 | right after the apply as written every selected day reads the payload and the rest read as before, but all the selected days hold one object |
| DatosSharing.SharedEditLeaks | src/app/root/datos/page.jsx:169-189 | after the apply as written, an edit through one selected day is read through every other selected day |
| DatosSharing.MondaySwitchFlipsTuesday | src/app/root/datos/page.jsx:461-464 | applied to Monday and Tuesday, clicking Monday's "Cerrado" switch flips Tuesday's |
| DatosSharing.BulkCopiesReads | src/app/root/datos/page.jsx:169-189 | the apply with one copy per day reads the same and keeps days from sharing objects |
| DatosSharing.CopiesKeepDaysApart | src/app/root/datos/page.jsx:463-516 | after the apply with one copy per day, an edit through one day changes that day alone |
| DatosSharing.SameContents | src/app/root/datos/page.jsx:169-189 | both applies leave the same contents; only what a later edit reaches differs |
| DatosSharing.CopiesAsValues | src/app/root/datos/page.jsx:169-189 | the value model's bulk apply is the apply with one copy per day, read as values |
| NuevoPage.Update | src/app/root/productos/nuevo/page.jsx:72-74 | the named field takes the value and every other field keeps its own |
| NuevoPage.Check | src/app/root/productos/nuevo/page.jsx:81-92 | the required-fields message first, then the offer message, else no error |
| NuevoPage.PayloadSlug | src/app/root/productos/nuevo/page.jsx:96 | the form's slug when truthy, else the slug of the category name |
| NuevoPage.PayloadOffer | src/app/root/productos/nuevo/page.jsx:106-109 | null for "" or a nullish offer, otherwise Number of it |
| NuevoPage.Payload | src/app/root/productos/nuevo/page.jsx:100-113 | the form spread, with the slug, the normalised sale mode, numeric price and offer, and boolean flags |
| NuevoPage.Submit | src/app/root/productos/nuevo/page.jsx:76-125 | the first failing check's message, or what createProduct writes for the payload, its own errors included |
| NuevoPage.MessagesDiffer | src/app/root/productos/nuevo/page.jsx:82-90 | the page's two messages differ from each other and from the service's |
| NuevoPage.RefusedWhenIncomplete | src/app/root/productos/nuevo/page.jsx:81-84 | the required-fields message exactly when the name, the price or the category is falsy |
| NuevoPage.RefusedWhenOfferNotBelow | src/app/root/productos/nuevo/page.jsx:86-92 | the offer message exactly when the fields are there, the offer is not "" and Number(offer) >= Number(price) |
| NuevoPage.InitialFormRefused | src/app/root/productos/nuevo/page.jsx:48-60 | the empty form is refused |
| NuevoPage.PayloadNumbers | src/app/root/productos/nuevo/page.jsx:105-112 | the payload's price and offer read as the form's numbers, the offer is null exactly for "" or nullish, the flags are booleans |
| NuevoPage.PayloadTipoVenta | src/app/root/productos/nuevo/page.jsx:22-25 | the stored sale mode is "u" exactly when the text in lower case is "u" or "unidad", else "kg" |
| NuevoPage.PageCheckCoversOfferRule | src/app/root/productos/nuevo/page.jsx:86-92 | once the page's checks pass the service never finds the offer too high |
| NuevoPage.SavedProduct | src/app/root/productos/nuevo/page.jsx:94-116 | a saved product has the fresh key, a positive numeric price, an offer below it or none, and the slug of its category |
| EditProductForm.Hydrate | src/app/root/productos/ProductForm.jsx:56-70 | the eleven form fields: category name falls back to categoria, the slug to slugify, disponible to true unless boolean, tipoVenta to "kg", the flags coerced with !!, price and offer to "" |
| EditProductForm.HydrateTexts | src/app/root/productos/ProductForm.jsx:58-64 | the name, the description and the image fall back to "" |
| EditProductForm.HydrateIdempotent | src/app/root/productos/ProductForm.jsx:56-70 | filling the form from what it already shows changes nothing |
| EditProductForm.HydrateOfProduct | src/app/root/productos/ProductForm.jsx:56-70 | a product as the service returns it fills the form with its own values, a missing offer as "" |
| EditProductForm.Load | src/app/root/productos/ProductForm.jsx:72-91 | the product passed in fills the form at once; with an id the fetched product replaces it, or "Producto no encontrado" is shown and the form stays |
| EditProductForm.ModalId | src/app/root/productos/ProductForm.jsx:44 | productId unless null or undefined, else the product's id |
| EditProductForm.EditPayload | src/app/root/productos/ProductForm.jsx:132-135 | the form with the slug filled in: the form's slug or slugify of the category name |
| EditProductForm.Submit | src/app/root/productos/ProductForm.jsx:109-148 | without an id "Falta el ID del producto."; then the new-product page's two checks; then updateProduct, whose rejection is shown |
| EditProductForm.MessagesDiffer | src/app/root/productos/ProductForm.jsx:115-125 | the missing-id message differs from every other |
| EditProductForm.MissingIdFirst | src/app/root/productos/ProductForm.jsx:114-117 | the missing-id message exactly when the id is falsy, before any other check |
| EditProductForm.RefusedAsOnNewPage | src/app/root/productos/ProductForm.jsx:119-127 | with an id, the required fields and the offer are refused exactly as on the new-product page |
| EditProductForm.SavedRecord | src/app/root/productos/ProductForm.jsx:132-140 | the list gets the form as typed with the slug and the id added, while the database gets the validated numeric price |
| ProductForm.EmptyProduct | src/_components/Root/Products/ProductForm.jsx:17-27 | the empty form: texts and prices "", available, no offers |
| ProductForm.InitialForm | src/_components/Root/Products/ProductForm.jsx:38-58 | the empty product without initial values; otherwise the texts fall back with `||`, the prices with `??`, disponible to true unless boolean, the flags coerced with `!!` |
| ProductForm.InitialFormShape | src/_components/Root/Products/ProductForm.jsx:38-58 | the form holds only its nine fields, the flags are booleans and the prices are never nullish |
| ProductForm.HandleChange | src/_components/Root/Products/ProductForm.jsx:60-66 | a checkbox sets its field to `checked`, any other input to `value`; every other field keeps its value |
| ProductForm.HandleSubmit | src/_components/Root/Products/ProductForm.jsx:68-93 | the form handed to `onSubmit` is the form as it stands |
| ProductForm.SubmittedIffValid | src/_components/Root/Products/ProductForm.jsx:73-88 | `onSubmit` is called exactly when the name and the category are not blank, the price is a positive number and the offer is not a number at or above it |
| ProductForm.FirstFailureWins | src/_components/Root/Products/ProductForm.jsx:73-85 | the checks run in order, name, category, price, offer, and the first that fails gives its message |
| ProductForm.SubmittedPrices | src/_components/Root/Products/ProductForm.jsx:76-85 | a submitted form has a positive price and an offer that is "", not a number, or below the price |
| ProductForm.NonNumericOfferAccepted | src/_components/Root/Products/ProductForm.jsx:82-85 | an offer that is not a number passes the offer check |
| ProductForm.EmptyProductRefused | src/_components/Root/Products/ProductForm.jsx:73-75 | the empty form is refused for its name |
| RootPage.DiscountKey | src/app/root/page.jsx:110-111 | the discount sort key is never NaN: 0 without a truthy offer, else the saving over the price |
| RootPage.NamesOrdered | src/app/root/page.jsx:101-103 | the name order is total and transitive |
| RootPage.DiscountsOrdered | src/app/root/page.jsx:108-112 | the discount order is total and transitive |
| RootPage.ByName | src/app/root/page.jsx:101 | A-to-Z by name is a total preorder |
| RootPage.ByNameDesc | src/app/root/page.jsx:103 | Z-to-A by name is a total preorder |
| RootPage.ByPrice | src/app/root/page.jsx:105 | cheapest first is a total preorder |
| RootPage.ByPriceDesc | src/app/root/page.jsx:107 | dearest first is a total preorder |
| RootPage.ByDiscount | src/app/root/page.jsx:108-113 | largest discount first is a total preorder |
| RootPage.Order | src/app/root/page.jsx:100-114 | a comparator exactly for the five sort choices, none for any other |
| RootPage.OrdersArePreorders | src/app/root/page.jsx:100-114 | every comparator is a total preorder, so the sort is consistent |
| RootPage.FilteredProducts | src/app/root/page.jsx:73-117 | the list narrowed filter by filter and then sorted is the filtered-and-sorted specification |
| RootPage.FilteredExact | src/app/root/page.jsx:76-98 | a product is shown exactly when it is in the catalogue and every active filter keeps it |
| RootPage.FilteredOrder | src/app/root/page.jsx:100-116 | without a sort the catalogue's order is kept; with one the list is sorted by its comparator and is a permutation of the filtered products |
| RootPage.Keeps | src/app/root/page.jsx:76-98 | with every control neutral all products are kept; a non-blank search drops a product it does not match |
| RootPage.Filtered | src/app/root/page.jsx:73-117 | the list shown is never longer than the catalogue and every product in it passes the filters |
| RootPage.CategoryKeepsNothing | src/app/root/page.jsx:82-84 | choosing any category empties the table, the products having no `categoria` |
| RootPage.BlankSearchIgnored | src/app/root/page.jsx:76-80 | a search of spaces only filters nothing |
| RootPage.Delete | src/app/root/page.jsx:123 | no product with the deleted id is left |
| RootPage.DeleteExact | src/app/root/page.jsx:123 | exactly the products with that id go, the rest stay in order |
| RootPage.Row | src/app/root/page.jsx:136-151 | the discount cell is empty exactly without a truthy offer; the category cell is empty |
| RootPage.Rows | src/app/root/page.jsx:136-151 | one exported row per product, in order |
| RootPage.ExportToExcel | src/app/root/page.jsx:130-158 | no sheet for an empty list, else the rows of the products shown |
| RootPage.ExportRowMeaning | src/app/root/page.jsx:143-149 | the discount cell is the rounded percentage with "%", the flags read "Sí" exactly when set |
| RootPage.OfferFilterFromQuery | src/app/root/page.jsx:41-44 | "ofertas" selects the general offers, "semana" the weekly ones, anything else keeps the current choice |
| ProductsService.SetField | src/_components/Root/Products/ProductForm.jsx:60-66 | `{ ...r, [f]: v }`: the named field takes the value and every other field keeps its own |
| ProductsService.SetFieldLaws | src/_components/Root/Products/ProductForm.jsx:60-66 | writing back a field's own value changes nothing, and a second write to a field replaces the first |
| ProductsService.Present | src/app/root/productos/todos-los-productos/ProductosRootClient.jsx:159-161 | in a spread a later property that is present wins, an absent one leaves the earlier value |
| ProductsService.Spread | src/app/root/productos/todos-los-productos/ProductosRootClient.jsx:159-161 | `{ ...a, ...b }`: every field is b's when b has it, else a's |
| TodosProductosClient.Loaded | src/app/root/productos/todos-los-productos/ProductosRootClient.jsx:70-71 | a result that is not an array gives an empty list, an array is kept as it is |
| TodosProductosClient.KeepsMeaning | src/app/root/productos/todos-los-productos/ProductosRootClient.jsx:88-102 | a product is kept exactly when it passes each filter its control turns on: the search on `nombre \|\| ""`, the category, availability and offers by truthiness |
| TodosProductosClient.KeepsSplit | src/app/root/productos/todos-los-productos/ProductosRootClient.jsx:88-102 | cutting the filter steps at any point, the first part together with the rest keep exactly what all of them keep |
| TodosProductosClient.PriceKey | src/app/root/productos/todos-los-productos/ProductosRootClient.jsx:105-106 | `p.precio ?? 0`: 0 for a nullish price, the number for a numeric one |
| TodosProductosClient.Ascending | src/app/root/productos/todos-los-productos/ProductosRootClient.jsx:105 | on numeric keys it is the price order, and a NaN key ties with every product |
| TodosProductosClient.Descending | src/app/root/productos/todos-los-productos/ProductosRootClient.jsx:106 | on numeric keys it is the reversed price order, and a NaN key ties with every product |
| TodosProductosClient.Order | src/app/root/productos/todos-los-productos/ProductosRootClient.jsx:105-106 | a comparator exactly for "precio-asc" and "precio-desc" |
| TodosProductosClient.OrderOnNumericPrices | src/app/root/productos/todos-los-productos/ProductosRootClient.jsx:105-106 | on products whose prices read as numbers both comparators are total preorders |
| TodosProductosClient.FilteredProducts | src/app/root/productos/todos-los-productos/ProductosRootClient.jsx:85-109 | the list narrowed step by step and then sorted is the filtered-and-sorted specification |
| TodosProductosClient.FilteredExact | src/app/root/productos/todos-los-productos/ProductosRootClient.jsx:88-102 | a product is shown exactly when it is in the list and every active filter keeps it |
| TodosProductosClient.FilteredOrder | src/app/root/productos/todos-los-productos/ProductosRootClient.jsx:86-108 | before sorting the list is a subsequence of the products; sorting keeps each product as often as before and, for numeric prices, puts them in ascending or descending price order |
| TodosProductosClient.Filtered | src/app/root/productos/todos-los-productos/ProductosRootClient.jsx:85-109 | the list shown is never longer than the products and every product in it passes the filters |
| TodosProductosClient.FiltersCommute | src/app/root/productos/todos-los-productos/ProductosRootClient.jsx:88-102 | running the later filter steps first and the earlier ones after them gives the same list |
| TodosProductosClient.Delete | src/app/root/productos/todos-los-productos/ProductosRootClient.jsx:114-124 | a failed delete changes nothing |
| TodosProductosClient.DeleteExact | src/app/root/productos/todos-los-productos/ProductosRootClient.jsx:117-120 | exactly the products with that id go, the rest stay in order, and the modal closes exactly when it showed that product |
| TodosProductosClient.MergeEdit | src/app/root/productos/todos-los-productos/ProductosRootClient.jsx:159-161 | the list keeps its length |
| TodosProductosClient.EditSubmit | src/app/root/productos/todos-los-productos/ProductosRootClient.jsx:150-168 | without an id on the edited product "Falta el ID del producto."; a saved edit closes the modal |
| TodosProductosClient.EditMergesOnlyMatching | src/app/root/productos/todos-los-productos/ProductosRootClient.jsx:154-164 | with an id the edit goes through exactly when updateProduct accepts it, else its message; then only the products with that id change, each taking the form's present properties and keeping its id |
| TodosProductosClient.EditTwice | src/app/root/productos/todos-los-productos/ProductosRootClient.jsx:159-161 | saving the same form twice leaves the list as saving it once |
| TodosProductosClient.ExportToExcel | src/app/root/productos/todos-los-productos/ProductosRootClient.jsx:173-182 | no sheet for an empty list, else the rows as given |
| ProductosClient.FilteredProducts | src/app/root/productos/ProductosRootClient.jsx:61-74 | the list narrowed by one filter per active choice is the specification's filtered list |
| ProductosClient.FilteredExact | src/app/root/productos/ProductosRootClient.jsx:64-71 | a product is shown exactly when it is in the catalogue and every active filter keeps it, in the catalogue's order |
| ProductosClient.SortIgnored | src/app/root/productos/ProductosRootClient.jsx:61-74 | the sort choice changes nothing |
| ProductosClient.FiltersCommute | src/app/root/productos/ProductosRootClient.jsx:64-71 | narrowing by availability and offer first and by search and category after gives the same list |
| ProductosClient.Delete | src/app/root/productos/ProductosRootClient.jsx:76-79 | exactly the products with that id go, the rest stay in order |
| ProductTable.RoundNumber | src/_components/Root/Products/ProductTable.jsx:16 | `Math.round` on a number: a finite value is rounded with halves up, NaN and the infinities stay |
| ProductTable.DiscountFraction | src/_components/Root/Products/ProductTable.jsx:16 | the saving over the price times 100 for a finite non-zero price; NaN when either is NaN or the price is infinite |
| ProductTable.CalcularDescuento | src/_components/Root/Products/ProductTable.jsx:14-17 | null exactly when the price or the offer is falsy |
| ProductTable.DiscountOfNumbers | src/_components/Root/Products/ProductTable.jsx:14-83 | for numeric prices the discount is the storefront's rounded percentage, the badge shows exactly when it is not 0, and always for an offer of at most half the price |
| ProductTable.NoBadgeWithoutOffer | src/_components/Root/Products/ProductTable.jsx:79-83 | no badge without an offer or without a price |
| ProductTable.ShowsBadge | src/_components/Root/Products/ProductTable.jsx:79-83 | no badge without a discount; for a finite discount the badge shows exactly when the number is truthy |
| ProductTable.RowOf | src/_components/Root/Products/ProductTable.jsx:44-118 | the offer cell exactly for a truthy offer, the badge exactly for a truthy discount, the image exactly for a truthy image, the availability badge by truthiness, and the edit link of the id |
| ProductTable.Render | src/_components/Root/Products/ProductTable.jsx:38-118 | the "No hay productos" row exactly for an empty list, and one row per product in order |
| ProductTable.RowOfCatalogueProduct | src/_components/Root/Products/ProductTable.jsx:63-83 | a catalogue product shows its offer exactly when it has one other than 0, the badge then follows the rounded percentage, and the category cell is empty |
| ProductTable.HandleDelete | src/_components/Root/Products/ProductTable.jsx:7-11 | the id is handed to `onDelete` exactly when the user confirms |
| ExcelService.Cell | src/services/excelService.js:47-88 | a column the row has gives its cell, any other `undefined` |
| ExcelService.MissingColumns | src/services/excelService.js:29-33 | exactly the required columns the first row lacks, in the required order |
| ExcelService.ColumnsMessage | src/services/excelService.js:35-41 | the message names every missing column |
| ExcelService.BadPrice | src/services/excelService.js:57-59 | a price is refused exactly when it is not greater than 0 (NaN included) |
| ExcelService.NoData | src/services/excelService.js:46-53 | a row with no data also has a refused price |
| ExcelService.NumberOrZero | src/services/excelService.js:66 | `Number(x) \|\| 0`: 0 for NaN, otherwise the same number |
| ExcelService.OfferCell | src/services/excelService.js:67-72 | null for undefined, "" or a value that is not a number, otherwise the number |
| ExcelService.BoolOr | src/services/excelService.js:75-88 | a boolean cell as it is, anything else the default |
| ExcelService.MapRow | src/services/excelService.js:46-60 | a row becomes null exactly when it has no data or its price is not a positive number |
| ExcelService.Kept | src/services/excelService.js:91 | a row contributes at most one product |
| ExcelService.Products | src/services/excelService.js:45-91 | never more products than rows |
| ExcelService.ParseRows | src/services/excelService.js:23-93 | an empty sheet is refused with its message, a first row lacking a required column with the columns message, otherwise the mapped products |
| ExcelService.MessagesDiffer | src/services/excelService.js:23-43 | the two refusals read differently |
| ExcelService.RefusedForColumns | src/services/excelService.js:29-43 | a non-empty sheet is refused exactly when its first row lacks a required header |
| ExcelService.ProductsAppend | src/services/excelService.js:45-91 | mapping keeps the sheet's order: two runs of rows give their products one after the other |
| ExcelService.ProductsMembership | src/services/excelService.js:45-91 | the preview holds a product exactly when some row maps to it |
| ExcelService.MappedProduct | src/services/excelService.js:56-88 | a mapped product has a positive price equal to the cell's number, an offer null or numeric, and boolean flags with their defaults |
| ExcelService.PreviewProducts | src/services/excelService.js:45-93 | every product of a preview comes from a row and has a positive price |
| ImportPage.WithCategories | src/app/root/productos/importar/page.jsx:98-101 | each row's category falls back to "", every other field is kept |
| ImportPage.HandleFile | src/app/root/productos/importar/page.jsx:88-108 | a refused sheet shows no rows and the refusal's message; otherwise the rows with their categories and no error |
| ImportPage.UpdateRow | src/app/root/productos/importar/page.jsx:111-115 | the row at the index takes the value for the key, every other row and field is kept |
| ImportPage.UpdateOutside | src/app/root/productos/importar/page.jsx:111-115 | an index outside the rows changes nothing |
| ImportPage.Import | src/app/root/productos/importar/page.jsx:123-129 | never more products created than rows |
| ImportPage.IncompleteWhenMissing | src/app/root/productos/importar/page.jsx:124 | a row with a missing name, price or category, a price of 0 or an empty name is incomplete |
| ImportPage.ImportStep | src/app/root/productos/importar/page.jsx:123-129 | one turn: an incomplete row stops with the incomplete-rows message, a refused one with createProduct's message, an accepted one is created and the loop goes on |
| ImportPage.HandleImport | src/app/root/productos/importar/page.jsx:118-138 | the loop creates the products and stops with the error exactly as the specification does |
| ImportPage.MessagesDiffer | src/app/root/productos/importar/page.jsx:124-126 | the incomplete-rows message differs from createProduct's two |
| ImportPage.ImportStopsAtFirstFailure | src/app/root/productos/importar/page.jsx:123-136 | the rows before the first that fails are created in order, the import stops at that row, and its message is the incomplete-rows one exactly when that row is incomplete |
| ImportPage.ImportSucceedsIffAllPass | src/app/root/productos/importar/page.jsx:131-132 | the success alert and the move to the list happen exactly when every row is complete and accepted |
| Sitemap.CategoryEntry | src/app/sitemap.js:27-32 | the category's url, weekly, stamped now, priority 0.9 exactly for "ofertas" and 0.8 otherwise |
| Sitemap.Build | src/app/sitemap.js:19-33 | the home page and one entry per category |
| Sitemap.BuildShape | src/app/sitemap.js:1-34 | eleven entries: the home page first, daily with priority 1, then the categories in list order, all stamped with the same time |
| Sitemap.OnlyOffersRaised | src/app/sitemap.js:14-31 | only the last entry, the offers page, has priority 0.9 |
| Sitemap.UrlsDistinct | src/app/sitemap.js:19-33 | no page is listed twice |

## Left out

- Firebase reads and writes are not performed: a read is a `Read` outcome or a snapshot passed in, a write is the payload returned, and `push` keys are an `ids` parameter.
- Errors thrown by the database calls of `createProduct`, `updateProduct` and `deleteProduct` are not modelled; only the validation errors the service raises itself are.
- `getProductById` is a database read followed by `mapProduct` and has no member of its own; `deleteProduct` is a pure database write.
- `Date.now()` and `new Date()` are a `now` parameter. `Math.random()` is a sequence of draws in [0, 1), as the shuffle reads them.
- `localStorage` is a stored value; its JSON round trip is taken to be lossless. Server-side rendering, where `window` is undefined, is not modelled.
- `Intl.NumberFormat` money formatting is the `fmt` parameter, and `encodeURIComponent` is the `encode` parameter. `window.open` and the navigation it does are not modelled.
- `toLowerCase` changes only the ASCII letters, and `normalize("NFD")` decomposes only the precomposed Latin-1 letters. Other Unicode letters are kept as they are.
- `decodeURIComponent` of the category slug is not modelled: the page is given the decoded slug.
- `localeCompare` is the character-by-character order of the texts (`JsText.LexLeq`), not a locale collation.
- Numbers are exact reals, not IEEE doubles. Signed zero and binary rounding (`toFixed` on halves, `0.1 + 0.2`) are not modelled, nor is NaN flowing through `Math.max`.
- `JsValue.NumberOf`: a value holds no NaN or infinity, so `Number(x)` stored in a record with one of those results is held as `x`, which reads back as the same number.
- CartContext.TotalPrice: cart lines always carry a number for their price and quantity, so the `|| 0` fallbacks for a missing one are not modelled.
- Property reads on arrays and strings (such as `length`) read as `undefined`, and so do reads from `null` or `undefined`, which the source writes with `?.` or guards first. A dotted-path update through an array is counted as a failure.
- `[key]: value` updates take keys from the fields a product has (`ProductsService.Field`). A key outside them is not modelled.
- In a spread, a property explicitly set to `undefined` is treated as absent, so it does not override the earlier value.
- `===` on ids compares by value; an id that is an object would compare by reference in the source.
- ProductsService.GetProductsNewestFirst: newest first is proved only when every creation time reads as a number. A truthy creation time that is not a number makes the difference NaN, which the sort takes as a tie, so the comparator is not transitive (`ProductsService.NewerFirstNotTransitiveWithNaN`). The order the engine's sort then gives depends on its algorithm; the model's stable insertion keeps such products in their snapshot order (`ProductsService.UndatedKeepOrder`).
- TodosProductosClient.FilteredOrder: sortedness is proved only when every price reads as a number. A NaN price makes the comparator inconsistent; the model still sorts, by a stable insertion.
- A truthy name that is not text is read through `String` (`ProductsService.TextOr`), where the source would throw. This covers `toLowerCase` in the searches, `localeCompare` in the home page's name sorts, and `slugify` of a truthy category name that is not text (src/services/productsService.js:8-9), whose `normalize` would throw.
- The query-string effect of the two admin product lists is the same as the home page's. It is stated once, as `RootPage.OfferFilterFromQuery`.
- ProductForm.HandleSubmit: what happens after `onSubmit` is called (its errors and the caller's follow-up) is outside the component.
- Spreadsheet and file handling are not modelled: the XLSX parsing, `FileReader`, `json_to_sheet` and `writeFile`. `parseExcelFile` is modelled from the rows `sheet_to_json` yields.
- Alerts, confirmation dialogs and routing enter as their outcome (`confirmed`, the error text, success). The loading flags, the edit modal, the ESC key, the `showPerDay` toggle and the admin-route guards are not modelled.
- The store-data page's save and reload calls (`guardar`, `updateLocalData`) are database writes and are not modelled.
- Fuse.js search, the session tokens and the middleware, `AuthContext` and the purely presentational components are outside this model.
- ProductsService.StoredPrice: prices are finite reals here, so a stored text reading as an infinity ("Infinity", "-Infinity") is held as 0, where the source keeps the infinity.
- ProductsService.StoredOffer: likewise, a stored text reading as an infinity is held as null, where the source keeps the infinity as the offer.
- ProductsService.Normalize: a product whose stored price or offer text reads as an infinity gets 0 or null for it, as in the two lines above.
- ProductsService.MapProduct: the same infinity difference, through `Normalize`.
- JsValue.StringToNumber: decimal and exponent literals are read as exact reals, so a literal too large for a double ("1e999") is finite here where the source gets Infinity.
- DatosPage.AssignDays: the schedule is a value, so it does not capture that the source points every selected day at one payload object (see Findings; `DatosSharing` models the sharing).
- DatosPage.DatosState.ApplyBulkToSelected: it models the apply with one copy per day, not the shared payload object of the source (see Findings).
- DatosPage.DatosState.Update: a write reaches only the day on its path; after a bulk apply the source's write reaches every day sharing that day's object (see Findings).
- DatosPage.SetPathFrame: the frame holds for the value model; in the source, after a bulk apply, paths through other selected days are not framed (see Findings).
- DatosPage.BulkAppliedMeaning: it states the contents right after the apply, which the source shares; it does not state that the selected days stay independent afterwards.
- DatosSharing: sharing is tracked per day object. Band objects are never shared between different day objects by the source, so a band write is modelled as a write to its day. The default a falsy day gets before the payload is not allocated, since the next statement overwrites it.

## Findings

| source | as written | input that shows it | evidently intended | confidence | as-written member | corrected member |
|---|---|---|---|---|---|---|
| src/app/root/datos/page.jsx:169-189 | `applyBulkToSelected` builds one `payload` object and assigns that same object to every selected day; `structuredClone` in later updates keeps the sharing, so a per-day edit through `update("horarios.<day>...")` writes into the object every selected day holds | apply the block to lunes and martes, then click lunes' "Cerrado" switch: martes' switch flips too | each selected day gets its own copy of the payload, so a later per-day edit changes that day alone | not executed | DatosSharing.MondaySwitchFlipsTuesday | DatosSharing.CopiesKeepDaysApart |
