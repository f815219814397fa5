# Importadora Miranda storefront: the rules behind the pages

This project models, in Dafny, the small deterministic rules that the
storefront's React components apply to the catalogue, the cart and the
current route, and proves what those rules promise. It covers:

- **The catalogue pages.**
  - "Todos los productos": a case-insensitive name filter, a two-key order
    (active first, then in stock), and a visible-count counter stepping by 20.
  - The category page: the category is looked up by name, its products are
    filtered by name, and the filtered array is sorted in place with in-stock
    products first.
  - The home slider of categories and the wholesale category index.
- **The header search.** The catalogue is flattened from its categories.
  A product matches on name, description or price text. The state changes on
  typing, submitting, selecting, clearing and routing, and the panel lists
  the first five results.
- **The home carousel.** Its index cycles over the in-stock products by
  auto-advance and by drag, wrapping around modulo their number.
- **The product page.** A quantity stepper clamped to 1..99, the line its
  add-to-cart button hands to the cart, and the strip of related products.
- **Promotions.** Each product of a promotion becomes one cart line.
  - On the promotions grid, "Comprar" toggles every line against the cart
    snapshot: a line already in the cart is removed, any other is added.
  - The grid card shows the distinct first photos of the promotion's products.
  - The promotion page adds one promotion line per product.
- **The wholesale coupon gate.** A blank code is refused. Any other code is
  accepted if and only if some coupon carries exactly that code and is active.
- **Route rules.**
  - Which header, footer and cart icon a path gets.
  - Which payment page the floating cart's checkout opens.

The shared cart store is not part of the model. A component's effect on it
is modelled as the sequence of calls it makes: `Cart.CartAction` values, or
the `Cart.CartLine` values handed to `addToCart`. The store's contents are
modelled as an input snapshot of `Cart.CartItem`s.

Modules, one per component plus five shared ones:

- **Shared modules.**
  - `Wrappers`: `Option`.
  - `Photos`: the photo record and the category cards' image tile.
  - `Text`: ASCII lower-casing, `includes`, `startsWith`, `trim`.
  - `Seqs`: filter, slice, the stable sort by a rank, first-occurrence dedup.
  - `Cart`: the records exchanged with the cart store.
- **One module per component.** `TodosLosProductos`, `CategoriaProductos`,
  `Header`, `ProductCarousel`, `ProductDetails`, `PromotionCard`,
  `PromotionDetails`, `CatalogoMayoristas`, `App`, `FloatingCart`,
  `CategoriasMayor`, `CategoriasUno`.

Pure rules are functions, and lemmas prove their properties. Component state
that handlers update step by step is a class. Its methods are specified
against those functions. The one in-place algorithm, the category page's
`sort`, works on an `array`.

JavaScript's `Array.prototype.sort` is stable. With each comparator as
written, it therefore produces `Seqs.SortByRank` for a rank function the
model defines. The comparators are proved to compare exactly those ranks
when stock is non-negative. `Seqs.StableSortIsUnique` shows that any output
that is ordered by rank and keeps the input order within each rank is this
one.

## Model

| member | source | states |
|---|---|---|
| TodosLosProductos.CompareIsByRank | src/components/TodosLosProductos.tsx:99-105 | for non-negative stock the comparator is negative, zero or positive exactly as the rank (active/in-stock first) is smaller, equal or larger |
| TodosLosProductos.ListingIsMatchingProducts | src/components/TodosLosProductos.tsx:94-107 | the sorted listing is a permutation of the filtered products; a product is listed iff it is in the catalogue and its lowered name contains the lowered query |
| TodosLosProductos.EmptyQueryKeepsAll | src/components/TodosLosProductos.tsx:95-98 | with an empty query every catalogue product is listed, each as often as in the catalogue |
| TodosLosProductos.ListingOrder | src/components/TodosLosProductos.tsx:100-103 | every active product precedes every inactive one; within one estado class every in-stock product precedes every out-of-stock one |
| TodosLosProductos.ListingStable | src/components/TodosLosProductos.tsx:99-105 | products of equal rank keep their relative catalogue order |
| TodosLosProductos.ListingIsTheStableSort | src/components/TodosLosProductos.tsx:99-105 | any rank-ordered arrangement of the matching products that keeps catalogue order within each rank equals the listing |
| TodosLosProductos.ShowMore | src/components/TodosLosProductos.tsx:109-111 | the new count is the smaller of count + 20 and the list length, so never above the length |
| TodosLosProductos.ShowLess | src/components/TodosLosProductos.tsx:113-115 | the new count is the larger of count − 20 and 20, so never below 20 |
| TodosLosProductos.ShowMoreGrows | src/components/TodosLosProductos.tsx:109-111 | while some product is hidden, "Ver más" shows strictly more and at most the whole list |
| TodosLosProductos.ShowLessUndoesShowMore | src/components/TodosLosProductos.tsx:109-115 | "Ver menos" after a full-page "Ver más" restores the previous count |
| TodosLosProductos.ProductosPage.constructor | src/components/TodosLosProductos.tsx:56-62 | initial state: no products, empty query, 20 shown, loading, no error |
| TodosLosProductos.ProductosPage.FetchDone | src/components/TodosLosProductos.tsx:64-76 | a successful fetch stores the flattened products and re-derives the listing; a failure sets the load error; loading ends either way |
| TodosLosProductos.ProductosPage.SetQuery | src/components/TodosLosProductos.tsx:94-107 | a new query re-derives the listing from the same catalogue and leaves the count unchanged |
| TodosLosProductos.ProductosPage.ShowMoreProducts | src/components/TodosLosProductos.tsx:109-111 | the count becomes ShowMore of the old count and grows, staying within the listing |
| TodosLosProductos.ProductosPage.ShowLessProducts | src/components/TodosLosProductos.tsx:113-115 | the count becomes ShowLess of the old count, shrinks, and stays at least 20 |
| TodosLosProductos.ProductosPage.Render | src/components/TodosLosProductos.tsx:133-228 | loading text while loading with no products, then the error with its own text, else the first visibleCount listed products; "Ver más" iff some are hidden, "Ver menos" iff more than 20 are shown |
| CategoriaProductos.FindCategory | src/components/CategoriaProductos.tsx:75-77 | None iff no category's lowered name equals the lowered route name; otherwise the first such category |
| CategoriaProductos.FindCategoryIgnoresCase | src/components/CategoriaProductos.tsx:76 | the lookup gives the same category for the route name as for its lowered form |
| CategoriaProductos.CompareIsByStockRank | src/components/CategoriaProductos.tsx:124-128 | for non-negative stock the comparator compares exactly in-stock-first ranks |
| CategoriaProductos.InStockFirst | src/components/CategoriaProductos.tsx:124-127 | after the sort every in-stock product precedes every out-of-stock one |
| CategoriaProductos.InsertInto | src/components/CategoriaProductos.tsx:124-128 | one pass of the in-place sort moves a[i] into place in the sorted suffix and leaves the prefix alone |
| CategoriaProductos.SortByStock | src/components/CategoriaProductos.tsx:124-128 | the in-place sort leaves the array equal to the stable sort by stock rank of its old contents |
| CategoriaProductos.CategoriaPage.constructor | src/components/CategoriaProductos.tsx:62-69 | initial state for a route name: no products, empty query and array, loading, no error |
| CategoriaProductos.CategoriaPage.FetchDone | src/components/CategoriaProductos.tsx:71-111 | a found category sets the products and the array to them filtered by the query; a missing one sets the error naming the category, and a failed fetch sets the load error, both keeping the products, the array and its contents; loading ends |
| CategoriaProductos.CategoriaPage.SetQuery | src/components/CategoriaProductos.tsx:106-111 | the array becomes the products whose lowered name contains the lowered query, in order |
| CategoriaProductos.CategoriaPage.Render | src/components/CategoriaProductos.tsx:124-136 | the array is sorted in place, then loading, the error, or the sorted filtered products are rendered |
| Header.AllProducts | src/components/Header.tsx:152-154 | a product is in the flattened list iff it is in some category's present productos list |
| Header.AllProductsAppend | src/components/Header.tsx:152-154 | flattening distributes over concatenation of the category list |
| Header.AllProductsSingle | src/components/Header.tsx:152-154 | a category with missing productos contributes nothing; otherwise exactly its products |
| Header.SearchResults | src/components/Header.tsx:168-193 | a query empty after trimming gives no results; otherwise a product is a result iff it is in the catalogue and matches |
| Header.SearchResultsShape | src/components/Header.tsx:170-189 | an all-white-space query finds nothing; any other query's results are a sub-sequence of the catalogue |
| Header.NameMatchIgnoresCase | src/components/Header.tsx:181 | a product found by name is also found by the lowered query |
| Header.DisplayPrice | src/components/Header.tsx:43 | precio_extra if non-empty, else precio if non-empty, else "0"; never empty |
| Header.ProductImage | src/components/Header.tsx:37-40 | the first photo under the storage URL, or "/placeholder.jpg" when there is none |
| Header.SearchBox.constructor | src/components/Header.tsx:89-95 | the initial search state: everything empty and false |
| Header.SearchBox.FetchDone | src/components/Header.tsx:140-161 | a successful fetch stores the flattened catalogue; a failure keeps the old one; loading ends |
| Header.SearchBox.InputChange | src/components/Header.tsx:196-207 | the panel is shown iff the text is non-empty; empty text also clears the results |
| Header.SearchBox.SearchFired | src/components/Header.tsx:168-193 | the results become SearchResults of the catalogue for the query and the search is not in progress afterwards |
| Header.SearchBox.Submit | src/components/Header.tsx:223-229 | navigates to "/busqueda?q=" + query iff the query is not blank, and then hides the panel |
| Header.SearchBox.SelectProduct | src/components/Header.tsx:249-255 | navigates to "/producto/" + id and clears and closes the search |
| Header.SearchBox.ClearQuery | src/components/Header.tsx:296-304 | the clear button empties the text and changes nothing else |
| Header.SearchBox.ToggleMobileSearch | src/components/Header.tsx:232-246 | flips the mobile box; opening it also clears the text and hides the panel |
| Header.SearchBox.RouteChanged | src/components/Header.tsx:132-137 | a route change clears the text and hides the panel and the mobile box |
| Header.SearchBox.ClickOutside | src/components/Header.tsx:116-127 | a click outside hides the panel; the panel's close button (lines 336-347) makes the same change to the panel's state |
| Header.SearchBox.RenderPanel | src/components/Header.tsx:332-377 | the panel exists iff results are shown and the query is not blank; it lists exactly the first min(5, n) of the n results, in order, with the total count, or says nothing matched |
| Header.PanelNeverSearching | src/components/Header.tsx:176-190 | since the in-progress flag is raised and lowered in one call, a shown panel never reads "Buscando..." |
| ProductCarousel.Available | src/components/principal/product-carousel.tsx:32 | a product is available iff it is given and has stock > 0 |
| ProductCarousel.AvailableKeepsOrder | src/components/principal/product-carousel.tsx:32 | the available products are a sub-sequence of the given ones |
| ProductCarousel.Next | src/components/principal/product-carousel.tsx:40 | the step right stays in [0, n), goes to i + 1 or wraps from n − 1 to 0 |
| ProductCarousel.Prev | src/components/principal/product-carousel.tsx:47 | the step left stays in [0, n), goes to i − 1 or wraps from 0 to n − 1 |
| ProductCarousel.PrevNextInverse | src/components/principal/product-carousel.tsx:45-49 | within range a step left undoes a step right and conversely |
| ProductCarousel.AfterDrag | src/components/principal/product-carousel.tsx:45-51 | an offset above 100 steps left, below −100 steps right, otherwise the slide is kept |
| ProductCarousel.Carousel.constructor | src/components/principal/product-carousel.tsx:31-33 | starts at index 0 with the given products |
| ProductCarousel.Carousel.SetProducts | src/components/principal/product-carousel.tsx:31-33 | new products replace the old and the index is kept |
| ProductCarousel.Carousel.Tick | src/components/principal/product-carousel.tsx:37-43 | the timer, which runs only when some product is available, sets the index to Next and so into range |
| ProductCarousel.Carousel.DragEnd | src/components/principal/product-carousel.tsx:45-51 | the index becomes AfterDrag of the old one: a short drag keeps it, a long one lands in range |
| ProductCarousel.Carousel.AddToCart | src/components/principal/product-carousel.tsx:53-61 | the line for the current available product, with its id, name and price and the image falling back to "/placeholder.jpg"; none when the index is past the end |
| ProductDetails.Increment | src/components/detalle/ProductDetails.tsx:300 | the quantity goes up by one and never beyond 99 |
| ProductDetails.Decrement | src/components/detalle/ProductDetails.tsx:291 | the quantity goes down by one and never below 1 |
| ProductDetails.StepsKeepRange | src/components/detalle/ProductDetails.tsx:291-300 | both buttons preserve 1 ≤ quantity ≤ 99 |
| ProductDetails.StepsUndo | src/components/detalle/ProductDetails.tsx:291-300 | away from the bounds each button undoes the other |
| ProductDetails.QuantityStepper.constructor | src/components/detalle/ProductDetails.tsx:50 | the quantity starts at 1 |
| ProductDetails.QuantityStepper.Increase | src/components/detalle/ProductDetails.tsx:300 | the quantity becomes Increment of the old one and stays in range |
| ProductDetails.QuantityStepper.Decrease | src/components/detalle/ProductDetails.tsx:291 | the quantity becomes Decrement of the old one and stays in range |
| ProductDetails.CartPrice | src/components/detalle/ProductDetails.tsx:145 | the first price row's precio_extra when non-empty, else precio |
| ProductDetails.DisplayPrice | src/components/detalle/ProductDetails.tsx:274 | the cart price when non-empty, and exactly "0.00" when it is empty |
| ProductDetails.AddToCartLine | src/components/detalle/ProductDetails.tsx:141-157 | a line iff a product with a non-empty first photo is loaded; it carries the id, name, cart price and that photo under the storage URL |
| ProductDetails.RelatedImage | src/components/detalle/ProductDetails.tsx:120-122 | the first photo under the storage URL, else the via.placeholder image |
| ProductDetails.WithImages | src/components/detalle/ProductDetails.tsx:118-123 | each product, in order, paired with its image URL |
| ProductDetails.Related | src/components/detalle/ProductDetails.tsx:114-132 | related cards never have the current id and come from the first group; no cards when the response or its first group is empty |
| ProductDetails.RelatedKeepsOrder | src/components/detalle/ProductDetails.tsx:116-117 | the related products are exactly the first group's products other than the current one, in order |
| ProductDetails.ShownRelated | src/components/detalle/ProductDetails.tsx:364 | the first min(5, n) related cards, in order: exactly five when there are at least five, all of them otherwise |
| ProductDetails.AddButton.constructor | src/components/detalle/ProductDetails.tsx:53 | the confirmation flag starts lowered |
| ProductDetails.AddButton.Click | src/components/detalle/ProductDetails.tsx:141-157 | a click, possible only while the flag is lowered since the button is disabled otherwise (line 314), hands AddToCartLine to the cart; the flag is raised only when a line was produced |
| ProductDetails.AddButton.FlashEnded | src/components/detalle/ProductDetails.tsx:156 | the timeout lowers the flag |
| Cart.LineImage | src/components/PromotionCard.tsx:55-57 | the first photo under the storage URL when it is non-empty, else "/placeholder.jpg"; the promotion page's lines use the same rule |
| PromotionCard.LineFor | src/components/PromotionCard.tsx:50-58 | a line with the product's id, the name "promotion - product", the promotion price and the line image |
| PromotionCard.CartLines | src/components/PromotionCard.tsx:50-59 | one line per promotion product, in order |
| PromotionCard.Lines | src/components/PromotionCard.tsx:50-59 | the map over any list of products: one line each, in order |
| PromotionCard.SamePriceEverywhere | src/components/PromotionCard.tsx:54 | every line carries the promotion's price |
| PromotionCard.Toggle | src/components/PromotionCard.tsx:61-68 | Remove(id) iff the line's id is in the cart snapshot, Add(line) otherwise |
| PromotionCard.ToggleAll | src/components/PromotionCard.tsx:61-68 | one action per line, in order, each the toggle of that line |
| PromotionCard.HandleComprar | src/components/PromotionCard.tsx:49-69 | the loop's calls are exactly ToggleAll of the promotion's lines |
| PromotionCard.ComprarCalls | src/components/PromotionCard.tsx:61-68 | product i's action removes it if its id is in the cart, else adds its line |
| PromotionCard.ComprarAllOrNothing | src/components/PromotionCard.tsx:61-68 | with no product in the cart, every action adds; with all of them in it, every action removes |
| PromotionCard.ButtonSaysRemoveAsWritten | src/components/PromotionCard.tsx:184 | the label test as written: some cart item has the promotion's id |
| PromotionCard.LabelDisagreesWithClick | src/components/PromotionCard.tsx:179-184 | a counterexample: the label offers to add while the click removes |
| PromotionCard.ButtonSaysRemove | src/components/PromotionCard.tsx:184 | the intended label test: some promotion product is in the cart |
| PromotionCard.LabelAgreesWithClick | src/components/PromotionCard.tsx:184 | with the intended test, the label says "Quitar" iff a click would remove something |
| PromotionCard.FirstPhoto | src/components/PromotionCard.tsx:104 | the first photo under the storage URL, or null when there are no photos |
| PromotionCard.FirstPhotos | src/components/PromotionCard.tsx:103-105 | the map over the products, in order |
| PromotionCard.UniqueImages | src/components/PromotionCard.tsx:101-107 | the images are distinct and no more than the products; an image occurs iff it is some product's first photo |
| PromotionCard.UniqueImagesOrder | src/components/PromotionCard.tsx:101-107 | the images keep their first-occurrence order |
| Cart.IsInCart | src/components/PromotionCard.tsx:73 | true iff some cart item has the id |
| PromotionDetails.ItemFor | src/components/detalle/PromotionDetails.tsx:65-79 | a promotion line with the product's id and name, the promotion price, "Incluye: " + name, and idProducto equal to its id |
| PromotionDetails.Items | src/components/detalle/PromotionDetails.tsx:65-80 | one item per promotion product, in order |
| PromotionDetails.ItemsOf | src/components/detalle/PromotionDetails.tsx:65-80 | the map over any list of products: one item each, in order |
| PromotionDetails.ItemsArePromotionLines | src/components/detalle/PromotionDetails.tsx:69-78 | every item has the promotion's price and a promotion record with its name |
| PromotionDetails.AddButton.constructor | src/components/detalle/PromotionDetails.tsx:40 | the confirmation flag starts lowered |
| PromotionDetails.AddButton.HandleAddToCart | src/components/detalle/PromotionDetails.tsx:61-89 | a click, possible only while the flag is lowered since the button is disabled otherwise (line 190): with no promotion, no calls and no flag change; otherwise one addToCart per item, in order, then the flag is raised |
| PromotionDetails.AddButton.FlashEnded | src/components/detalle/PromotionDetails.tsx:88 | the timeout lowers the flag |
| PromotionDetails.AddButton.LabelAsWritten | src/components/detalle/PromotionDetails.tsx:194 | the label as written: "¡Añadido!" while flagged, else "En el Carrito" iff some cart item has the promotion's id |
| PromotionDetails.AddButton.Label | src/components/detalle/PromotionDetails.tsx:194 | the intended label: "En el Carrito" iff some promotion product is in the cart |
| PromotionDetails.LabelAfterAdd | src/components/detalle/PromotionDetails.tsx:194 | after the flash, with every added line in the cart, the intended label reads "En el Carrito" |
| PromotionDetails.LabelAsWrittenAfterAdd | src/components/detalle/PromotionDetails.tsx:92 | a counterexample: every line is in the cart, yet the label as written reads "Agregar al Carrito" |
| CatalogoMayoristas.FindValid | src/components/Mayoristas/CatalogoMayoristas.tsx:35-37 | None iff no coupon has exactly the code and estado "Activo"; otherwise such a coupon |
| CatalogoMayoristas.Decide | src/components/Mayoristas/CatalogoMayoristas.tsx:20-50 | blank iff the trimmed code is empty; failed iff not blank and the lookup failed; accepted iff not blank and some fetched coupon grants the untrimmed code |
| CatalogoMayoristas.BlankNeverLooksUp | src/components/Mayoristas/CatalogoMayoristas.tsx:21-24 | a white-space code is refused whatever the lookup would return |
| CatalogoMayoristas.AcceptedNeedsExactCode | src/components/Mayoristas/CatalogoMayoristas.tsx:35-37 | coupons carrying one code never accept a different code |
| CatalogoMayoristas.PaddedCodeRejected | src/components/Mayoristas/CatalogoMayoristas.tsx:21-37 | a code with a leading space matches no coupon stored without one: the untrimmed code is looked up |
| CatalogoMayoristas.Gate.constructor | src/components/Mayoristas/CatalogoMayoristas.tsx:9-11 | empty code and message, not loading |
| CatalogoMayoristas.Gate.Type | src/components/Mayoristas/CatalogoMayoristas.tsx:16-18 | typing replaces the code only |
| CatalogoMayoristas.Gate.Validar | src/components/Mayoristas/CatalogoMayoristas.tsx:20-50 | blank gives the blank message and no effects; acceptance authorizes and then navigates to "/main"; rejection and failure set their messages; loading is false after any non-blank attempt |
| App.FooterShown | src/App.tsx:56-63 | the footer is hidden exactly on "/catalogo" and "/main" |
| App.SomeStartsWith | src/App.tsx:151 | true iff the path starts with one of the prefixes |
| App.HeaderFor | src/App.tsx:140-165 | the wholesale header iff the wholesale test holds; otherwise no header iff the path is in the hidden list; else the main header |
| App.HeaderMayoristaPrefixes | src/App.tsx:150-154 | the wholesale test holds exactly on the four prefixes; the slash-terminated tests add nothing |
| App.HeaderHiddenExactly | src/App.tsx:156-162 | the header is hidden exactly on "/pedidos", "/pedidos_1", "/catalogo" and "/main": no hidden path passes the wholesale test |
| App.CartIconFor | src/App.tsx:96-115 | no icon exactly on "/pedidos" and "/catalogo"; otherwise blue iff on a wholesale prefix, with a badge iff the item count is positive |
| App.IconColourMatchesCheckout | src/App.tsx:96-100 | a blue icon's cart checks out to "/pago1", a purple one's to "/pago" |
| App.PaymentPageMixesThemes | src/App.tsx:150-154 | "/pago1" gets the wholesale header but the retail icon colour |
| App.CarouselProducts | src/App.tsx:521 | the carousel receives exactly the products with stock > 0 |
| App.CarouselSeesAllItIsGiven | src/App.tsx:520-522 | the carousel's own stock filter keeps all it receives |
| FloatingCart.IsMayoristaRouteIsPrefixTest | src/components/carrito/FloatingCart.tsx:21-25 | a wholesale route is exactly a path starting with one of the four prefixes |
| FloatingCart.Checkout | src/components/carrito/FloatingCart.tsx:29-40 | closes first, then navigates to "/pago1" iff on a wholesale route, else to "/pago" |
| FloatingCart.CheckoutFromWholesalePayment | src/components/carrito/FloatingCart.tsx:21-39 | a checkout started on "/pago1" goes to "/pago" |
| FloatingCart.Render | src/components/carrito/FloatingCart.tsx:42-66 | nothing iff closed; the empty message iff open with no items; else the items in order |
| CategoriasMayor.FilteredCategories | src/components/Mayoristas/CategoriasMayor.tsx:46-48 | a category is kept iff its lowered name contains the lowered query |
| CategoriasMayor.FilteredCategoriesShape | src/components/Mayoristas/CategoriasMayor.tsx:46-48 | the kept categories are a sub-sequence; an empty query keeps them all |
| CategoriasMayor.ShownProducts | src/components/Mayoristas/CategoriasMayor.tsx:117 | at most the first four products, in order |
| Photos.Tile | src/components/Mayoristas/CategoriasMayor.tsx:120-127 | "Sin imagen" iff the product has no photos, else the first photo under the storage URL; the home category slider draws its tiles by the same rule |
| CategoriasMayor.CategoryPath | src/components/Mayoristas/CategoriasMayor.tsx:50-52 | "/categoriamayor/" followed by the category name |
| CategoriasMayor.CategoryPathIsWholesale | src/components/Mayoristas/CategoriasMayor.tsx:51 | the page opened gets the wholesale header and checks out to "/pago1" |
| CategoriasMayor.Render | src/components/Mayoristas/CategoriasMayor.tsx:54-55 | loading first, then the error showing its own text, then the filtered categories |
| CategoriasUno.PriceLabel | src/components/categhoria/Categoriasuno.tsx:120 | precio_extra unless exactly "0.00", else precio unless exactly "0.00", else "0"; never "0.00" |
| CategoriasUno.ShownProducts | src/components/categhoria/Categoriasuno.tsx:105 | at most the first four products, in order |
| CategoriasUno.CategoryPath | src/components/categhoria/Categoriasuno.tsx:53-55 | "/categorias/" followed by the category name |
| CategoriasUno.CategoryPathHasMainHeader | src/components/categhoria/Categoriasuno.tsx:54 | the page opened gets the main header: it is neither wholesale nor hidden |
| CategoriasUno.Render | src/components/categhoria/Categoriasuno.tsx:58-59 | loading takes precedence over the error, which shows its own text, then the slides |
| Seqs.SortByRankSortedPermutation | src/components/TodosLosProductos.tsx:99-105 | the stable sort by rank is ordered by rank and a permutation of its input |
| Seqs.SortByRankStable | src/components/TodosLosProductos.tsx:99-105 | the stable sort keeps the input order within each rank |
| Seqs.StableSortIsUnique | src/components/TodosLosProductos.tsx:99-105 | any rank-ordered sequence that keeps the input order within each rank is the stable sort |
| Seqs.FilterMultiplicity | src/components/TodosLosProductos.tsx:95-98 | `filter` keeps every copy of a matching element and no copy of any other |
| Seqs.DedupFirstOccurrenceOrder | src/components/PromotionCard.tsx:101-107 | a Set built from a list keeps the first-occurrence order |
| Text.TrimEmptyIffBlank | src/components/Header.tsx:170 | `trim` gives the empty text iff the text is all white space |

## Left out

- The cart store (`CarritoContext`) is not part of this model. Its effect appears only as the calls the components make and as the snapshot they read.
- Network requests are inputs. A response is `Some`/`FetchOk`/`Fetched` and a failure is `None`/`FetchFailed`/`LookupFailed`. Response shapes beyond the fields read here are not modelled.
- Timers are not modelled as time:
  - the 300 ms search debounce, including its closure possibly seeing an older catalogue;
  - the 5 s carousel interval;
  - the 2 s "added" flash.
  Each is the one transition it fires (`SearchFired`, `Tick`, `FlashEnded`).
- Prices are opaque text; `parseFloat` is not modelled.
- ProductDetails.DisplayPrice: does not model the "+100" strikethrough price next to it, which needs floating point.
- Text.Lower: lowers ASCII letters only; full Unicode `toLowerCase` is not modelled.
- Header.SearchBox.Submit: the query is concatenated raw. `encodeURIComponent` is not modelled.
- TodosLosProductos.CompareIsByRank: requires non-negative stock. With negative stock the written comparator is not a consistent order, and the engine's result is unspecified.
- CategoriaProductos.CompareIsByStockRank: requires non-negative stock, for the same reason.
- TodosLosProductos.ProductosPage.FetchDone: the source first stores the unsorted products and lets the filter effect re-derive the listing. The model states the state after the effect.
- CategoriaProductos.CategoriaPage.FetchDone: the source stores the category's unfiltered products in both lists, one array shared by the two, and the filter effect then replaces the array with a filtered copy. The model states the state after the effect. It leaves out the sharing, so a sort before that effect would also reorder `productos` in the source but does not in the model.
- ProductCarousel.Carousel.SetProducts: keeps the index when the products change, as React state does. The index can then lie past the end. There the source's render already reads `availableProducts[currentIndex].nombre` from `undefined` and throws (product-carousel.tsx:83, 86 and 100), before any click or tick. The model has no such failure: `AddToCart` gives `None` there, standing for the throw.
- ProductDetails.AddToCartLine: the stepper's quantity is not part of the line, as in the source, so the cart's quantity rule decides.
- CategoriaProductos.CategoriaPage.constructor: the route parameter is a plain text fixed for the page object. Its absence (`categoryName` undefined) is not modelled. A change of the parameter is not modelled either: in the source that change re-runs the fetch, and since nothing resets the error, an earlier not-found message stays on screen.
- Product ids in the header search are text: the source accepts a number or a text there.
- Rendering is modelled only as the branch each view takes. The Swiper/Slick sliders, the animations, the IntersectionObserver fade-in, the scroll listeners, the focus handling and the falling/floating decorations driven by `Math.random` are left out.
- The branches map, the wholesale header, the footer and the second promotion card are presentational and not part of this model.

## Findings

| source | as written | input that shows it | evidently intended | confidence | as-written member | corrected member |
|---|---|---|---|---|---|---|
| src/components/PromotionCard.tsx:184 | the button label tests `isInCart(promocion.id)`, a promotion id, against cart ids, which are product ids | promotion 7 with product 1, cart holding item 1: the label says "Agregar al Carrito" but the click removes product 1 | the label tests whether the promotion's products are in the cart, as the click does | not executed | PromotionCard.LabelDisagreesWithClick | PromotionCard.LabelAgreesWithClick |
| src/components/detalle/PromotionDetails.tsx:194 | the label tests `isInCart(promotionDetails.id)` against cart ids, which are the product ids the add loop sends | promotion 7 with product 1, cart holding item 1 after the add: the label reads "Agregar al Carrito" | the label reads "En el Carrito" once the promotion's products are in the cart | not executed | PromotionDetails.LabelAsWrittenAfterAdd | PromotionDetails.LabelAfterAdd |
