/** The route rules of the application shell: which header, footer and cart
    icon appear on a path, and the products the home carousel receives. */
module App {
  import opened Text
  import opened Seqs
  import FloatingCart
  import ProductCarousel

  // ---------------------------------------------------------------------
  // Footer

  const HiddenFooterPaths: seq<string> := ["/catalogo", "/main"]

  /** `ConditionalFooter`: hidden exactly on the two listed paths. */
  function FooterShown(path: string): (b: bool)
    ensures !b <==> path == "/catalogo" || path == "/main"
  {
    path !in HiddenFooterPaths
  }

  // ---------------------------------------------------------------------
  // Header

  const HiddenHeaderPaths: seq<string> := ["/pedidos", "/pedidos_1", "/catalogo", "/main"]
  const MayoristaPaths: seq<string> := ["/categoriamayor", "/productosmayoristas", "/productomayor"]

  /** `prefixes.some(p => path.startsWith(p))`. */
  function SomeStartsWith(path: string, prefixes: seq<string>): (b: bool)
    ensures b <==> exists i :: 0 <= i < |prefixes| && StartsWith(path, prefixes[i])
  {
    if prefixes == [] then false
    else
      var b := StartsWith(path, prefixes[0]) || SomeStartsWith(path, prefixes[1..]);
      assert forall i :: 1 <= i < |prefixes| ==> prefixes[i] == prefixes[1..][i - 1];
      b
  }

  /** `isMayoristaRoute` of `ConditionalHeader`, as written. */
  predicate HeaderMayoristaTest(path: string) {
    || SomeStartsWith(path, MayoristaPaths)
    || StartsWith(path, "/categoriamayor/")
    || StartsWith(path, "/productomayor/")
    || StartsWith(path, "/pago1")
  }

  /** The header a path gets. */
  datatype HeaderKind = MayoristaHeader | NoHeader | MainHeader

  /** `ConditionalHeader`: the wholesale test first, then the hidden list. */
  function HeaderFor(path: string): (h: HeaderKind)
    ensures h == MayoristaHeader <==> HeaderMayoristaTest(path)
    ensures h == NoHeader <==> !HeaderMayoristaTest(path) && path in HiddenHeaderPaths
  {
    if HeaderMayoristaTest(path) then MayoristaHeader
    else if path in HiddenHeaderPaths then NoHeader
    else MainHeader
  }

  /** The two slash-terminated tests add nothing: the wholesale header is
      shown exactly on the four prefixes. */
  lemma HeaderMayoristaPrefixes(path: string)
    ensures HeaderMayoristaTest(path) <==>
      || StartsWith(path, "/categoriamayor")
      || StartsWith(path, "/productosmayoristas")
      || StartsWith(path, "/productomayor")
      || StartsWith(path, "/pago1")
  {
    assert StartsWith("/categoriamayor/", "/categoriamayor");
    assert StartsWith("/productomayor/", "/productomayor");
    if StartsWith(path, "/categoriamayor/") {
      StartsWithShorter(path, "/categoriamayor", "/categoriamayor/");
    }
    if StartsWith(path, "/productomayor/") {
      StartsWithShorter(path, "/productomayor", "/productomayor/");
    }
    if StartsWith(path, "/categoriamayor") { assert StartsWith(path, MayoristaPaths[0]); }
    if StartsWith(path, "/productosmayoristas") { assert StartsWith(path, MayoristaPaths[1]); }
    if StartsWith(path, "/productomayor") { assert StartsWith(path, MayoristaPaths[2]); }
  }

  /** No hidden path passes the wholesale test, so the order of the two checks
      does not matter: the header is hidden exactly on the four listed paths. */
  lemma HeaderHiddenExactly(path: string)
    ensures HeaderFor(path) == NoHeader <==>
      path == "/pedidos" || path == "/pedidos_1" || path == "/catalogo" || path == "/main"
  {
    HeaderMayoristaPrefixes(path);
    if path == "/pedidos" || path == "/pedidos_1" {
      NotStartsWithAt(path, "/categoriamayor", 1);
      NotStartsWithAt(path, "/productosmayoristas", 2);
      NotStartsWithAt(path, "/productomayor", 2);
      NotStartsWithAt(path, "/pago1", 2);
    } else if path == "/catalogo" {
      NotStartsWithAt(path, "/categoriamayor", 4);
      NotStartsWithAt(path, "/productosmayoristas", 1);
      NotStartsWithAt(path, "/productomayor", 1);
      NotStartsWithAt(path, "/pago1", 1);
    } else if path == "/main" {
      NotStartsWithAt(path, "/categoriamayor", 1);
      NotStartsWithAt(path, "/productosmayoristas", 1);
      NotStartsWithAt(path, "/productomayor", 1);
      NotStartsWithAt(path, "/pago1", 1);
    }
  }

  // ---------------------------------------------------------------------
  // Cart icon

  /** The cart icon a path gets: none, or the icon with its colour and the
      item-count badge when there are items. */
  datatype CartIconView = NoIcon | Icon(mayoristaColour: bool, badge: bool)

  /** `isMayoristaRoute` of `CartIcon`, as written. */
  predicate CartIconMayoristaTest(path: string) {
    || StartsWith(path, "/categoriamayor")
    || StartsWith(path, "/productosmayoristas")
    || StartsWith(path, "/main")
    || StartsWith(path, "/productomayor")
  }

  /** `CartIcon`: hidden on "/pedidos" and "/catalogo"; otherwise coloured
      for wholesale routes, with a badge only when items are present. */
  function CartIconFor(path: string, totalItems: int): (v: CartIconView)
    ensures v == NoIcon <==> path == "/pedidos" || path == "/catalogo"
    ensures v.Icon? ==> (v.mayoristaColour <==> CartIconMayoristaTest(path))
    ensures v.Icon? ==> (v.badge <==> totalItems > 0)
  {
    if path == "/pedidos" || path == "/catalogo" then NoIcon
    else Icon(CartIconMayoristaTest(path), totalItems > 0)
  }

  /** The icon's colour and the cart's checkout agree: a blue icon leads to
      the wholesale payment page, a purple one to the retail one. */
  lemma IconColourMatchesCheckout(path: string, totalItems: int)
    requires CartIconFor(path, totalItems).Icon?
    ensures CartIconFor(path, totalItems).mayoristaColour <==>
      FloatingCart.Checkout(path)[1] == FloatingCart.Navigate(FloatingCart.WholesalePayment)
  {
  }

  /** The header and the icon use different route sets: the wholesale
      payment page gets the wholesale header but the retail icon colour. */
  lemma PaymentPageMixesThemes()
    ensures HeaderFor("/pago1") == MayoristaHeader
    ensures CartIconFor("/pago1", 0) == Icon(false, false)
  {
    assert StartsWith("/pago1", "/pago1");
    NotStartsWithAt("/pago1", "/categoriamayor", 1);
    NotStartsWithAt("/pago1", "/productosmayoristas", 2);
    NotStartsWithAt("/pago1", "/main", 1);
    NotStartsWithAt("/pago1", "/productomayor", 2);
  }

  // ---------------------------------------------------------------------
  // Carousel input

  /** `products.filter(product => product.stock > 0)` as passed to the carousel. */
  function CarouselProducts(products: seq<ProductCarousel.Product>): (r: seq<ProductCarousel.Product>)
    ensures forall p :: p in r <==> p in products && p.stock > 0
  {
    Filter(products, ProductCarousel.InStock())
  }

  /** The carousel filters by stock again; on this input that changes nothing,
      so it cycles through exactly the in-stock products. */
  lemma CarouselSeesAllItIsGiven(products: seq<ProductCarousel.Product>)
    ensures ProductCarousel.Available(CarouselProducts(products)) == CarouselProducts(products)
  {
    FilterIdempotent(products, ProductCarousel.InStock());
  }
}
