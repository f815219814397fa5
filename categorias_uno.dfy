/** The home page's category slider: every category with its first four
    products and their prices; a click opens the retail category page. */
module CategoriasUno {
  import opened Wrappers
  import opened Text
  import opened Seqs
  import Cart
  import App
  import opened Photos

  datatype Producto = Producto(id: int, nombre: string, precio: string, precioExtra: string, fotos: seq<Foto>)
  datatype Categoria = Categoria(categoria: string, productos: seq<Producto>)

  /** The text the API uses for an unset price. */
  const ZeroPrice: string := "0.00"

  /** The price shown under a product: `precio_extra` unless it is exactly
      "0.00", else `precio` unless it is exactly "0.00", else "0". */
  function PriceLabel(p: Producto): (r: string)
    ensures p.precioExtra != ZeroPrice ==> r == p.precioExtra
    ensures p.precioExtra == ZeroPrice && p.precio != ZeroPrice ==> r == p.precio
    ensures p.precioExtra == ZeroPrice && p.precio == ZeroPrice ==> r == "0"
    ensures r != ZeroPrice
  {
    if p.precioExtra != ZeroPrice then p.precioExtra
    else if p.precio != ZeroPrice then p.precio
    else "0"
  }

  /** The number of products a slide shows. */
  const SlideProducts: nat := 4

  /** `productos.slice(0, 4)`. */
  function ShownProducts(c: Categoria): (r: seq<Producto>)
    ensures |r| <= SlideProducts && |r| <= |c.productos| && r == c.productos[..|r|]
    ensures |c.productos| >= SlideProducts ==> |r| == SlideProducts
  {
    Take(c.productos, SlideProducts)
  }

  /** `handleCategoryClick`. */
  function CategoryPath(c: Categoria): (path: string)
    ensures StartsWith(path, "/categorias/") && path[|"/categorias/"|..] == c.categoria
  {
    var path := "/categorias/" + c.categoria;
    assert path[..|"/categorias/"|] == "/categorias/";
    path
  }

  /** The page a click opens gets the storefront's main header. */
  lemma CategoryPathHasMainHeader(c: Categoria)
    ensures App.HeaderFor(CategoryPath(c)) == App.HeaderKind.MainHeader
  {
    var path := CategoryPath(c);
    assert path[1] == 'c' && path[10] == 's';
    App.HeaderMayoristaPrefixes(path);
    NotStartsWithAt(path, "/categoriamayor", 10);
    NotStartsWithAt(path, "/productosmayoristas", 1);
    NotStartsWithAt(path, "/productomayor", 1);
    NotStartsWithAt(path, "/pago1", 1);
    assert path !in App.HiddenHeaderPaths by {
      assert |path| >= 12;
    }
  }

  /** What the slider renders. */
  datatype View = Loading | Failed(message: string) | Slides(categories: seq<Categoria>)

  /** The loading text takes precedence over the error, then the slides. */
  function Render(loading: bool, error: Option<string>, categories: seq<Categoria>): (v: View)
    ensures v.Loading? <==> loading
    ensures v.Failed? <==> !loading && error.Some?
    ensures v.Failed? ==> v.message == error.value
    ensures v.Slides? ==> v.categories == categories
  {
    if loading then Loading
    else match error
      case Some(e) => Failed(e)
      case None => Slides(categories)
  }
}
