/** The wholesale category index: categories filtered by a case-insensitive
    name query, each shown with its first four products; a click opens the
    wholesale category page. */
module CategoriasMayor {
  import opened Wrappers
  import opened Text
  import opened Seqs
  import Cart
  import App
  import FloatingCart
  import opened Photos

  datatype Producto = Producto(id: int, nombre: string, precioExtra: string, fotos: seq<Foto>)
  datatype Categoria = Categoria(categoria: string, productos: seq<Producto>)

  /** `category.categoria.toLowerCase().includes(searchQuery.toLowerCase())`. */
  function NameMatches(query: string): Categoria -> bool {
    (c: Categoria) => IncludesIgnoringCase(c.categoria, query)
  }

  /** `filteredCategories`. */
  function FilteredCategories(categories: seq<Categoria>, query: string): (r: seq<Categoria>)
    ensures forall c :: c in r <==> c in categories && IncludesIgnoringCase(c.categoria, query)
    ensures |r| <= |categories|
  {
    Filter(categories, NameMatches(query))
  }

  /** The filtered categories keep the catalogue's order, and an empty query
      keeps them all. */
  lemma FilteredCategoriesShape(categories: seq<Categoria>, query: string)
    ensures IsSubsequence(FilteredCategories(categories, query), categories)
    ensures query == "" ==> FilteredCategories(categories, query) == categories
  {
    FilterIsSubsequence(categories, NameMatches(query));
    if query == "" {
      forall i | 0 <= i < |categories| ensures NameMatches(query)(categories[i]) {
        ContainsEmpty(Lower(categories[i].categoria));
      }
      FilterAll(categories, NameMatches(query));
    }
  }

  /** The number of products a category card shows. */
  const CardProducts: nat := 4

  /** `category.productos.slice(0, 4)`. */
  function ShownProducts(c: Categoria): (r: seq<Producto>)
    ensures |r| <= CardProducts && |r| <= |c.productos| && r == c.productos[..|r|]
    ensures |c.productos| >= CardProducts ==> |r| == CardProducts
  {
    Take(c.productos, CardProducts)
  }

  /** `handleCategoryClick`. */
  function CategoryPath(c: Categoria): (path: string)
    ensures StartsWith(path, "/categoriamayor/") && path[|"/categoriamayor/"|..] == c.categoria
  {
    var path := "/categoriamayor/" + c.categoria;
    assert path[..|"/categoriamayor/"|] == "/categoriamayor/";
    path
  }

  /** The page a click opens keeps the wholesale theme: it gets the wholesale
      header, and its cart checks out to the wholesale payment page. */
  lemma CategoryPathIsWholesale(c: Categoria)
    ensures App.HeaderFor(CategoryPath(c)) == App.HeaderKind.MayoristaHeader
    ensures FloatingCart.IsMayoristaRoute(CategoryPath(c))
  {
    var path := CategoryPath(c);
    StartsWithShorter(path, "/categoriamayor", "/categoriamayor/");
    App.HeaderMayoristaPrefixes(path);
  }

  /** What the index renders. */
  datatype View = Loading | Failed(message: string) | Grid(categories: seq<Categoria>)

  /** The loading text first, then the error, then the filtered categories. */
  function Render(loading: bool, error: Option<string>, categories: seq<Categoria>, query: string): (v: View)
    ensures v.Loading? <==> loading
    ensures v.Failed? <==> !loading && error.Some?
    ensures v.Failed? ==> v.message == error.value
    ensures v.Grid? ==> v.categories == FilteredCategories(categories, query)
  {
    if loading then Loading
    else match error
      case Some(e) => Failed(e)
      case None => Grid(FilteredCategories(categories, query))
  }
}
