/** The page of one category: the category is looked up by name in the
    catalogue, its products are filtered by a case-insensitive name query
    and, on every render, the filtered array is sorted in place so that
    products in stock come first. */
module CategoriaProductos {
  import opened Wrappers
  import opened Text
  import opened Seqs

  /** The fields of a product this page reads. */
  datatype Producto = Producto(id: int, nombre: string, stockSucursal1: int)

  datatype Categoria = Categoria(categoria: string, productos: seq<Producto>)

  /** Outcome of the catalogue request. */
  datatype FetchResult = FetchOk(categorias: seq<Categoria>) | FetchFailed

  const LoadError: string := "No se pudieron cargar los productos de esta categoría."

  /** The error shown when no category has the requested name. */
  function NotFoundError(categoryName: string): string {
    "No se encontraron productos para la categoría: " + categoryName
  }

  /** The lowered category name equals the lowered route parameter. */
  predicate NameIs(c: Categoria, categoryName: string) {
    Lower(c.categoria) == Lower(categoryName)
  }

  /** `find` on the catalogue: the first category whose lowered name equals
      the lowered route parameter, if any. */
  function FindCategory(categorias: seq<Categoria>, categoryName: string): (r: Option<Categoria>)
    ensures r.None? <==> forall i :: 0 <= i < |categorias| ==> !NameIs(categorias[i], categoryName)
    ensures r.Some? ==> exists i :: (0 <= i < |categorias| && categorias[i] == r.value && NameIs(categorias[i], categoryName)
      && forall j :: 0 <= j < i ==> !NameIs(categorias[j], categoryName))
  {
    if categorias == [] then None
    else if NameIs(categorias[0], categoryName) then Some(categorias[0])
    else
      var r := FindCategory(categorias[1..], categoryName);
      var tail := categorias[1..];
      assert forall i :: 1 <= i < |categorias| ==> categorias[i] == tail[i - 1];
      if r.Some? then
        var i :| 0 <= i < |tail| && tail[i] == r.value && NameIs(tail[i], categoryName)
          && (forall j :: 0 <= j < i ==> !NameIs(tail[j], categoryName));
        assert categorias[i + 1] == r.value;
        r
      else r
  }

  /** The lookup ignores the case of the route parameter. */
  lemma FindCategoryIgnoresCase(categorias: seq<Categoria>, categoryName: string)
    ensures FindCategory(categorias, Lower(categoryName)) == FindCategory(categorias, categoryName)
  {
    LowerIdempotent(categoryName);
  }

  /** `producto.nombre.toLowerCase().includes(searchQuery.toLowerCase())`. */
  function Matching(query: string): Producto -> bool {
    (p: Producto) => IncludesIgnoringCase(p.nombre, query)
  }

  /** The comparator passed to `sort`, as written. */
  function Compare(a: Producto, b: Producto): int {
    if a.stockSucursal1 == 0 && b.stockSucursal1 > 0 then 1
    else if a.stockSucursal1 > 0 && b.stockSucursal1 == 0 then -1
    else 0
  }

  /** In stock first, then the rest. */
  function StockRank(p: Producto): nat {
    if p.stockSucursal1 > 0 then 0 else 1
  }

  /** On non-negative stock the comparator compares exactly the stock ranks. */
  lemma CompareIsByStockRank(a: Producto, b: Producto)
    requires a.stockSucursal1 >= 0 && b.stockSucursal1 >= 0
    ensures Compare(a, b) < 0 <==> StockRank(a) < StockRank(b)
    ensures Compare(a, b) == 0 <==> StockRank(a) == StockRank(b)
    ensures Compare(a, b) > 0 <==> StockRank(a) > StockRank(b)
  {
  }

  /** In the sorted listing every in-stock product precedes every other. */
  lemma InStockFirst(s: seq<Producto>)
    ensures forall i, j :: 0 <= i < j < |SortByRank(s, StockRank)| ==>
      SortByRank(s, StockRank)[j].stockSucursal1 > 0 ==> SortByRank(s, StockRank)[i].stockSucursal1 > 0
  {
    SortByRankSortedPermutation(s, StockRank);
  }

  /** One step of the in-place sort: `a[i]` is moved right past the
      elements of `a[i + 1..]` of smaller rank (which shift one to the left). */
  method InsertInto(a: array<Producto>, i: nat)
    requires i < a.Length
    modifies a
    ensures a[..i] == old(a[..i])
    ensures a[i..] == Insert(old(a[i]), old(a[i + 1..]), StockRank)
  {
    var x := a[i];
    ghost var t := a[i + 1..];
    var j := i;
    while j + 1 < a.Length && StockRank(a[j + 1]) < StockRank(x)
      invariant i <= j < a.Length
      invariant a[..i] == old(a[..i])
      invariant a[i..j] == t[..j - i]
      invariant a[j + 1..] == t[j - i..]
      invariant forall k :: 0 <= k < j - i ==> StockRank(t[k]) < StockRank(x)
    {
      a[j] := a[j + 1];
      j := j + 1;
    }
    a[j] := x;
    InsertAt(x, t, StockRank, j - i);
    assert a[i..] == a[i..j] + [a[j]] + a[j + 1..];
  }

  /** `filteredProductos.sort(...)`: the stable in-place sort, here an
      insertion sort that grows a sorted suffix from the right. */
  method SortByStock(a: array<Producto>)
    modifies a
    ensures a[..] == SortByRank(old(a[..]), StockRank)
  {
    var i := a.Length;
    while i > 0
      invariant 0 <= i <= a.Length
      invariant a[..i] == old(a[..i])
      invariant a[i..] == SortByRank(old(a[..])[i..], StockRank)
    {
      i := i - 1;
      assert old(a[..])[i..] == [a[i]] + old(a[..])[i + 1..] by {
        assert old(a[..])[i] == old(a[..i + 1])[i];
      }
      InsertInto(a, i);
    }
    assert a[..] == a[0..];
    assert old(a[..]) == old(a[..])[0..];
  }

  /** What the page renders. */
  datatype View = Loading | Failed(message: string) | Grid(shown: seq<Producto>)

  /** The page's state for one route parameter `categoryName`. */
  class CategoriaPage {
    const categoryName: string
    var productos: seq<Producto>
    var searchQuery: string
    var filteredProductos: array<Producto>
    var loading: bool
    var error: Option<string>

    /** The array either holds the filtered products in catalogue order (right
        after the filter effect) or already sorted (after a render). */
    ghost predicate Valid()
      reads this, filteredProductos
    {
      var f := Filter(productos, Matching(searchQuery));
      filteredProductos[..] == f || filteredProductos[..] == SortByRank(f, StockRank)
    }

    constructor (name: string)
      ensures Valid() && categoryName == name && searchQuery == ""
      ensures productos == [] && filteredProductos[..] == [] && loading && error == None
    {
      categoryName, productos, searchQuery := name, [], "";
      filteredProductos := new Producto[0];
      loading, error := true, None;
    }

    /** The catalogue request finished. A found category replaces the
        products (and the filter effect re-derives the array from them); a
        missing category or a failed request sets the error. */
    method FetchDone(result: FetchResult)
      requires Valid()
      modifies this
      ensures Valid() && !loading && searchQuery == old(searchQuery)
      ensures result.FetchOk? && FindCategory(result.categorias, categoryName).Some? ==>
        productos == FindCategory(result.categorias, categoryName).value.productos
        && filteredProductos[..] == Filter(productos, Matching(searchQuery))
        && fresh(filteredProductos) && error == old(error)
      ensures result.FetchOk? && FindCategory(result.categorias, categoryName).None? ==>
        productos == old(productos) && error == Some(NotFoundError(categoryName))
        && filteredProductos == old(filteredProductos) && filteredProductos[..] == old(filteredProductos[..])
      ensures result.FetchFailed? ==>
        productos == old(productos) && error == Some(LoadError)
        && filteredProductos == old(filteredProductos) && filteredProductos[..] == old(filteredProductos[..])
    {
      match result {
        case FetchOk(cats) =>
          var found := FindCategory(cats, categoryName);
          match found {
            case Some(c) =>
              productos := c.productos;
              var f := Filter(c.productos, Matching(searchQuery));
              filteredProductos := new Producto[|f|](k requires 0 <= k < |f| => f[k]);
            case None =>
              error := Some(NotFoundError(categoryName));
          }
        case FetchFailed =>
          error := Some(LoadError);
      }
      loading := false;
    }

    /** Typing in the search box: the filter effect replaces the array. */
    method SetQuery(q: string)
      requires Valid()
      modifies this
      ensures Valid() && searchQuery == q && productos == old(productos)
      ensures filteredProductos[..] == Filter(productos, Matching(q)) && fresh(filteredProductos)
      ensures loading == old(loading) && error == old(error)
    {
      searchQuery := q;
      var f := Filter(productos, Matching(q));
      filteredProductos := new Producto[|f|](k requires 0 <= k < |f| => f[k]);
    }

    /** A render: the array is sorted in place first, then the guards pick
        the loading text, the error, or the grid of the sorted products. */
    method Render() returns (v: View)
      requires Valid()
      modifies filteredProductos
      ensures Valid()
      ensures filteredProductos[..] == SortByRank(Filter(productos, Matching(searchQuery)), StockRank)
      ensures v.Loading? <==> loading && productos == []
      ensures v.Failed? <==> !(loading && productos == []) && error.Some?
      ensures v.Failed? ==> v.message == error.value
      ensures v.Grid? ==> v.shown == SortByRank(Filter(productos, Matching(searchQuery)), StockRank)
    {
      SortByRankIdempotent(Filter(productos, Matching(searchQuery)), StockRank);
      SortByStock(filteredProductos);
      if loading && productos == [] {
        v := Loading;
      } else if error.Some? {
        v := Failed(error.value);
      } else {
        v := Grid(filteredProductos[..]);
      }
    }
  }
}
