/** The "Todos los productos" page: the whole catalogue, filtered by a
    case-insensitive name query, ordered active-first and then in-stock-first,
    and shown twenty at a time behind "Ver más" / "Ver menos" buttons. */
module TodosLosProductos {
  import opened Wrappers
  import opened Text
  import opened Seqs

  /** The fields of a catalogue product this page reads. */
  datatype Producto = Producto(id: int, nombre: string, estado: int, stockSucursal1: int)

  /** The page step and the initial number of products shown. */
  const PageSize: int := 20

  // ---------------------------------------------------------------------
  // Filtering and ordering

  /** `producto.nombre.toLowerCase().includes(searchQuery.toLowerCase())`. */
  function Matching(query: string): Producto -> bool {
    (p: Producto) => IncludesIgnoringCase(p.nombre, query)
  }

  /** The comparator passed to `sort`, as written. */
  function Compare(a: Producto, b: Producto): int {
    if a.estado == 1 && b.estado != 1 then -1
    else if a.estado != 1 && b.estado == 1 then 1
    else if a.stockSucursal1 > 0 && b.stockSucursal1 == 0 then -1
    else if a.stockSucursal1 == 0 && b.stockSucursal1 > 0 then 1
    else 0
  }

  predicate Active(p: Producto) { p.estado == 1 }
  predicate InStock(p: Producto) { p.stockSucursal1 > 0 }

  /** The rank the comparator orders by: active and in stock first, then
      active and out of stock, then inactive in stock, then the rest. */
  function Rank(p: Producto): nat {
    (if Active(p) then 0 else 2) + (if InStock(p) then 0 else 1)
  }

  /** On non-negative stock the comparator compares exactly the ranks, so it
      is a consistent order and `sort` (which is stable) is a stable sort by
      `Rank`. */
  lemma CompareIsByRank(a: Producto, b: Producto)
    requires a.stockSucursal1 >= 0 && b.stockSucursal1 >= 0
    ensures Compare(a, b) < 0 <==> Rank(a) < Rank(b)
    ensures Compare(a, b) == 0 <==> Rank(a) == Rank(b)
    ensures Compare(a, b) > 0 <==> Rank(a) > Rank(b)
  {
  }

  /** `filteredProductos` as the effect computes it from `productos` and the query. */
  function Listing(productos: seq<Producto>, query: string): seq<Producto> {
    SortByRank(Filter(productos, Matching(query)), Rank)
  }

  /** The listing holds exactly the products whose name matches, each as
      often as in the catalogue. */
  lemma ListingIsMatchingProducts(productos: seq<Producto>, query: string)
    ensures multiset(Listing(productos, query)) == multiset(Filter(productos, Matching(query)))
    ensures forall p :: p in Listing(productos, query) <==> p in productos && IncludesIgnoringCase(p.nombre, query)
  {
    SortByRankSortedPermutation(Filter(productos, Matching(query)), Rank);
    forall p ensures p in Listing(productos, query) <==> p in Filter(productos, Matching(query)) {
      assert p in multiset(Listing(productos, query)) <==> p in multiset(Filter(productos, Matching(query)));
    }
  }

  /** An empty query keeps the whole catalogue (reordered). */
  lemma EmptyQueryKeepsAll(productos: seq<Producto>)
    ensures multiset(Listing(productos, "")) == multiset(productos)
  {
    forall i | 0 <= i < |productos| ensures Matching("")(productos[i]) {
      ContainsEmpty(Lower(productos[i].nombre));
    }
    FilterAll(productos, Matching(""));
    SortByRankSortedPermutation(productos, Rank);
  }

  /** Every active product precedes every inactive one, and among products of
      the same `estado` class every in-stock product precedes every
      out-of-stock one. */
  lemma ListingOrder(productos: seq<Producto>, query: string)
    ensures forall i, j :: 0 <= i < j < |Listing(productos, query)| ==>
      var r := Listing(productos, query);
      && (Active(r[j]) ==> Active(r[i]))
      && (Active(r[i]) == Active(r[j]) && InStock(r[j]) ==> InStock(r[i]))
  {
    SortByRankSortedPermutation(Filter(productos, Matching(query)), Rank);
  }

  /** Products of equal rank keep their relative catalogue order. */
  lemma ListingStable(productos: seq<Producto>, query: string, k: nat)
    ensures Filter(Listing(productos, query), HasRank(Rank, k))
         == Filter(Filter(productos, Matching(query)), HasRank(Rank, k))
  {
    SortByRankStable(Filter(productos, Matching(query)), Rank, k);
  }

  /** Whatever stable sort the engine runs, with this comparator on
      non-negative stock it returns the listing: a rank-ordered arrangement
      of the matching products that keeps catalogue order within each rank
      is the listing. */
  lemma ListingIsTheStableSort(productos: seq<Producto>, query: string, r: seq<Producto>)
    requires forall i, j :: 0 <= i < j < |r| ==> Rank(r[i]) <= Rank(r[j])
    requires forall k: nat :: Filter(r, HasRank(Rank, k)) == Filter(Filter(productos, Matching(query)), HasRank(Rank, k))
    ensures r == Listing(productos, query)
  {
    StableSortIsUnique(Filter(productos, Matching(query)), r, Rank);
  }

  // ---------------------------------------------------------------------
  // The visible-count counter

  /** `showMoreProducts`: `Math.min(prevCount + 20, filteredProductos.length)`. */
  function ShowMore(count: int, length: int): (r: int)
    ensures r <= length && r <= count + PageSize
    ensures r == length || r == count + PageSize
  {
    if count + PageSize < length then count + PageSize else length
  }

  /** `showLessProducts`: `Math.max(prevCount - 20, 20)`. */
  function ShowLess(count: int): (r: int)
    ensures r >= PageSize && r >= count - PageSize
    ensures r == PageSize || r == count - PageSize
  {
    if count - PageSize > PageSize then count - PageSize else PageSize
  }

  /** "Ver más" is offered exactly when some filtered product is hidden, and
      then it shows at least one more. */
  lemma ShowMoreGrows(count: int, length: int)
    requires count < length
    ensures count < ShowMore(count, length) <= length
  {
  }

  /** "Ver menos" right after a "Ver más" that added a whole page (and left
      at least 20 shown) returns to the previous count. */
  lemma ShowLessUndoesShowMore(count: int, length: int)
    requires PageSize <= count && count + PageSize <= length
    ensures ShowLess(ShowMore(count, length)) == count
  {
  }

  /** What the page renders. */
  datatype View = Loading | Failed(message: string) | Grid(shown: seq<Producto>, moreButton: bool, lessButton: bool)

  const LoadError: string := "No se pudieron cargar los productos."

  /** The page's state: the fetched catalogue, the query, the derived
      listing and the number of listed products shown. */
  class ProductosPage {
    var productos: seq<Producto>
    var searchQuery: string
    var filteredProductos: seq<Producto>
    var visibleCount: int
    var loading: bool
    var error: Option<string>

    /** The listing is always derived from the catalogue and the query (the
        effect re-runs whenever either changes), and at least one page is shown. */
    ghost predicate Valid()
      reads this
    {
      filteredProductos == Listing(productos, searchQuery) && visibleCount >= PageSize
    }

    constructor ()
      ensures Valid()
      ensures productos == [] && searchQuery == "" && filteredProductos == []
      ensures visibleCount == PageSize && loading && error == None
    {
      productos, searchQuery, filteredProductos := [], "", [];
      visibleCount, loading, error := PageSize, true, None;
    }

    /** The catalogue request finished: `Some` with the products of every
        category (flattened), or `None` when it failed. */
    method FetchDone(result: Option<seq<Producto>>)
      requires Valid()
      modifies this
      ensures Valid() && !loading && searchQuery == old(searchQuery) && visibleCount == old(visibleCount)
      ensures result.Some? ==> productos == result.value && error == old(error)
      ensures result.None? ==> productos == old(productos) && error == Some(LoadError)
    {
      match result {
        case Some(ps) =>
          productos := ps;
          filteredProductos := Listing(ps, searchQuery);
        case None =>
          error := Some(LoadError);
      }
      loading := false;
    }

    /** Typing in the search box; the visible count is not reset. */
    method SetQuery(q: string)
      requires Valid()
      modifies this
      ensures Valid() && searchQuery == q && productos == old(productos)
      ensures visibleCount == old(visibleCount) && loading == old(loading) && error == old(error)
    {
      searchQuery := q;
      filteredProductos := Listing(productos, q);
    }

    /** "Ver más" (the button exists only while some product is hidden). */
    method ShowMoreProducts()
      requires Valid() && visibleCount < |filteredProductos|
      modifies this`visibleCount
      ensures Valid()
      ensures visibleCount == ShowMore(old(visibleCount), |filteredProductos|)
      ensures old(visibleCount) < visibleCount <= |filteredProductos|
    {
      visibleCount := ShowMore(visibleCount, |filteredProductos|);
    }

    /** "Ver menos" (the button exists only while more than 20 are shown). */
    method ShowLessProducts()
      requires Valid() && visibleCount > PageSize
      modifies this`visibleCount
      ensures Valid()
      ensures visibleCount == ShowLess(old(visibleCount))
      ensures PageSize <= visibleCount < old(visibleCount)
    {
      visibleCount := ShowLess(visibleCount);
    }

    /** The rendering: the loading text while nothing has arrived, then the
        error, then the first `visibleCount` listed products and the buttons. */
    function Render(): (v: View)
      reads this
      requires Valid()
      ensures v.Grid? ==> v.shown == Take(filteredProductos, visibleCount)
      ensures v.Grid? ==> (v.moreButton <==> |v.shown| < |filteredProductos|)
      ensures v.Grid? ==> (v.lessButton <==> visibleCount > PageSize)
      ensures v.Loading? <==> loading && productos == []
      ensures v.Failed? <==> !(loading && productos == []) && error.Some?
      ensures v.Failed? ==> v.message == error.value
    {
      if loading && productos == [] then Loading
      else if error.Some? then Failed(error.value)
      else Grid(Take(filteredProductos, visibleCount), visibleCount < |filteredProductos|, visibleCount > PageSize)
    }
  }
}
