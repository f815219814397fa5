/** The storefront header's search box: the whole catalogue is loaded once,
    flattened from its categories; typing shows or hides the results panel,
    a debounced search fills the results with every product whose name,
    description or price text matches, and the panel lists the first five. */
module Header {
  import opened Wrappers
  import opened Text
  import opened Seqs
  import Cart
  import opened Photos

  /** A product as the header receives it. Optional fields may be missing.
      `id` is a number or a string in the source; here it is its text. */
  datatype Product = Product(id: string, nombre: string, descripcion: Option<string>,
                             precioExtra: Option<string>, precio: Option<string>,
                             fotos: Option<seq<Foto>>)

  /** A category of the catalogue response; its `productos` may be missing. */
  datatype Category = Category(productos: Option<seq<Product>>)

  /** A present, non-empty text: JavaScript truthiness of a `string | undefined`. */
  predicate Truthy(o: Option<string>) {
    o.Some? && o.value != ""
  }

  // ---------------------------------------------------------------------
  // Catalogue flattening

  /** `data.flatMap(category => category.productos || [])`. */
  function AllProducts(categories: seq<Category>): (r: seq<Product>)
    ensures forall p :: p in r <==> exists c :: c in categories && c.productos.Some? && p in c.productos.value
  {
    if categories == [] then []
    else
      var rest := AllProducts(categories[1..]);
      assert forall c :: c in categories <==> c == categories[0] || c in categories[1..];
      categories[0].productos.GetOr([]) + rest
  }

  /** Flattening distributes over concatenation of the category list, and a
      category without products contributes nothing. */
  lemma {:induction false} AllProductsAppend(a: seq<Category>, b: seq<Category>)
    ensures AllProducts(a + b) == AllProducts(a) + AllProducts(b)
  {
    if a == [] {
      assert a + b == b;
    } else {
      assert (a + b)[1..] == a[1..] + b;
      AllProductsAppend(a[1..], b);
    }
  }

  /** A single category flattens to its own products, or to nothing when they are missing. */
  lemma AllProductsSingle(c: Category)
    ensures AllProducts([c]) == c.productos.GetOr([])
  {
    assert [c][1..] == [];
  }

  // ---------------------------------------------------------------------
  // The match

  /** The search match: the name or the description contains the query
      ignoring case, or a price text contains the query as typed. */
  predicate Matches(query: string, p: Product) {
    || IncludesIgnoringCase(p.nombre, query)
    || (Truthy(p.descripcion) && IncludesIgnoringCase(p.descripcion.value, query))
    || (Truthy(p.precio) && Contains(p.precio.value, query))
    || (Truthy(p.precioExtra) && Contains(p.precioExtra.value, query))
  }

  function MatchesQuery(query: string): Product -> bool {
    (p: Product) => Matches(query, p)
  }

  /** The results `searchProducts` stores for a query. */
  function SearchResults(allProducts: seq<Product>, query: string): (r: seq<Product>)
    ensures Trim(query) == "" ==> r == []
    ensures Trim(query) != "" ==> forall p :: p in r <==> p in allProducts && Matches(query, p)
    ensures |r| <= |allProducts|
  {
    if Trim(query) == "" then [] else Filter(allProducts, MatchesQuery(query))
  }

  /** A query made only of white space finds nothing; any other query finds
      the matching products in catalogue order. */
  lemma SearchResultsShape(allProducts: seq<Product>, query: string)
    ensures IsBlank(query) ==> SearchResults(allProducts, query) == []
    ensures !IsBlank(query) ==> IsSubsequence(SearchResults(allProducts, query), allProducts)
  {
    TrimEmptyIffBlank(query);
    if !IsBlank(query) {
      FilterIsSubsequence(allProducts, MatchesQuery(query));
    }
  }

  /** The price part of the match is case-sensitive but the name part is
      not: a product is found by its name in any letter case. */
  lemma NameMatchIgnoresCase(query: string, p: Product)
    requires IncludesIgnoringCase(p.nombre, query)
    ensures Matches(Lower(query), p)
  {
    IgnoringCaseIsCaseBlind(p.nombre, query);
  }

  // ---------------------------------------------------------------------
  // The result card

  /** `product.precio_extra || product.precio || "0"`: never empty. */
  function DisplayPrice(p: Product): (r: string)
    ensures r != ""
    ensures Truthy(p.precioExtra) ==> r == p.precioExtra.value
    ensures !Truthy(p.precioExtra) && Truthy(p.precio) ==> r == p.precio.value
    ensures !Truthy(p.precioExtra) && !Truthy(p.precio) ==> r == "0"
  {
    if Truthy(p.precioExtra) then p.precioExtra.value
    else if Truthy(p.precio) then p.precio.value
    else "0"
  }

  /** The first photo under the storage URL, or the placeholder when the
      product has no photos. */
  function ProductImage(p: Product): (r: string)
    ensures p.fotos.Some? && p.fotos.value != [] ==> r == Cart.StorageUrl + p.fotos.value[0].foto
    ensures !(p.fotos.Some? && p.fotos.value != []) ==> r == Cart.Placeholder
    ensures StartsWith(r, Cart.StorageUrl) || r == Cart.Placeholder
  {
    if p.fotos.Some? && p.fotos.value != [] then
      var r := Cart.StorageUrl + p.fotos.value[0].foto;
      assert r[..|Cart.StorageUrl|] == Cart.StorageUrl;
      r
    else Cart.Placeholder
  }

  /** The maximum number of results the panel lists. */
  const MaxResults: nat := 5

  /** The results panel. */
  datatype Panel = Searching | Results(count: nat, shown: seq<Product>) | NoMatches

  // ---------------------------------------------------------------------
  // The search box state

  class SearchBox {
    var allProducts: seq<Product>
    var searchQuery: string
    var searchResults: seq<Product>
    var showResults: bool
    var isSearching: bool
    var isLoading: bool
    var mobileSearchOpen: bool

    /** Between events the search is never in progress: `searchProducts`
        raises and lowers `isSearching` within one synchronous call, so no
        render sees it raised. */
    ghost predicate Valid()
      reads this
    {
      !isSearching
    }

    constructor ()
      ensures Valid()
      ensures allProducts == [] && searchQuery == "" && searchResults == []
      ensures !showResults && !isSearching && !isLoading && !mobileSearchOpen
    {
      allProducts, searchQuery, searchResults := [], "", [];
      showResults, isSearching, isLoading, mobileSearchOpen := false, false, false, false;
    }

    /** The catalogue request finished: `Some` with the categories, or `None`
        when the response was not OK or the request failed (the products
        are then kept). */
    method FetchDone(result: Option<seq<Category>>)
      requires Valid()
      modifies this
      ensures Valid() && !isLoading
      ensures result.Some? ==> allProducts == AllProducts(result.value)
      ensures result.None? ==> allProducts == old(allProducts)
      ensures searchQuery == old(searchQuery) && searchResults == old(searchResults)
      ensures showResults == old(showResults) && isSearching == old(isSearching)
      ensures mobileSearchOpen == old(mobileSearchOpen)
    {
      if result.Some? {
        allProducts := AllProducts(result.value);
      }
      isLoading := false;
    }

    /** `handleSearchInputChange`: a non-empty text shows the panel, an empty
        one hides it and clears the results. */
    method InputChange(query: string)
      requires Valid()
      modifies this
      ensures Valid() && searchQuery == query
      ensures showResults <==> |query| > 0
      ensures query == "" ==> searchResults == []
      ensures query != "" ==> searchResults == old(searchResults)
      ensures allProducts == old(allProducts) && isSearching == old(isSearching)
      ensures isLoading == old(isLoading) && mobileSearchOpen == old(mobileSearchOpen)
    {
      searchQuery := query;
      if |query| > 0 {
        showResults := true;
      } else {
        showResults := false;
        searchResults := [];
      }
    }

    /** `searchProducts(query)`, as the debounce timer runs it. */
    method SearchFired(query: string)
      requires Valid()
      modifies this
      ensures Valid() && !isSearching
      ensures searchResults == SearchResults(allProducts, query)
      ensures allProducts == old(allProducts) && searchQuery == old(searchQuery)
      ensures showResults == old(showResults) && isLoading == old(isLoading)
      ensures mobileSearchOpen == old(mobileSearchOpen)
    {
      if Trim(query) == "" {
        searchResults := [];
        isSearching := false;
        return;
      }
      isSearching := true;
      searchResults := Filter(allProducts, MatchesQuery(query));
      isSearching := false;
    }

    /** `handleSearchSubmit`: the path navigated to, if any. */
    method Submit() returns (navigate: Option<string>)
      requires Valid()
      modifies this
      ensures Valid()
      ensures navigate.Some? <==> !IsBlank(searchQuery)
      ensures navigate.Some? ==> navigate.value == "/busqueda?q=" + searchQuery && !showResults
      ensures navigate.None? ==> showResults == old(showResults)
      ensures allProducts == old(allProducts) && searchQuery == old(searchQuery)
      ensures searchResults == old(searchResults) && isSearching == old(isSearching)
      ensures isLoading == old(isLoading) && mobileSearchOpen == old(mobileSearchOpen)
    {
      TrimEmptyIffBlank(searchQuery);
      if Trim(searchQuery) != "" {
        navigate := Some("/busqueda?q=" + searchQuery);
        showResults := false;
      } else {
        navigate := None;
      }
    }

    /** `handleProductSelect`: go to the product and clear the box. */
    method SelectProduct(productId: string) returns (navigate: string)
      requires Valid()
      modifies this
      ensures Valid() && navigate == "/producto/" + productId
      ensures searchQuery == "" && !showResults && !mobileSearchOpen
      ensures allProducts == old(allProducts) && searchResults == old(searchResults)
      ensures isSearching == old(isSearching) && isLoading == old(isLoading)
    {
      navigate := "/producto/" + productId;
      searchQuery := "";
      showResults := false;
      mobileSearchOpen := false;
    }

    /** The clear button inside the box: only the text is cleared; the
        panel flag and the results stay as they were. */
    method ClearQuery()
      requires Valid()
      modifies this`searchQuery
      ensures Valid() && searchQuery == ""
    {
      searchQuery := "";
    }

    /** `toggleMobileSearch`: opening the mobile box also clears the text
        and hides the panel; closing it changes nothing else. */
    method ToggleMobileSearch()
      requires Valid()
      modifies this
      ensures Valid() && mobileSearchOpen == !old(mobileSearchOpen)
      ensures !old(mobileSearchOpen) ==> searchQuery == "" && !showResults
      ensures old(mobileSearchOpen) ==> searchQuery == old(searchQuery) && showResults == old(showResults)
      ensures allProducts == old(allProducts) && searchResults == old(searchResults)
      ensures isSearching == old(isSearching) && isLoading == old(isLoading)
    {
      var wasOpen := mobileSearchOpen;
      mobileSearchOpen := !wasOpen;
      if !wasOpen {
        showResults := false;
        searchQuery := "";
      }
    }

    /** The effect on a change of route: the box is cleared and closed. */
    method RouteChanged()
      requires Valid()
      modifies this
      ensures Valid() && searchQuery == "" && !showResults && !mobileSearchOpen
      ensures allProducts == old(allProducts) && searchResults == old(searchResults)
      ensures isSearching == old(isSearching) && isLoading == old(isLoading)
    {
      searchQuery := "";
      showResults := false;
      mobileSearchOpen := false;
    }

    /** A click outside the search area hides the panel. */
    method ClickOutside()
      requires Valid()
      modifies this`showResults
      ensures Valid() && !showResults
    {
      showResults := false;
    }

    /** The panel is rendered only while results are shown and the trimmed
        query is not empty; it then lists at most five results, in order. */
    function RenderPanel(): (r: Option<Panel>)
      reads this
      ensures r.Some? <==> showResults && !IsBlank(searchQuery)
      ensures r.Some? && r.value.Results? ==>
        r.value.count == |searchResults| && 0 < |r.value.shown| <= MaxResults && |r.value.shown| <= |searchResults|
        && r.value.shown == searchResults[..|r.value.shown|]
        && |r.value.shown| == (if |searchResults| < MaxResults then |searchResults| else MaxResults)
      ensures r.Some? && !isSearching ==> (r.value.NoMatches? <==> searchResults == [])
      ensures r.Some? ==> (r.value.Searching? <==> isSearching)
    {
      TrimEmptyIffBlank(searchQuery);
      if !(showResults && Trim(searchQuery) != "") then None
      else if isSearching then Some(Searching)
      else if |searchResults| > 0 then Some(Results(|searchResults|, Take(searchResults, MaxResults)))
      else Some(NoMatches)
    }
  }

  /** Since no render sees a search in progress, the "Buscando..." panel is
      never displayed: a shown panel lists results or says nothing matched. */
  lemma PanelNeverSearching(b: SearchBox)
    requires b.Valid()
    ensures b.RenderPanel().Some? ==> b.RenderPanel().value.Results? || b.RenderPanel().value.NoMatches?
  {
  }
}
