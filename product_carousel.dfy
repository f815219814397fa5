/** The home-page carousel: it cycles through the products in stock, one
    at a time, advancing on a timer and moving left or right on a long
    enough drag, and can put the current product in the cart. */
module ProductCarousel {
  import opened Wrappers
  import opened Seqs
  import Cart

  datatype Product = Product(id: int, nombre: string, precioExtra: string, imageUrl: string, stock: int)

  /** `product.stock > 0`. */
  function InStock(): Product -> bool {
    (p: Product) => p.stock > 0
  }

  /** `availableProducts`: the products in stock, in the given order. */
  function Available(products: seq<Product>): (r: seq<Product>)
    ensures forall p :: p in r <==> p in products && p.stock > 0
    ensures |r| <= |products|
  {
    Filter(products, InStock())
  }

  /** They are a sub-sequence of the products, so their order is kept. */
  lemma AvailableKeepsOrder(products: seq<Product>)
    ensures IsSubsequence(Available(products), products)
  {
    FilterIsSubsequence(products, InStock());
  }

  /** The step right, with wrap-around: `(prev + 1) % n`. */
  function Next(i: int, n: int): (r: int)
    requires i >= 0 && n > 0
    ensures 0 <= r < n
    ensures i < n - 1 ==> r == i + 1
    ensures i == n - 1 ==> r == 0
  {
    (i + 1) % n
  }

  /** The step left, with wrap-around: `(prev - 1 + n) % n`. */
  function Prev(i: int, n: int): (r: int)
    requires i >= 0 && n > 0
    ensures 0 <= r < n
    ensures 0 < i <= n ==> r == i - 1
    ensures i == 0 ==> r == n - 1
  {
    (i - 1 + n) % n
  }

  /** Within range, a step left undoes a step right and conversely. */
  lemma PrevNextInverse(i: int, n: int)
    requires 0 <= i < n
    ensures Prev(Next(i, n), n) == i
    ensures Next(Prev(i, n), n) == i
  {
  }

  /** The drag distance, in pixels, beyond which a drag changes the slide. */
  const DragThreshold: real := 100.0

  /** `handleDragEnd`: a drag far enough right goes back, far enough left goes
      forward, and any shorter drag keeps the slide. */
  function AfterDrag(i: int, n: int, offsetX: real): (r: int)
    requires i >= 0 && n > 0
    ensures offsetX > DragThreshold ==> r == Prev(i, n)
    ensures offsetX < -DragThreshold ==> r == Next(i, n)
    ensures -DragThreshold <= offsetX <= DragThreshold ==> r == i
  {
    if offsetX > DragThreshold then Prev(i, n)
    else if offsetX < -DragThreshold then Next(i, n)
    else i
  }

  /** The carousel's state: the `products` prop and `currentIndex`. */
  class Carousel {
    var products: seq<Product>
    var currentIndex: int

    /** The index is never negative (it starts at 0 and is only ever set to a remainder). */
    ghost predicate Valid()
      reads this
    {
      currentIndex >= 0
    }

    constructor (ps: seq<Product>)
      ensures Valid() && products == ps && currentIndex == 0
    {
      products, currentIndex := ps, 0;
    }

    /** The parent re-renders with new products; the index is not reset, so
        it may now lie past the end. */
    method SetProducts(ps: seq<Product>)
      requires Valid()
      modifies this`products
      ensures Valid() && products == ps
    {
      products := ps;
    }

    /** The interval fires; the timer exists only while some product is available. */
    method Tick()
      requires Valid() && |Available(products)| > 0
      modifies this`currentIndex
      ensures Valid()
      ensures currentIndex == Next(old(currentIndex), |Available(products)|)
      ensures 0 <= currentIndex < |Available(products)|
    {
      currentIndex := (currentIndex + 1) % |Available(products)|;
    }

    /** A drag ends with horizontal offset `offsetX`; the slide (and so the
        drag) exists only while some product is available. */
    method DragEnd(offsetX: real)
      requires Valid() && |Available(products)| > 0
      modifies this`currentIndex
      ensures Valid()
      ensures currentIndex == AfterDrag(old(currentIndex), |Available(products)|, offsetX)
      ensures -DragThreshold <= offsetX <= DragThreshold ==> currentIndex == old(currentIndex)
      ensures (offsetX < -DragThreshold || offsetX > DragThreshold) ==> 0 <= currentIndex < |Available(products)|
    {
      var n := |Available(products)|;
      if offsetX > DragThreshold {
        currentIndex := (currentIndex - 1 + n) % n;
      } else if offsetX < -DragThreshold {
        currentIndex := (currentIndex + 1) % n;
      }
    }

    /** `handleAddToCart`: the line for the current product, with the image
        falling back to the placeholder. `None` when the index lies past the
        end of the available products, where the source reads a property
        of `undefined` and throws. */
    function AddToCart(): (line: Option<Cart.CartLine>)
      reads this
      requires Valid()
      ensures line.Some? <==> currentIndex < |Available(products)|
      ensures line.Some? ==>
        var p := Available(products)[currentIndex];
        && line.value.id == p.id && line.value.name == p.nombre
        && line.value.price == p.precioExtra
        && line.value.img == (if p.imageUrl != "" then p.imageUrl else Cart.Placeholder)
        && line.value.promotion.None?
      ensures line.Some? ==> line.value.img != "" && ForProductInStock(line.value, products)
    {
      var av := Available(products);
      if currentIndex < |av| then
        var p := av[currentIndex];
        Some(Cart.CartLine(p.id, p.nombre, p.precioExtra, if p.imageUrl != "" then p.imageUrl else Cart.Placeholder, None))
      else None
    }
  }

  /** The line belongs to a product of the list that is in stock. */
  ghost predicate ForProductInStock(line: Cart.CartLine, products: seq<Product>) {
    exists p :: p in products && p.stock > 0 && p.id == line.id
  }
}
