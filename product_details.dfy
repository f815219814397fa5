/** The product page: a quantity stepper clamped to 1..99, the add-to-cart
    handler (which needs a first photo) and the strip of related products
    from the same category. */
module ProductDetails {
  import opened Wrappers
  import opened Seqs
  import Cart

  datatype Foto = Foto(foto: string)
  datatype PrecioProducto = PrecioProducto(precioExtra: Option<string>)

  /** The fields of the product response this page reads; optional chains
      in the source are `Option`s here. */
  datatype Details = Details(id: int, nombre: string, precio: string,
                             fotos: Option<seq<Foto>>, precioProductos: Option<seq<PrecioProducto>>)

  // ---------------------------------------------------------------------
  // Quantity stepper

  const MinQuantity: int := 1
  const MaxQuantity: int := 99

  /** The "+" button: `Math.min(99, quantity + 1)`. */
  function Increment(q: int): (r: int)
    ensures r <= MaxQuantity
    ensures q < MaxQuantity ==> r == q + 1
    ensures q >= MaxQuantity ==> r == MaxQuantity
  {
    if q + 1 < MaxQuantity then q + 1 else MaxQuantity
  }

  /** The "−" button: `Math.max(1, quantity - 1)`. */
  function Decrement(q: int): (r: int)
    ensures r >= MinQuantity
    ensures q > MinQuantity ==> r == q - 1
    ensures q <= MinQuantity ==> r == MinQuantity
  {
    if q - 1 > MinQuantity then q - 1 else MinQuantity
  }

  /** Each button keeps the quantity within 1..99. */
  lemma StepsKeepRange(q: int)
    requires MinQuantity <= q <= MaxQuantity
    ensures MinQuantity <= Increment(q) <= MaxQuantity
    ensures MinQuantity <= Decrement(q) <= MaxQuantity
  {
  }

  /** Away from the bounds, "−" undoes "+" and "+" undoes "−". */
  lemma StepsUndo(q: int)
    requires MinQuantity <= q <= MaxQuantity
    ensures q < MaxQuantity ==> Decrement(Increment(q)) == q
    ensures q > MinQuantity ==> Increment(Decrement(q)) == q
  {
  }

  /** The stepper's state. */
  class QuantityStepper {
    var quantity: int

    ghost predicate Valid()
      reads this
    {
      MinQuantity <= quantity <= MaxQuantity
    }

    constructor ()
      ensures Valid() && quantity == 1
    {
      quantity := 1;
    }

    method Increase()
      requires Valid()
      modifies this
      ensures Valid() && quantity == Increment(old(quantity))
    {
      quantity := if quantity + 1 < MaxQuantity then quantity + 1 else MaxQuantity;
    }

    method Decrease()
      requires Valid()
      modifies this
      ensures Valid() && quantity == Decrement(old(quantity))
    {
      quantity := if quantity - 1 > MinQuantity then quantity - 1 else MinQuantity;
    }
  }

  // ---------------------------------------------------------------------
  // Add to cart

  /** `productDetails?.fotos?.[0]?.foto` is truthy. */
  predicate HasFirstPhoto(d: Details) {
    d.fotos.Some? && d.fotos.value != [] && d.fotos.value[0].foto != ""
  }

  /** `productDetails.precio_productos?.[0]?.precio_extra` is truthy. */
  predicate HasPrecioExtra(d: Details) {
    d.precioProductos.Some? && d.precioProductos.value != []
    && d.precioProductos.value[0].precioExtra.Some? && d.precioProductos.value[0].precioExtra.value != ""
  }

  /** The price text sent to the cart: the first price row's `precio_extra`
      when truthy, else `precio`. */
  function CartPrice(d: Details): (r: string)
    ensures HasPrecioExtra(d) ==> r == d.precioProductos.value[0].precioExtra.value && r != ""
    ensures !HasPrecioExtra(d) ==> r == d.precio
  {
    if HasPrecioExtra(d) then d.precioProductos.value[0].precioExtra.value else d.precio
  }

  /** The price shown on the page: as for the cart, and "0.00" when that is empty. */
  function DisplayPrice(d: Details): (r: string)
    ensures r != ""
    ensures CartPrice(d) != "" ==> r == CartPrice(d)
    ensures CartPrice(d) == "" ==> r == "0.00"
  {
    if CartPrice(d) != "" then CartPrice(d) else "0.00"
  }

  /** `handleAddToCart`: nothing without a loaded product with a first photo;
      otherwise the line with that photo under the storage URL. The stepper's
      quantity is not part of the line. */
  function AddToCartLine(details: Option<Details>): (r: Option<Cart.CartLine>)
    ensures r.Some? <==> details.Some? && HasFirstPhoto(details.value)
    ensures r.Some? ==>
      && r.value.id == details.value.id && r.value.name == details.value.nombre
      && r.value.price == CartPrice(details.value)
      && r.value.img == Cart.StorageUrl + details.value.fotos.value[0].foto
      && r.value.promotion.None?
  {
    if details.Some? && HasFirstPhoto(details.value) then
      var d := details.value;
      Some(Cart.CartLine(d.id, d.nombre, CartPrice(d), Cart.StorageUrl + d.fotos.value[0].foto, None))
    else None
  }

  // ---------------------------------------------------------------------
  // Related products

  datatype RelatedProduct = RelatedProduct(id: int, nombre: string, fotos: seq<Foto>)

  /** A related product with the image URL the strip shows for it. */
  datatype RelatedCard = RelatedCard(product: RelatedProduct, imageUrl: string)

  /** One group of the category-filter response; `productos` may be missing. */
  datatype Group = Group(productos: Option<seq<RelatedProduct>>)

  /** The fallback image of the related strip (not the cart's placeholder). */
  const RelatedPlaceholder: string := "https://via.placeholder.com/150"

  function RelatedImage(p: RelatedProduct): (r: string)
    ensures p.fotos != [] ==> r == Cart.StorageUrl + p.fotos[0].foto
    ensures p.fotos == [] ==> r == RelatedPlaceholder
  {
    if p.fotos != [] then Cart.StorageUrl + p.fotos[0].foto else RelatedPlaceholder
  }

  function NotProduct(currentId: int): RelatedProduct -> bool {
    (p: RelatedProduct) => p.id != currentId
  }

  function WithImages(ps: seq<RelatedProduct>): (r: seq<RelatedCard>)
    ensures |r| == |ps|
    ensures forall i :: 0 <= i < |ps| ==> r[i] == RelatedCard(ps[i], RelatedImage(ps[i]))
  {
    if ps == [] then [] else [RelatedCard(ps[0], RelatedImage(ps[0]))] + WithImages(ps[1..])
  }

  /** The cards of the related strip: the first group's products other than
      the current one, each with its image; nothing when the response (or
      its first group) is empty or the request failed. */
  function Related(response: Option<seq<Group>>, currentId: int): (r: seq<RelatedCard>)
    ensures forall i :: 0 <= i < |r| ==> r[i].product.id != currentId
    ensures forall i :: 0 <= i < |r| ==> r[i].imageUrl == RelatedImage(r[i].product)
    ensures response.None? || response.value == [] || response.value[0].productos.None? ==> r == []
    ensures response.Some? && response.value != [] && response.value[0].productos.Some? ==>
      |r| <= |response.value[0].productos.value|
      && forall i :: 0 <= i < |r| ==> r[i].product in response.value[0].productos.value
  {
    if response.Some? && response.value != [] && response.value[0].productos.Some? then
      var kept := Filter(response.value[0].productos.value, NotProduct(currentId));
      var r := WithImages(kept);
      assert forall i :: 0 <= i < |r| ==> r[i].product == kept[i] && kept[i] in kept;
      r
    else []
  }

  function Products(cards: seq<RelatedCard>): (r: seq<RelatedProduct>)
    ensures |r| == |cards|
    ensures forall i :: 0 <= i < |cards| ==> r[i] == cards[i].product
  {
    if cards == [] then [] else [cards[0].product] + Products(cards[1..])
  }

  /** The related products keep the response's order: they are exactly the
      response's products other than the current one. */
  lemma RelatedKeepsOrder(groups: seq<Group>, currentId: int)
    requires groups != [] && groups[0].productos.Some?
    ensures Products(Related(Some(groups), currentId)) == Filter(groups[0].productos.value, NotProduct(currentId))
    ensures IsSubsequence(Products(Related(Some(groups), currentId)), groups[0].productos.value)
  {
    var kept := Filter(groups[0].productos.value, NotProduct(currentId));
    assert Products(WithImages(kept)) == kept;
    FilterIsSubsequence(groups[0].productos.value, NotProduct(currentId));
  }

  /** The number of related products the strip shows. */
  const MaxRelated: nat := 5

  /** `relatedProducts.slice(0, 5)`. */
  function ShownRelated(related: seq<RelatedCard>): (r: seq<RelatedCard>)
    ensures |r| <= MaxRelated && |r| <= |related| && r == related[..|r|]
    ensures |related| <= MaxRelated ==> r == related
    ensures |related| >= MaxRelated ==> |r| == MaxRelated
  {
    Take(related, MaxRelated)
  }

  /** The add-to-cart confirmation flag; the timeout that clears it is
      modelled as its own transition. */
  class AddButton {
    var addedToCart: bool

    constructor ()
      ensures !addedToCart
    {
      addedToCart := false;
    }

    /** The click: the line handed to `addToCart`, if any, and the flag set
        only when a line was produced. The button is disabled while the flag
        is raised, so a click happens only with the flag lowered. */
    method Click(details: Option<Details>) returns (added: Option<Cart.CartLine>)
      requires !addedToCart
      modifies this
      ensures added == AddToCartLine(details)
      ensures added.Some? ==> addedToCart
      ensures added.None? ==> addedToCart == old(addedToCart)
    {
      added := AddToCartLine(details);
      if added.Some? {
        addedToCart := true;
      }
    }

    /** The two-second timeout. */
    method FlashEnded()
      modifies this
      ensures !addedToCart
    {
      addedToCart := false;
    }
  }
}
