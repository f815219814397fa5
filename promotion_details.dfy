/** The page of one promotion: "Agregar al Carrito" adds one promotion line
    per product of the promotion and flashes a confirmation; the button's
    label says whether the promotion is already in the cart. */
module PromotionDetails {
  import opened Wrappers
  import opened Cart

  datatype Producto = Producto(id: int, nombre: string, fotos: seq<string>)
  datatype Promotion = Promotion(id: int, nombre: string, precioPromocion: string, productos: seq<Producto>)

  /** The cart line for one product of the promotion: the product's id and
      name, the promotion's price, and the promotion record naming the
      promotion and pointing back at the product. */
  function ItemFor(promo: Promotion, p: Producto): (l: CartLine)
    ensures l.id == p.id && l.name == p.nombre && l.price == promo.precioPromocion
    ensures l.img == LineImage(p.fotos)
    ensures l.promotion == Some(PromotionInfo(promo.nombre, "Incluye: " + p.nombre, p.id))
    ensures l.promotion.Some? && l.promotion.value.idProducto == l.id
  {
    CartLine(p.id, p.nombre, promo.precioPromocion, LineImage(p.fotos),
             Some(PromotionInfo(promo.nombre, "Incluye: " + p.nombre, p.id)))
  }

  /** The mapped `cartItems`: one line per product, in order. */
  function Items(promo: Promotion): (r: seq<CartLine>)
    ensures |r| == |promo.productos|
    ensures forall i :: 0 <= i < |r| ==> r[i] == ItemFor(promo, promo.productos[i])
  {
    ItemsOf(promo, promo.productos)
  }

  function ItemsOf(promo: Promotion, ps: seq<Producto>): (r: seq<CartLine>)
    ensures |r| == |ps|
    ensures forall i :: 0 <= i < |r| ==> r[i] == ItemFor(promo, ps[i])
  {
    if ps == [] then [] else [ItemFor(promo, ps[0])] + ItemsOf(promo, ps[1..])
  }

  /** Every line is a promotion line with the promotion's price and name. */
  lemma ItemsArePromotionLines(promo: Promotion)
    ensures forall l :: l in Items(promo) ==>
      l.price == promo.precioPromocion && l.promotion.Some? && l.promotion.value.name == promo.nombre
  {
  }

  /** What the add button reads. */
  datatype ButtonText = Added | InCart | AddToCart

  /** The confirmation flag and the click handler. */
  class AddButton {
    var addedToCart: bool

    constructor ()
      ensures !addedToCart
    {
      addedToCart := false;
    }

    /** `handleAddToCart`: with no promotion loaded, nothing; otherwise one
        `addToCart` call per line, in order, then the confirmation flag. The
        button is disabled while the flag is raised, so a click happens only
        with the flag lowered. */
    method HandleAddToCart(promotion: Option<Promotion>) returns (calls: seq<CartLine>)
      requires !addedToCart
      modifies this
      ensures promotion.None? ==> calls == [] && addedToCart == old(addedToCart)
      ensures promotion.Some? ==> calls == Items(promotion.value) && addedToCart
    {
      calls := [];
      if promotion.None? {
        return;
      }
      var promo := promotion.value;
      var items := Items(promo);
      var i := 0;
      while i < |items|
        invariant 0 <= i <= |items|
        invariant calls == items[..i]
      {
        calls := calls + [items[i]];
        i := i + 1;
      }
      assert items[..i] == items;
      addedToCart := true;
    }

    /** The two-second timeout. */
    method FlashEnded()
      modifies this
      ensures !addedToCart
    {
      addedToCart := false;
    }

    /** The label as written: `isInCart(promotionDetails.id)` looks the
        promotion's own id up among the cart's ids, which are product ids. */
    function LabelAsWritten(promo: Promotion, cart: seq<CartItem>): (r: ButtonText)
      reads this
      ensures addedToCart ==> r == Added
      ensures !addedToCart ==> (r == InCart <==> exists i :: 0 <= i < |cart| && cart[i].id == promo.id)
    {
      if addedToCart then Added else if IsInCart(cart, promo.id) then InCart else AddToCart
    }

    /** The label as intended: "En el Carrito" when some product of the
        promotion is in the cart. */
    function Label(promo: Promotion, cart: seq<CartItem>): (r: ButtonText)
      reads this
      ensures addedToCart ==> r == Added
      ensures !addedToCart ==> (r == InCart <==> exists p :: p in promo.productos && IsInCart(cart, p.id))
    {
      if addedToCart then Added
      else if exists i :: 0 <= i < |promo.productos| && IsInCart(cart, promo.productos[i].id) then InCart
      else AddToCart
    }
  }

  /** Once the flash is over and the cart holds every line a click added,
      the intended label reads "En el Carrito". */
  lemma LabelAfterAdd(b: AddButton, promo: Promotion, cart: seq<CartItem>)
    requires !b.addedToCart && promo.productos != []
    requires forall l :: l in Items(promo) ==> IsInCart(cart, l.id)
    ensures b.Label(promo, cart) == InCart
  {
    assert Items(promo)[0] in Items(promo);
    assert promo.productos[0] in promo.productos;
  }

  /** With the test as written the same state reads "Agregar al Carrito":
      the cart holds the promotion's only product, but not the promotion's id. */
  lemma LabelAsWrittenAfterAdd(b: AddButton)
    requires !b.addedToCart
    ensures
      var promo := Promotion(7, "Combo", "50", [Producto(1, "Taza", [])]);
      var cart := [CartItem(1, "Taza", Placeholder, 1)];
      && (forall l :: l in Items(promo) ==> IsInCart(cart, l.id))
      && b.LabelAsWritten(promo, cart) == AddToCart
  {
    var promo := Promotion(7, "Combo", "50", [Producto(1, "Taza", [])]);
    var cart := [CartItem(1, "Taza", Placeholder, 1)];
    assert IsInCart(cart, 1);
    assert !IsInCart(cart[1..], 7);
  }
}
