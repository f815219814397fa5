/** The promotions grid: each promotion's "Comprar" button toggles every
    product of the promotion in the cart (removing the ones already there,
    adding the rest), and each card shows the distinct first photos of the
    promotion's products. */
module PromotionCard {
  import opened Wrappers
  import opened Seqs
  import opened Cart

  datatype Producto = Producto(id: int, nombre: string, fotos: seq<string>)
  datatype Promocion = Promocion(id: int, nombre: string, precioPromocion: string, productos: seq<Producto>)

  // ---------------------------------------------------------------------
  // Cart lines

  /** The line for one product: its own id, the promotion's name before its
      name, and the promotion's price. */
  function LineFor(promo: Promocion, p: Producto): (l: CartLine)
    ensures l.id == p.id && l.price == promo.precioPromocion
    ensures l.name == promo.nombre + " - " + p.nombre
    ensures l.img == LineImage(p.fotos) && l.promotion.None?
  {
    CartLine(p.id, promo.nombre + " - " + p.nombre, promo.precioPromocion, LineImage(p.fotos), None)
  }

  /** `cartItemsToAdd`: one line per product of the promotion, in order. */
  function CartLines(promo: Promocion): (r: seq<CartLine>)
    ensures |r| == |promo.productos|
    ensures forall i :: 0 <= i < |r| ==> r[i] == LineFor(promo, promo.productos[i])
  {
    Lines(promo, promo.productos)
  }

  function Lines(promo: Promocion, ps: seq<Producto>): (r: seq<CartLine>)
    ensures |r| == |ps|
    ensures forall i :: 0 <= i < |r| ==> r[i] == LineFor(promo, ps[i])
  {
    if ps == [] then [] else [LineFor(promo, ps[0])] + Lines(promo, ps[1..])
  }

  /** Every line carries the promotion's price. */
  lemma SamePriceEverywhere(promo: Promocion)
    ensures forall l :: l in CartLines(promo) ==> l.price == promo.precioPromocion
  {
  }

  // ---------------------------------------------------------------------
  // The toggle

  /** The call for one line, decided on the cart snapshot taken at render
      time (the calls made earlier in the same click do not change it). */
  function Toggle(cart: seq<CartItem>, l: CartLine): (a: CartAction)
    ensures IsInCart(cart, l.id) <==> a == Remove(l.id)
    ensures !IsInCart(cart, l.id) <==> a == Add(l)
  {
    if IsInCart(cart, l.id) then Remove(l.id) else Add(l)
  }

  /** The calls for a sequence of lines, one per line, in order. */
  function ToggleAll(cart: seq<CartItem>, lines: seq<CartLine>): (r: seq<CartAction>)
    ensures |r| == |lines|
    ensures forall i :: 0 <= i < |lines| ==> r[i] == Toggle(cart, lines[i])
  {
    if lines == [] then [] else ToggleAll(cart, lines[..|lines| - 1]) + [Toggle(cart, lines[|lines| - 1])]
  }

  /** `handleComprar`: the `forEach` over the promotion's lines, returning
      the store calls it makes, in order. */
  method HandleComprar(promo: Promocion, cart: seq<CartItem>) returns (calls: seq<CartAction>)
    ensures calls == ToggleAll(cart, CartLines(promo))
  {
    var lines := CartLines(promo);
    calls := [];
    var i := 0;
    while i < |lines|
      invariant 0 <= i <= |lines|
      invariant calls == ToggleAll(cart, lines[..i])
    {
      assert lines[..i + 1][..i] == lines[..i];
      if IsInCart(cart, lines[i].id) {
        calls := calls + [Remove(lines[i].id)];
      } else {
        calls := calls + [Add(lines[i])];
      }
      i := i + 1;
    }
    assert lines[..i] == lines;
  }

  /** A click removes exactly the promotion's products already in the cart
      and adds exactly the others, each once and in the promotion's order. */
  lemma ComprarCalls(promo: Promocion, cart: seq<CartItem>)
    ensures |ToggleAll(cart, CartLines(promo))| == |promo.productos|
    ensures forall i :: 0 <= i < |promo.productos| ==>
      var p := promo.productos[i];
      && (IsInCart(cart, p.id) ==> ToggleAll(cart, CartLines(promo))[i] == Remove(p.id))
      && (!IsInCart(cart, p.id) ==> ToggleAll(cart, CartLines(promo))[i] == Add(LineFor(promo, p)))
  {
  }

  /** When none of the products is in the cart, a click adds every line; when
      all are, it removes every one. */
  lemma ComprarAllOrNothing(promo: Promocion, cart: seq<CartItem>)
    ensures (forall p :: p in promo.productos ==> !IsInCart(cart, p.id)) ==>
      forall a :: a in ToggleAll(cart, CartLines(promo)) ==> a.Add?
    ensures (forall p :: p in promo.productos ==> IsInCart(cart, p.id)) ==>
      forall a :: a in ToggleAll(cart, CartLines(promo)) ==> a.Remove?
  {
    var r := ToggleAll(cart, CartLines(promo));
    assert forall a :: a in r ==> exists i :: 0 <= i < |r| && r[i] == a && promo.productos[i] in promo.productos;
  }

  // ---------------------------------------------------------------------
  // The button label

  /** The label's test as written: `isInCart(promocion.id)` looks the
      promotion's own id up among the cart's ids, which are product ids. */
  function ButtonSaysRemoveAsWritten(promo: Promocion, cart: seq<CartItem>): (b: bool)
    ensures b <==> exists i :: 0 <= i < |cart| && cart[i].id == promo.id
  {
    IsInCart(cart, promo.id)
  }

  /** The label and the click disagree: a promotion whose only product is in
      the cart reads "Agregar al Carrito", yet the click removes it. */
  lemma LabelDisagreesWithClick()
    ensures
      var promo := Promocion(7, "Combo", "50", [Producto(1, "Taza", [])]);
      var cart := [CartItem(1, "Combo - Taza", Placeholder, 1)];
      && !ButtonSaysRemoveAsWritten(promo, cart)
      && ToggleAll(cart, CartLines(promo)) == [Remove(1)]
  {
    var promo := Promocion(7, "Combo", "50", [Producto(1, "Taza", [])]);
    var cart := [CartItem(1, "Combo - Taza", Placeholder, 1)];
    assert IsInCart(cart, 1);
    assert ToggleAll(cart, CartLines(promo)) == ToggleAll(cart, [])  + [Remove(1)];
  }

  /** The label's test as intended: some product of the promotion is in the cart. */
  function ButtonSaysRemove(promo: Promocion, cart: seq<CartItem>): (b: bool)
    ensures b <==> exists p :: p in promo.productos && IsInCart(cart, p.id)
  {
    exists i :: 0 <= i < |promo.productos| && IsInCart(cart, promo.productos[i].id)
  }

  /** With the intended test, the button reads "Quitar del Carrito" exactly
      when a click would remove something. */
  lemma LabelAgreesWithClick(promo: Promocion, cart: seq<CartItem>)
    ensures ButtonSaysRemove(promo, cart) <==> exists a :: a in ToggleAll(cart, CartLines(promo)) && a.Remove?
  {
    var r := ToggleAll(cart, CartLines(promo));
    if ButtonSaysRemove(promo, cart) {
      var i :| 0 <= i < |promo.productos| && IsInCart(cart, promo.productos[i].id);
      assert r[i] in r;
    }
    if exists a :: a in r && a.Remove? {
      var a :| a in r && a.Remove?;
      var i :| 0 <= i < |r| && r[i] == a;
      assert promo.productos[i] in promo.productos;
    }
  }

  // ---------------------------------------------------------------------
  // The card's images

  /** The first photo of a product with photos, `null` otherwise. */
  function FirstPhoto(p: Producto): (r: Option<string>)
    ensures r.Some? <==> p.fotos != []
    ensures r.Some? ==> r.value == StorageUrl + p.fotos[0]
  {
    if p.fotos != [] then Some(StorageUrl + p.fotos[0]) else None
  }

  function FirstPhotos(ps: seq<Producto>): (r: seq<Option<string>>)
    ensures |r| == |ps|
    ensures forall i :: 0 <= i < |ps| ==> r[i] == FirstPhoto(ps[i])
  {
    if ps == [] then [] else [FirstPhoto(ps[0])] + FirstPhotos(ps[1..])
  }

  /** `uniqueImages`: the distinct first-photo URLs, with the products
      without photos dropped; never more than there are products. */
  function UniqueImages(promo: Promocion): (r: seq<string>)
    ensures Distinct(r)
    ensures |r| <= |promo.productos|
    ensures forall u :: u in r <==> exists p :: p in promo.productos && p.fotos != [] && u == StorageUrl + p.fotos[0]
  {
    var photos := FirstPhotos(promo.productos);
    SomesOfDedup(photos);
    var r := Somes(Dedup(photos));
    assert forall u :: Some(u) in photos <==> exists i :: 0 <= i < |photos| && photos[i] == Some(u);
    r
  }

  /** The images keep the order in which they first appear among the products. */
  lemma UniqueImagesOrder(promo: Promocion)
    ensures UniqueImages(promo) == Dedup(Somes(FirstPhotos(promo.productos)))
    ensures forall i, j :: 0 <= i < j < |UniqueImages(promo)| ==>
      FirstIndex(Somes(FirstPhotos(promo.productos)), UniqueImages(promo)[i])
        < FirstIndex(Somes(FirstPhotos(promo.productos)), UniqueImages(promo)[j])
  {
    SomesOfDedup(FirstPhotos(promo.productos));
    DedupFirstOccurrenceOrder(Somes(FirstPhotos(promo.productos)));
  }
}
