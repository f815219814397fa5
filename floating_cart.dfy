/** The cart panel: on a wholesale route its checkout leads to the wholesale
    payment page, elsewhere to the retail one. */
module FloatingCart {
  import opened Text
  import opened Cart

  /** The route prefixes of the wholesale part of the shop. */
  const MayoristaPrefixes: seq<string> := ["/categoriamayor", "/productosmayoristas", "/main", "/productomayor"]

  /** `isMayoristaRoute`. */
  predicate IsMayoristaRoute(path: string) {
    || StartsWith(path, "/categoriamayor")
    || StartsWith(path, "/productosmayoristas")
    || StartsWith(path, "/main")
    || StartsWith(path, "/productomayor")
  }

  /** The predicate is exactly "starts with one of the wholesale prefixes". */
  lemma IsMayoristaRouteIsPrefixTest(path: string)
    ensures IsMayoristaRoute(path) <==> exists i :: 0 <= i < |MayoristaPrefixes| && StartsWith(path, MayoristaPrefixes[i])
  {
    if IsMayoristaRoute(path) {
      if StartsWith(path, "/categoriamayor") { assert StartsWith(path, MayoristaPrefixes[0]); }
      else if StartsWith(path, "/productosmayoristas") { assert StartsWith(path, MayoristaPrefixes[1]); }
      else if StartsWith(path, "/main") { assert StartsWith(path, MayoristaPrefixes[2]); }
      else { assert StartsWith(path, MayoristaPrefixes[3]); }
    }
  }

  /** What `handleCheckout` does, in order. */
  datatype Effect = Close | Navigate(path: string)

  const WholesalePayment: string := "/pago1"
  const RetailPayment: string := "/pago"

  /** `handleCheckout`: close the panel, then go to the payment page that
      matches the route. */
  function Checkout(path: string): (effects: seq<Effect>)
    ensures |effects| == 2 && effects[0] == Close && effects[1].Navigate?
    ensures effects[1].path == WholesalePayment <==> IsMayoristaRoute(path)
    ensures effects[1].path == RetailPayment <==> !IsMayoristaRoute(path)
  {
    [Close, Navigate(if IsMayoristaRoute(path) then WholesalePayment else RetailPayment)]
  }

  /** The wholesale payment page is not itself a wholesale route: a checkout
      started from it (or from any other page outside the prefixes) leads
      to the retail payment page. */
  lemma CheckoutFromWholesalePayment()
    ensures Checkout(WholesalePayment)[1] == Navigate(RetailPayment)
  {
    NotStartsWithAt(WholesalePayment, "/categoriamayor", 1);
    NotStartsWithAt(WholesalePayment, "/productosmayoristas", 2);
    NotStartsWithAt(WholesalePayment, "/main", 1);
    NotStartsWithAt(WholesalePayment, "/productomayor", 2);
  }

  /** What the panel renders. */
  datatype View = Nothing | EmptyMessage | Items(items: seq<CartItem>)

  /** Nothing while closed; when open, the empty message for an empty cart,
      else its items in the store's order. */
  function Render(isCartOpen: bool, cartItems: seq<CartItem>): (v: View)
    ensures v == Nothing <==> !isCartOpen
    ensures v == EmptyMessage <==> isCartOpen && cartItems == []
    ensures v.Items? ==> v.items == cartItems && cartItems != []
  {
    if !isCartOpen then Nothing
    else if cartItems == [] then EmptyMessage
    else Items(cartItems)
  }
}
