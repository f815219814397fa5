/** What the page components hand to, and read from, the shared cart store.
    The store itself (its add, remove and quantity rules) is not part of
    this model: a component's effect on it is described as the calls it
    makes, in order. */
module Cart {
  import opened Wrappers

  /** Prefix of every product photo's URL. */
  const StorageUrl: string := "https://importadoramiranda.com/storage/"
  /** The image used when a product has no photo. */
  const Placeholder: string := "/placeholder.jpg"

  /** The image of a promotion's cart line: the first photo under the
      storage URL when it is non-empty, else the placeholder. */
  function LineImage(fotos: seq<string>): (r: string)
    ensures fotos != [] && fotos[0] != "" ==> r == StorageUrl + fotos[0]
    ensures !(fotos != [] && fotos[0] != "") ==> r == Placeholder
  {
    if fotos != [] && fotos[0] != "" then StorageUrl + fotos[0] else Placeholder
  }

  /** The extra record a promotion's cart line carries. */
  datatype PromotionInfo = PromotionInfo(name: string, description: string, idProducto: int)

  /** The argument of `addToCart`. `price` is the price text the call site
      passes through `parseFloat`; `promotion` is present only on lines a
      promotion page adds (`isPromotion: true`). */
  datatype CartLine = CartLine(id: int, name: string, price: string, img: string,
                               promotion: Option<PromotionInfo>)

  /** One entry of the store's `cartItems` snapshot, as the components read it. */
  datatype CartItem = CartItem(id: int, name: string, img: string, quantity: int)

  /** A call on the store. */
  datatype CartAction = Add(line: CartLine) | Remove(id: int)

  /** `cartItems.some(item => item.id === id)`. */
  function IsInCart(items: seq<CartItem>, id: int): (b: bool)
    ensures b <==> exists i :: 0 <= i < |items| && items[i].id == id
  {
    if items == [] then false else items[0].id == id || IsInCart(items[1..], id)
  }
}
