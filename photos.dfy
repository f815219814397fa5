/** Product photos as the catalogue API returns them, and the tile the
    category cards draw for a product: its first photo, or "Sin imagen". */
module Photos {
  import Cart

  datatype Foto = Foto(id: int, foto: string)

  /** What a product tile shows in place of an image. */
  datatype TileImage = Photo(url: string) | SinImagen

  /** The first photo under the storage URL; "Sin imagen" exactly when there
      are no photos. */
  function Tile(fotos: seq<Foto>): (t: TileImage)
    ensures t == SinImagen <==> fotos == []
    ensures t.Photo? ==> t.url == Cart.StorageUrl + fotos[0].foto
  {
    if fotos != [] then Photo(Cart.StorageUrl + fotos[0].foto) else SinImagen
  }
}
