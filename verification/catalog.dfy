/** The fields of the music service's saved-tracks response that the script reads. */
module Catalog {

  /** One variant of the album art, with its declared pixel size. */
  datatype AlbumImage = AlbumImage(url: string, width: int, height: int)

  datatype Album = Album(images: seq<AlbumImage>)

  datatype Track = Track(name: string, album: Album)

  /** One entry of the response's `items` list. */
  datatype SavedItem = SavedItem(track: Track)

  predicate HasAlbumImage(t: Track) {
    |t.album.images| > 0
  }
}
