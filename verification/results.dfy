/** Success/failure results: the script raises on every failure, and the model
    returns the failure instead. */
module Results {

  datatype Result<+T, +E> = Ok(value: T) | Err(error: E)

  /** The failures the modelled core can raise. */
  datatype Error =
    | MissingAlbumImage(trackName: string)  // `album["images"][0]` on an empty image list
    | EmptyChoice                           // `random.choice` on an empty list
}
