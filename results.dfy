/** Optional values, and results that carry the exception `build_singer_model`
    would raise. */
module Results {

  datatype Option<T> = None | Some(value: T)

  /** Why `build_singer_model` raises: an artist id that is not a key of the
      artist dict (KeyError), a feature file that `np.load` cannot open, or
      an artist key that no segment filled, whose `None` has no `.items()`
      (AttributeError). */
  datatype Failure = UnknownArtist(id: int) | MissingFeature(file: string) | EmptyArtist(key: nat)

  datatype Result<T> = Ok(value: T) | Err(failure: Failure)
}
