/** Optional values and results used by the player model: an optional value
    (Kotlin's nullable / not-yet-initialised fields) and a result that is
    either a value or an error (Kotlin's thrown exceptions). */
module Results {

  datatype Option<+T> = None | Some(value: T)

  datatype Result<+T, +E> = Success(value: T) | Failure(error: E)
}
