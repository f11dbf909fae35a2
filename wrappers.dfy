/** Optional values: a field a partial update may leave out, a screen size that may be unknown. */
module Wrappers {
  datatype Option<+T> = None | Some(value: T)

  /** The value held, or the fallback when there is none (a field a partial update leaves out keeps its old value). */
  function OrElse<T>(o: Option<T>, fallback: T): T
  {
    if o.Some? then o.value else fallback
  }
}
