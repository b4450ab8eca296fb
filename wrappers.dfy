/** The absent-or-present value the source signals with `null`/`undefined`. */
module Wrappers {

  datatype Option<+T> = None | Some(value: T)

  /** Number of present values (0 or 1), used to count loaded images. */
  function Count<T>(o: Option<T>): nat {
    if o.Some? then 1 else 0
  }

  /** The present value as a one-element sequence, or the empty sequence. */
  function AsSeq<T>(o: Option<T>): seq<T> {
    if o.Some? then [o.value] else []
  }
}
