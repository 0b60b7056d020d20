/** The optional value used wherever the source stores `None` or reads a
    dictionary key that may be missing. */
module Wrappers {

  datatype Option<+T> = None | Some(value: T) {

    /** Python's `d.get(key, fallback)`, once the key has been looked up:
        the stored value when the key was present, `fallback` otherwise. */
    function ValueOr(fallback: T): T {
      if Some? then value else fallback
    }
  }
}
