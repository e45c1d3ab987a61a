/**
 A value that may be absent: an import's `as` alias, the renaming of a
 module, a pending pipeline hint, a function's known return type.
 */
module Optional {

  datatype Option<+T> = None | Some(value: T) {

    /** Rust's `unwrap_or`: the value held, else `fallback`. */
    function UnwrapOr(fallback: T): (r: T)
      ensures Some? ==> r == value
      ensures None? ==> r == fallback
    {
      if Some? then value else fallback
    }
  }
}
