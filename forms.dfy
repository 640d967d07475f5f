/** Shared vocabulary of the two client pages. */
module Forms {

  /** An input that may be missing: `None` is a form field left empty (or
      a contract call not made), `Some` the value it holds. */
  datatype Option<T> = None | Some(value: T)
}
