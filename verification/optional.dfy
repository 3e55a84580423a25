/** Optional values, used for absent storage keys, empty form fields and the
    missing-key cases of lookups. */
module Optional {

  datatype Option<T> = None | Some(value: T)

  /** The value of a patch field when present, else the current value: the
      field-wise meaning of JavaScript's `{ ...current, ...patch }`. */
  function Pick<T>(patch: Option<T>, current: T): T {
    match patch
    case Some(v) => v
    case None => current
  }
}
