/** An optional value, for the `None` defaults and the not-found results of the scripts. */
module Optional {
  datatype Option<T> = None | Some(value: T)
}
