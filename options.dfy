/** An optional value: a setting that may be unset, a lookup that may find
    nothing, an argument that may be `null`. */
module Options {
  datatype Option<T> = None | Some(value: T)
}
