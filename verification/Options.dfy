/** Shared by the modules that model a lookup, a nullable pointer or a step that may be impossible. */
module Options {
  datatype Option<T> = None | Some(value: T)
}
