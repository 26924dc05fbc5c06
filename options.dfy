/** The optional-value wrapper used for lookups that may find nothing
    (a role, a category or a channel that does not exist). */
module Options {
  datatype Option<+T> = None | Some(value: T)
}
