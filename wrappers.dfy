/** Python's `None`-or-value, as the ledger's optional fields and lookups use it. */
module Wrappers {

  datatype Option<+T> = None | Some(value: T)
}
