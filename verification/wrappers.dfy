/** The optional value used for "maybe a record", "maybe a URL session"
    and the `metadata: tableMetadata? = nil` arguments of the cancel calls. */
module Wrappers {

  datatype Option<+T> = None | Some(value: T)

}
