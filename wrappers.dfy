/** The optional value used for nullable fields, absent keys and failed parses. */
module Wrappers {
  datatype Option<T> = None | Some(value: T)

  /** An optional id that JavaScript treats as present: not null and not empty. */
  predicate Truthy(id: Option<string>)
  {
    id.Some? && id.value != ""
  }
}
