/** Values shared by the modelled services: an optional value standing for a
    Go pointer that may be nil, and the SDK's `aws.StringValue` dereference. */
module Aws {

  /** A Go pointer that may be nil: `None` is nil, `Some(v)` points at `v`. */
  datatype Option<+T> = None | Some(value: T)

  /** `aws.StringValue`: the pointed-to string, or "" for a nil pointer. */
  function StringValue(p: Option<string>): string {
    match p
    case None => ""
    case Some(v) => v
  }
}
