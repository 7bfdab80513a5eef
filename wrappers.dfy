/** Small helper datatypes shared by the chat and the auth stores. */
module Wrappers {

  /** A value that may be absent: TypeScript's `T | null` and optional (`?`) fields. */
  datatype Option<+T> = None | Some(value: T)
}
