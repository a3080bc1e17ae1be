/** The optional value used for Kotlin's nullable results (`String?`, `Int?`, `Phone?`). */
module Wrappers {

  datatype Option<+T> = None | Some(value: T)
}
