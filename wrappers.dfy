/** Small helper types shared by the whole model. */
module Wrappers {

  /** A Go pointer, interface or func value that may be nil. */
  datatype Nullable<+T> = Nil | Some(value: T)

  /** A Go `error` value; only its text is observable here. */
  datatype Error = Error(message: string)
}
