/** Values shared by every page: optional values, the errors the pages can
    report, and the outcome of a call into a library whose internals are not
    part of this model (success with a value, or failure with an error). */
module Outcomes {

  datatype Option<+T> = None | Some(value: T)

  /** The value of a call that produces nothing but can still fail. */
  datatype Unit = Unit

  /** An error as the pages see it. */
  datatype Error =
    | Raised(id: nat)             // thrown or rejected by a library call; its content is opaque here
    | TypeError(expression: string) // a non-null assertion (`x!`) applied to `undefined`
    | WebUsbUnsupported           // the notice shown when the browser has no WebUSB

  /** What an asynchronous library call settles to. */
  datatype Outcome<+T> = Ok(value: T) | Err(error: Error)
}
