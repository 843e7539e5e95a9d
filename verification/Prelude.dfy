/** Small shared vocabulary. */
module Prelude {
  datatype Option<+T> = None | Some(value: T)

  /** What the registry knows of a WebThread id. */
  datatype IdState = Uninitialized | Running | Shutdown
}
