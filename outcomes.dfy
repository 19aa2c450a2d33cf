/** Success and failure values shared by the minification stage and the webpack loader.
    A collaborator whose work is not modelled (a copy, an unlink, a minifier) is
    represented by the Outcome it settles with. */
module Outcomes {

  datatype Option<+T> = None | Some(value: T)

  /** The errors that can reach a caller of the modelled code. */
  datatype Error =
    | ClosureExitedNonZero   // runClosure: 'Closure failed with a non-zero status code'
    | NoSuchFile(path: string)   // a read, copy or unlink of a path that does not exist
    | TypeError   // assigning `sources` on a source map that is null or not an object
    | NoReason   // a promise rejected with no error value, as `reject()` does
    | Raised(reason: string)   // any other error thrown by a collaborator

  /** How a promise that carries no value settles. */
  datatype Outcome = Pass | Fail(error: Error)

  /** How a promise that carries a value settles. */
  datatype Result<+T> = Ok(value: T) | Err(error: Error)

  /** The contents of a file system: path to file text. A path that is absent cannot be read. */
  type Files = map<string, string>
}
