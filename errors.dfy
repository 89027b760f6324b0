/**
 * The exceptions the provider code raises or lets through, one
 * constructor per kind, and the result types that carry them.
 */
module Errors {
  import opened Values

  datatype Error =
    | KeyError(key: string)          // `d[k]` on a mapping without k
    | WrongType                      // TypeError or AttributeError: a value of the wrong kind
    | IndexError                     // `[...][0]` on an empty list
    | TypeConflict(key: string)      // RuntimeError('type conflict at key k') of the deep merge
    | NoKeySource                    // RuntimeError: neither a private-key target nor a public key path
    | PublicKeyNotFound(path: Value) // RuntimeError: the public key file is not on the local disk
    | DriverFailure                  // an exception raised by the cloud driver
    | TransferFailure                // the remote upload failed
    | FileMissing(file: string)      // a local file the operation needs is missing (IOError from a copy, ValueError from an upload)
    | OsFailure                      // OSError or IOError of a local file system operation

  datatype Result<+T> = Ok(value: T) | Err(error: Error) {
    predicate IsFailure() { Err? }
    function PropagateFailure<U>(): Result<U>
      requires Err?
    {
      Err(error)
    }
    function Extract(): T
      requires Ok?
    {
      value
    }
  }

  /** The outcome of a procedure that returns nothing: it finishes or raises. */
  datatype Outcome = Pass | Fail(error: Error)
}
