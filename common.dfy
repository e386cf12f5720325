/** Shared wrappers: Java's nullable references and the exceptions the core throws. */
module Common {

  /** A Java reference that may be `null`. */
  datatype Option<+T> = None | Some(value: T) {
    /** `x != null ? x : d` */
    function GetOr(d: T): T {
      match this
      case Some(v) => v
      case None => d
    }
  }

  /** The exceptions thrown by the core, by kind. The message is the one the source passes. */
  datatype Failure =
    | BadRequest(message: string)     // Exception400
    | Forbidden(message: string)      // Exception403
    | NotFound(message: string)       // Exception404
    | ServerError(message: string)    // Exception500
    | Wrapped(cause: Failure)         // new RuntimeException(e)
    | IoError                         // an IOException from the file collaborator
    | NullPointer                     // a NullPointerException
    | DataIntegrity                   // a unique constraint of the store was violated at flush
    | StaleEntity                     // a detached entity whose row does not exist was merged

  /** A call that either returns a value or throws. */
  datatype Result<+T> = Ok(value: T) | Err(error: Failure)

  /** A void call that either returns normally or throws. */
  datatype Outcome = Pass | Fail(error: Failure)
}
