/** Optional values, results and outcomes shared by the whole model. */
module Outcomes {

  datatype Option<T> = None | Some(value: T)

  /** The ways an operation of the invoice builder can fail.
      UndefinedProperty and ConstAssignment are the two JavaScript TypeErrors the
      builder can raise (reading or calling through `undefined`/`null`, and
      assigning to a `const` binding); the others name the external collaborator
      that failed. */
  datatype Error =
    | UndefinedProperty
    | ConstAssignment
    | InvalidCertificate
    | CanonicalizationFailed
    | KeyDecryptionFailed
    | SigningFailed

  datatype Result<T> = Ok(value: T) | Err(error: Error)

  datatype Outcome = Pass | Fail(error: Error)
}
