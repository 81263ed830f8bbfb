/** Results, optional values and the failure codes that cross module boundaries. */
module Wrappers {

  datatype Option<+T> = None | Some(value: T)

  datatype Result<+T> = Success(value: T) | Failure(error: ErrorCode)

  /** The codes the modelled code raises.  `StorageError` stands for an exception of the database
      engine, `RuntimeFault` for a plain `RuntimeError`, `Unspecified` for any exception that is
      not an `AgentKernelError`. */
  datatype ErrorCode =
    | ValidationError
    | UnsupportedSemantics
    | StaleTarget
    | ExecutionFailed
    | VerificationFailed
    | VerificationUnknown
    | RollbackFailed
    | ExternalResultInDoubt
    | DeadlineExceeded
    | IllegalTransition
    | VersionConflict
    | IntegrityError
    | PolicyUnknown
    | StorageError
    | RuntimeFault
    | Unspecified
}
