/** Shared result types and the error codes that decide control flow. */
module Outcomes {

  datatype Option<+T> = None | Some(value: T)

  datatype Result<+T> = Ok(value: T) | Err(code: ErrorCode)

  datatype ErrorCode =
    | ReferenceInvalid
    | ContractValueInvalid
    | ContractMismatch
    | ContractExpired
    | AttemptNotFound
    | AttemptTerminal
    | AlreadyClaimed
    | PayloadDigestConflict
    | SequenceInvalid
    | SideEffectUncertain
    | CommandInterrupted
    | CleanupIncomplete
    | TargetInvalid
    | TargetStale
    | LedgerFull
    | LedgerInvalid
    | LedgerConflict
    | LedgerUnavailable
    | LeaseExpired
    | TargetClosing
    | FrameInvalid
    | SourceFrameStale
    | GenerationStale
    | GenerationExhausted
    | SequenceExhausted
    | GuardianUnavailable
    | LocalInputDetected
    | DeadlineExpired
    | WorkerNotApplied
    | StateInvalid
    | TimeoutInvalid
    | StateStale
    | StateVersionConflict
    | IdentityUnavailable
    | AckStale
    | AckMismatch
    | PersistenceFailed
    | CatalogInvalid
    | NotPending
    | CoordinateInvalid
    | Reported(text: string)
}
