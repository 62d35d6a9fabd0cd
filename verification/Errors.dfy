/** The crate-wide error value, its recursive classifiers, and the result type
    every fallible operation of the model returns (src/error.rs). */
module Errors {

  datatype Option<+T> = None | Some(value: T)

  /** NFSv4 statuses the client branches on; every other code is `Other`. */
  datatype Status =
    | Ok
    | NoEnt | Stale | BadHandle | FhExpired
    | Delay | Grace
    | BadSession | ConnNotBoundToSession | DeadSession | StaleClientId | Expired
    | AdminRevoked | BadStateId | DelegRevoked | LeaseMoved | NoGrace | OldStateId
    | ReclaimBad | ReclaimConflict | StaleStateId
    | CompleteAlready | OpIllegal | MinorVersionMismatch | LocksHeld
    | BadSeqId | BadXdr | Moved | NoFileHandle | Resource
    | Other(code: nat)
  {
    predicate IsRetryable() {
      Delay? || Grace?
    }

    predicate RequiresSessionRecovery() {
      BadSession? || ConnNotBoundToSession? || DeadSession? || StaleClientId? || Expired?
    }

    predicate IndicatesLostState() {
      AdminRevoked? || BadStateId? || DelegRevoked? || Expired? || LeaseMoved? || NoGrace?
      || OldStateId? || ReclaimBad? || ReclaimConflict? || StaleClientId? || StaleStateId?
    }
  }

  datatype IoKind =
    | Interrupted | TimedOut | WouldBlock | UnexpectedEof | ConnectionAborted
    | ConnectionReset | ConnectionRefused | BrokenPipe | NotConnected
    | OtherIo
  {
    predicate IsRetryable() {
      !OtherIo?
    }
  }

  datatype NfsStatus3 = Jukebox | NoEnt3 | NotEmpty3 | NotDir3 | IsDir3 | Exist3 | NotSupported3 | Other3(code: nat)

  datatype Error =
    | Io(kind: IoKind)
    | Xdr
    | InvalidPath
    | NameTooLong
    | LengthOutOfRange
    | Protocol
    | RpcConnectionInvalid
    | OutcomeUnknown(cause: Error)
    | LockLost(lostStatus: Status)
    | Cleanup(primary: Error, cleanup: Error)
    | RpcMismatch
    | RpcUnexpectedMessageType
    | RpcDenied
    | RpcAcceptedError
    | RpcProgramMismatch
    | RpcRecordTooLarge
    | Nfs(status3: NfsStatus3)
    | NfsV4(operation: nat, status: Status)
  {
    /** A request may have executed despite the error. */
    predicate IsOutcomeUnknown() {
      match this
      case OutcomeUnknown(_) => true
      case Cleanup(primary, _) => primary.IsOutcomeUnknown()
      case _ => false
    }

    predicate IsTransportFailure() {
      match this
      case RpcConnectionInvalid => true
      case Io(kind) => kind.IsRetryable()
      case OutcomeUnknown(cause) => cause.IsTransportFailure()
      case _ => false
    }

    predicate IsRetryable() {
      match this
      case Cleanup(primary, _) => primary.IsRetryable()
      case Io(kind) => kind.IsRetryable()
      case Nfs(Jukebox) => true
      case NfsV4(_, status) => status.IsRetryable()
      case _ => false
    }

    predicate IsSessionRecoverable() {
      match this
      case Cleanup(primary, cleanup) => primary.IsSessionRecoverable() || cleanup.IsSessionRecoverable()
      case NfsV4(_, status) => status.RequiresSessionRecovery()
      case _ => false
    }

    predicate IsLostState() {
      match this
      case LockLost(_) => true
      case Cleanup(primary, cleanup) => primary.IsLostState() || cleanup.IsLostState()
      case NfsV4(_, status) => status.IndicatesLostState()
      case _ => false
    }
  }

  datatype Result<+T> = Success(value: T) | Failure(error: Error) {
    predicate IsFailure(): (failed: bool)
      ensures failed <==> Failure?
    {
      Failure?
    }

    function PropagateFailure<U>(): (r: Result<U>)
      requires Failure?
      ensures r.Failure? && r.error == error
    {
      Failure(error)
    }

    function Extract(): (v: T)
      requires Success?
      ensures v == value
    {
      value
    }
  }

  /** Attaches a failed best-effort cleanup to the primary error. */
  function CleanupError(error: Error, cleanup: Result<()>): Error {
    if cleanup.Success? then error else Cleanup(error, cleanup.error)
  }

  /** What a caller reads off a combined error is what the primary error said,
      however many cleanups failed on top of it. */
  lemma CleanupKeepsVerdict(error: Error, cleanup: Result<()>)
    ensures CleanupError(error, cleanup).IsOutcomeUnknown() == error.IsOutcomeUnknown()
    ensures CleanupError(error, cleanup).IsRetryable() == error.IsRetryable()
    ensures error.IsSessionRecoverable() ==> CleanupError(error, cleanup).IsSessionRecoverable()
    ensures error.IsLostState() ==> CleanupError(error, cleanup).IsLostState()
  {
  }

  /** No error that may hide an executed request is ever advertised as safe to retry. */
  lemma {:induction false} UnknownOutcomeIsNotRetryable(error: Error)
    requires error.IsOutcomeUnknown()
    ensures !error.IsRetryable()
  {
    match error {
      case OutcomeUnknown(_) =>
      case Cleanup(primary, _) => UnknownOutcomeIsNotRetryable(primary);
      case _ =>
    }
  }
}
