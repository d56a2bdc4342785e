/** Application errors, the codes stored on runs and attempts, and their classification. */
module Errors {
  import opened Text
  import opened Values

  datatype IoKind =
    | ConnectionRefused
    | ConnectionReset
    | ConnectionAborted
    | NotConnected
    | BrokenPipe
    | TimedOut
    | UnexpectedEof
    | NetworkUnreachable
    | HostUnreachable
    | NetworkDown
    | OtherIo

  datatype DatabaseFault = PoolTimedOut | DatabaseIo(kind: IoKind) | OtherDatabase

  datatype AppError =
    | Config
    | Database(fault: DatabaseFault)
    | Http(timeout: bool, connect: bool, body: bool)
    | HttpStatus(status: nat)
    | FlowActionFailed(source: AppError, details: Json)
    | Io
    | NotFound
    | Serialization
    | Unsupported
    | Validation(reason: string)
    | ReadOnly
    | Timeout
    | ApiTimeout
    | ApiNetwork
    | ApiCancelled
    | ConfirmationRequired
    | RowConflict
    | SshTaskIncompleteRemoteState

  function Invalid(code: string): AppError { Validation(code) }

  /** The validation reasons that are their own code. */
  const OWN_CODE_REASONS: set<string> := {
    "FLOW_INVALID_REFERENCE", "FLOW_UNSAFE_REFERENCE", "FLOW_CONFIRMATION_STALE",
    "FLOW_REVISION_CONFLICT", "cloud_sync_flow_payload_too_large",
    "cloud_sync_flow_unsafe_definition", "API_RESPONSE_TOO_LARGE", "SFTP_PREVIEW_TOO_LARGE",
    "SFTP_PREVIEW_BINARY", "SFTP_PREVIEW_ENCODING", "SFTP_PREVIEW_NOT_FILE",
    "SFTP_PREVIEW_PERMISSION_DENIED", "SFTP_PREVIEW_DISCONNECTED", "SFTP_PREVIEW_TIMEOUT",
    "SFTP_PREVIEW_NOT_FOUND", "SFTP_PREVIEW_READ_FAILED"
  }

  /** The stable external code of an error. */
  function Code(error: AppError): string
  {
    match error
    case Config => "CONFIG_ERROR"
    case Database(_) => "DATABASE_ERROR"
    case Http(_, _, _) => "HTTP_ERROR"
    case FlowActionFailed(_, _) => "FLOW_ACTION_FAILED"
    case HttpStatus(_) => "HTTP_STATUS_FAILED"
    case Io => "IO_ERROR"
    case NotFound => "NOT_FOUND"
    case Serialization => "SERIALIZATION_ERROR"
    case Unsupported => "UNSUPPORTED_OPERATION"
    case Validation(reason) => if reason in OWN_CODE_REASONS then reason else "VALIDATION_ERROR"
    case ReadOnly => "READ_ONLY_CONNECTION"
    case Timeout => "QUERY_TIMEOUT"
    case ApiTimeout => "API_TIMEOUT"
    case ApiNetwork => "NETWORK_ERROR"
    case ApiCancelled => "API_CANCELLED"
    case ConfirmationRequired => "CONFIRMATION_REQUIRED"
    case RowConflict => "ROW_CONFLICT"
    case SshTaskIncompleteRemoteState => "SSH_TASK_INCOMPLETE_REMOTE_STATE"
  }

  /** The code the runner stores on a step or an attempt. */
  function ErrorCode(error: AppError): string
  {
    match error
    case FlowActionFailed(source, _) => ErrorCode(source)
    case HttpStatus(status) => "FLOW_HTTP_STATUS_" + Decimal(status)
    case _ =>
      if error.Validation? && "FLOW_" <= error.reason then error.reason else Code(error)
  }

  /** Whether a failed probe may be tried again. */
  function Transient(error: AppError): bool
  {
    match error
    case FlowActionFailed(source, _) => Transient(source)
    case ApiNetwork => true
    case ApiTimeout => true
    case Timeout => true
    case HttpStatus(status) => status == 408 || status == 429 || 500 <= status <= 599
    case Http(timeout, connect, body) => timeout || connect || body
    case Database(fault) => fault.PoolTimedOut? || (fault.DatabaseIo? && !fault.kind.OtherIo?)
    case _ => false
  }

  /** Which errors a probe may be repeated after: a lost or slow network, an overloaded server,
      and a database that cannot be reached; and never a decision of the flow or the caller. */
  lemma TransientErrors(status: nat, kind: IoKind, reason: string, details: Json)
    ensures Transient(ApiNetwork) && Transient(ApiTimeout) && Transient(Timeout) && Transient(Database(PoolTimedOut))
    ensures Transient(HttpStatus(status)) <==> status in {408, 429} || status / 100 == 5
    ensures Transient(Database(DatabaseIo(kind))) <==> kind != OtherIo
    ensures forall timeout, connect, body :: Transient(Http(timeout, connect, body)) <==> timeout || connect || body
    ensures !Transient(Validation(reason)) && !Transient(Database(OtherDatabase)) && !Transient(ApiCancelled) && !Transient(NotFound)
    ensures !Transient(Config) && !Transient(Io) && !Transient(Serialization) && !Transient(Unsupported) && !Transient(ReadOnly)
    ensures !Transient(ConfirmationRequired) && !Transient(RowConflict) && !Transient(SshTaskIncompleteRemoteState)
    ensures forall source :: Transient(FlowActionFailed(source, details)) <==> Transient(source)
  {
  }

  /** The code that is stored tells apart what the runner decides by: flow codes are their own,
      a status is named in its code, and the five rebuilt kinds have the codes they are rebuilt
      from. */
  lemma StoredCodes(reason: string, status: nat)
    ensures "FLOW_" <= reason ==> ErrorCode(Validation(reason)) == reason
    ensures ErrorCode(HttpStatus(status)) == "FLOW_HTTP_STATUS_" + Decimal(status)
    ensures ErrorCode(ApiCancelled) == "API_CANCELLED" && ErrorCode(ApiTimeout) == "API_TIMEOUT"
    ensures ErrorCode(ApiNetwork) == "NETWORK_ERROR" && ErrorCode(Timeout) == "QUERY_TIMEOUT"
    ensures forall fault :: ErrorCode(Database(fault)) == "DATABASE_ERROR"
  {
  }

  /** The error an abandoned step reports for the code stored on its last attempt. */
  function RecordedAttemptError(code: string): AppError
  {
    if code == "API_CANCELLED" then ApiCancelled
    else if code == "API_TIMEOUT" then ApiTimeout
    else if code == "NETWORK_ERROR" then ApiNetwork
    else if code == "QUERY_TIMEOUT" then Timeout
    else if code == "DATABASE_ERROR" then Database(PoolTimedOut)
    else Invalid(code)
  }

  const REBUILT_CODES: set<string> :=
    {"API_CANCELLED", "API_TIMEOUT", "NETWORK_ERROR", "QUERY_TIMEOUT", "DATABASE_ERROR"}

  predicate Rebuildable(code: string)
  {
    || "FLOW_" <= code
    || code in REBUILT_CODES
    || code in OWN_CODE_REASONS
    || code == "VALIDATION_ERROR"
  }

  /** Rebuilding a stored code gives an error of that code exactly for these codes; every
      other stored code comes back as VALIDATION_ERROR. */
  lemma RebuiltCode(code: string)
    ensures ErrorCode(RecordedAttemptError(code)) == (if Rebuildable(code) then code else "VALIDATION_ERROR")
    ensures ErrorCode(RecordedAttemptError(code)) == code <==> Rebuildable(code)
  {
    if code in REBUILT_CODES {
      assert code == Code(RecordedAttemptError(code));
    }
  }

  /** A transport failure of a probe is stored as HTTP_ERROR and reported as VALIDATION_ERROR. */
  lemma TransportFailureIsRelabelled()
    ensures var stored := ErrorCode(Http(true, false, false));
            ErrorCode(RecordedAttemptError(stored)) == "VALIDATION_ERROR" != stored
  {
    var stored := ErrorCode(Http(true, false, false));
    assert stored == "HTTP_ERROR";
    assert stored[0] != "FLOW_"[0];
    assert !("FLOW_" <= stored);
  }

  /** Whether a stored code survives depends on the wrapped error: wrapping an action
      failure in details changes neither its code nor whether a probe may retry it. */
  lemma {:induction false} WrappingIsTransparent(error: AppError, layers: seq<Json>)
    ensures ErrorCode(Wrapped(error, layers)) == ErrorCode(error)
    ensures Transient(Wrapped(error, layers)) == Transient(error)
  {
    if layers != [] {
      WrappingIsTransparent(error, layers[1..]);
    }
  }

  function Wrapped(error: AppError, layers: seq<Json>): AppError
  {
    if layers == [] then error else FlowActionFailed(Wrapped(error, layers[1..]), layers[0])
  }
}
