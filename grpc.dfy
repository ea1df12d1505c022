/**
 * The gRPC status values the error-recovery middleware produces (tonic's
 * `Code` and `Status`), and the status headers `Status::add_header` writes.
 */
module Grpc {
  import Wrappers
  import opened Errors

  /** gRPC status codes with their wire values 0 to 16. */
  datatype Code =
    | Ok | Cancelled | Unknown | InvalidArgument | DeadlineExceeded | NotFound
    | AlreadyExists | PermissionDenied | ResourceExhausted | FailedPrecondition
    | Aborted | OutOfRange | Unimplemented | Internal | Unavailable | DataLoss
    | Unauthenticated
  {
    function Value(): (n: nat)
      ensures n <= 16
    {
      match this
      case Ok => 0
      case Cancelled => 1
      case Unknown => 2
      case InvalidArgument => 3
      case DeadlineExceeded => 4
      case NotFound => 5
      case AlreadyExists => 6
      case PermissionDenied => 7
      case ResourceExhausted => 8
      case FailedPrecondition => 9
      case Aborted => 10
      case OutOfRange => 11
      case Unimplemented => 12
      case Internal => 13
      case Unavailable => 14
      case DataLoss => 15
      case Unauthenticated => 16
    }
  }

  /** `tonic::Status`: a code, a message and an optional source error. */
  datatype Status = Status(code: Code, message: string, source: Wrappers.Option<BoxError>)

  /** `Status::new`: no source yet. */
  function NewStatus(code: Code, message: string): Status {
    Status(code, message, Wrappers.None)
  }

  /** Header names of the gRPC-over-HTTP/2 status trailer. */
  const GRPC_STATUS: string := "grpc-status"
  const GRPC_MESSAGE: string := "grpc-message"

  /** An HTTP header map, one value per name. */
  type HeaderMap = map<string, string>

  /** The decimal digits of `n`. */
  function Decimal(n: nat): (s: string)
    ensures |s| > 0
  {
    if n < 10 then ["0123456789"[n]] else Decimal(n / 10) + ["0123456789"[n % 10]]
  }

  /**
   * `Status::add_header`: `grpc-status` always, `grpc-message` only for a
   * non-empty message.
   */
  function AddHeader(status: Status, headers: HeaderMap): (r: HeaderMap)
    ensures GRPC_STATUS in r && r[GRPC_STATUS] == Decimal(status.code.Value())
    ensures GRPC_MESSAGE in r <==> status.message != [] || GRPC_MESSAGE in headers
    ensures status.message != [] ==> r[GRPC_MESSAGE] == status.message
    ensures forall k :: k in headers && k != GRPC_STATUS && k != GRPC_MESSAGE ==> k in r && r[k] == headers[k]
  {
    var withCode := headers[GRPC_STATUS := Decimal(status.code.Value())];
    if status.message != [] then withCode[GRPC_MESSAGE := status.message] else withCode
  }
}
