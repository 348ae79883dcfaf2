/** The part of the SDK error taxonomy that control flow looks at. Message texts are not modelled. */
module Errors {
  import opened Prelude

  datatype ErrorStage = ConnectStage | BodyStage | OtherStage

  datatype TimeoutStage =
    | CredentialTimeout | ConnectTimeout | ResponseHeaderTimeout | FirstEventTimeout
    | IdleStreamTimeout | OverallTimeout | UnknownTransportTimeout

  datatype LlmError =
    | Cancelled
    | Timeout(timeoutStage: TimeoutStage, overallLimited: bool)
    | Transport(stage: ErrorStage)
    | HttpStatus(status: nat, retryAfter: Option<nat>)
    | Credential(timedOut: bool)
    | Protocol(retriableMaybe: bool)
    | TruncatedStream
    | OtherError(code: nat)
}
