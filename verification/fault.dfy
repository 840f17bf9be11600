/**
 The service's error values. Every failure the core reports is a custom fault: an
 error kind rendered with an HTTP status code, plus a human-readable message.
 */
module Fault {

  /** The error kinds the core produces. */
  datatype Kind = BadRequest | Unauthorized | NotFound | Conflict | Unprocessable | InternalServer {

    /** The HTTP status code the request boundary renders for this kind. */
    function Status(): (code: int)
      ensures 400 <= code < 600
      ensures code < 500 <==> this != InternalServer
    {
      match this
      case BadRequest => 400
      case Unauthorized => 401
      case NotFound => 404
      case Conflict => 409
      case Unprocessable => 422
      case InternalServer => 500
    }
  }

  /** A fault: its kind and its message. Where the source appends the text of a
      driver error to the message, only the fixed text before it is kept. */
  datatype Fault = Fault(kind: Kind, message: string)

  /** What a Go call returning `(T, error)` hands back: the value when the
      error is nil, otherwise the fault. */
  datatype Result<+T> = Ok(value: T) | Err(fault: Fault)

  /** A pointer result or an optional input: None stands for nil. */
  datatype Option<+T> = None | Some(value: T)

  /** Status codes identify kinds: distinct kinds are rendered differently. */
  lemma StatusIdentifiesKind(a: Kind, b: Kind)
    ensures a.Status() == b.Status() <==> a == b
  {
  }
}
