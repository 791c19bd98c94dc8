/** The request methods and response statuses of the endpoint layer. */
module HTTPEndpoint {
  import opened Wrappers

  /** The five request methods an endpoint request may use. */
  datatype Method = Get | Head | Patch | Post | Put

  /** Response statuses the endpoints distinguish, each with its numeric status code as raw value. */
  datatype Status = Ok | BadRequest | Unauthorized | Forbidden | NotFound | Conflict | InternalServerError
  {
    /** The status code: 200 for `Ok`, a client or server error code (at least 400) for every other status. */
    function RawValue(): (code: int)
      ensures code == 200 <==> this == Ok
      ensures this != Ok ==> 400 <= code < 600
    {
      match this
      case Ok => 200
      case BadRequest => 400
      case Unauthorized => 401
      case Forbidden => 403
      case NotFound => 404
      case Conflict => 409
      case InternalServerError => 500
    }

    /** Success means exactly the `Ok` status. */
    predicate IsSuccess() {
      this == Ok
    }
  }

  /** The failable initialiser from a raw value: the status with that code, if there is one. */
  function StatusFromRawValue(code: int): (s: Option<Status>)
    ensures s.Some? ==> s.value.RawValue() == code
  {
    match code
    case 200 => Some(Ok)
    case 400 => Some(BadRequest)
    case 401 => Some(Unauthorized)
    case 403 => Some(Forbidden)
    case 404 => Some(NotFound)
    case 409 => Some(Conflict)
    case 500 => Some(InternalServerError)
    case _ => None
  }

  /** Every status is recovered from its raw value, so no two statuses share a code. */
  lemma RawValueRoundTrip(s: Status)
    ensures StatusFromRawValue(s.RawValue()) == Some(s)
  {
  }

  lemma RawValuesDistinct(s: Status, t: Status)
    ensures s.RawValue() == t.RawValue() ==> s == t
  {
    RawValueRoundTrip(s);
    RawValueRoundTrip(t);
  }

  /** A status is a success exactly when its code is 200; every other code is an error code. */
  lemma SuccessIffCode200(s: Status)
    ensures s.IsSuccess() <==> s.RawValue() == 200
    ensures !s.IsSuccess() ==> s.RawValue() >= 400
  {
  }
}
