/**
 * The HTTP status enumeration: sixteen cases backed by their integer codes,
 * each with the reason phrase of section 15 of RFC 9110 (429 from section 4
 * of RFC 6585).
 */
module HttpStatus {
  import opened Php

  datatype Status =
    | OK | Created | NoContent
    | MovedPermanently | Found | NotModified
    | BadRequest | Unauthorized | Forbidden | NotFound | NotAllowed | TooManyRequests
    | InternalError | NotImplemented | BadGateway | Unavailable

  /** The integer backing each case. */
  function Code(s: Status): (c: int)
    ensures 200 <= c < 600
    ensures s.OK? || s.Created? || s.NoContent? <==> 200 <= c < 300
    ensures s.MovedPermanently? || s.Found? || s.NotModified? <==> 300 <= c < 400
    ensures 500 <= c <==> s.InternalError? || s.NotImplemented? || s.BadGateway? || s.Unavailable?
  {
    match s
    case OK => 200
    case Created => 201
    case NoContent => 204
    case MovedPermanently => 301
    case Found => 302
    case NotModified => 304
    case BadRequest => 400
    case Unauthorized => 401
    case Forbidden => 403
    case NotFound => 404
    case NotAllowed => 405
    case TooManyRequests => 429
    case InternalError => 500
    case NotImplemented => 501
    case BadGateway => 502
    case Unavailable => 503
  }

  /** `Status::tryFrom($code)`: the case backed by `code`, if any. */
  function FromCode(code: int): (r: Option<Status>)
    ensures r.Some? ==> Code(r.value) == code
  {
    if code == 200 then Some(OK)
    else if code == 201 then Some(Created)
    else if code == 204 then Some(NoContent)
    else if code == 301 then Some(MovedPermanently)
    else if code == 302 then Some(Found)
    else if code == 304 then Some(NotModified)
    else if code == 400 then Some(BadRequest)
    else if code == 401 then Some(Unauthorized)
    else if code == 403 then Some(Forbidden)
    else if code == 404 then Some(NotFound)
    else if code == 405 then Some(NotAllowed)
    else if code == 429 then Some(TooManyRequests)
    else if code == 500 then Some(InternalError)
    else if code == 501 then Some(NotImplemented)
    else if code == 502 then Some(BadGateway)
    else if code == 503 then Some(Unavailable)
    else None
  }

  /** Every case is found again from its code, so no two cases share a code. */
  lemma FromCodeOfCode(s: Status)
    ensures FromCode(Code(s)) == Some(s)
  {
  }

  lemma CodesDistinct(s: Status, t: Status)
    requires Code(s) == Code(t)
    ensures s == t
  {
    FromCodeOfCode(s);
    FromCodeOfCode(t);
  }

  /** `getText()`: the reason phrase; the `default` arm of the match is unreachable. */
  function Text(s: Status): (t: string)
    ensures t != ""
    ensures s.NotFound? ==> t == "Not Found"
    ensures s.NotAllowed? ==> t == "Method Not Allowed"
    ensures s.TooManyRequests? ==> t == "Too Many Requests"
    ensures s.InternalError? ==> t == "Internal Server Error"
  {
    match s
    case OK => "OK"
    case Created => "Created"
    case NoContent => "No Content"
    case MovedPermanently => "Moved Permanently"
    case Found => "Found"
    case NotModified => "Not Modified"
    case BadRequest => "Bad Request"
    case Unauthorized => "Unauthorized"
    case Forbidden => "Forbidden"
    case NotFound => "Not Found"
    case NotAllowed => "Method Not Allowed"
    case TooManyRequests => "Too Many Requests"
    case InternalError => "Internal Server Error"
    case NotImplemented => "Not Implemented"
    case BadGateway => "Bad Gateway"
    case Unavailable => "Service Unavailable"
  }
}
