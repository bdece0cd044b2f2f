/**
 * HTTP status codes and their reason phrases, as listed in section 15 of RFC 9110, with the
 * empty string for a code that section does not define. For the codes the service emits these
 * are the phrases net/http.StatusText returns; for some other codes net/http words the phrase
 * differently or knows codes this table leaves empty.
 */
module HttpStatus {

  const StatusOK := 200
  const StatusCreated := 201
  const StatusNoContent := 204
  const StatusBadRequest := 400
  const StatusUnauthorized := 401
  const StatusForbidden := 403
  const StatusNotFound := 404
  const StatusConflict := 409
  const StatusInternalServerError := 500

  function StatusText(code: int): string
  {
    match code
    case 100 => "Continue"
    case 101 => "Switching Protocols"
    case 200 => "OK"
    case 201 => "Created"
    case 202 => "Accepted"
    case 203 => "Non-Authoritative Information"
    case 204 => "No Content"
    case 205 => "Reset Content"
    case 206 => "Partial Content"
    case 300 => "Multiple Choices"
    case 301 => "Moved Permanently"
    case 302 => "Found"
    case 303 => "See Other"
    case 304 => "Not Modified"
    case 305 => "Use Proxy"
    case 307 => "Temporary Redirect"
    case 308 => "Permanent Redirect"
    case 400 => "Bad Request"
    case 401 => "Unauthorized"
    case 402 => "Payment Required"
    case 403 => "Forbidden"
    case 404 => "Not Found"
    case 405 => "Method Not Allowed"
    case 406 => "Not Acceptable"
    case 407 => "Proxy Authentication Required"
    case 408 => "Request Timeout"
    case 409 => "Conflict"
    case 410 => "Gone"
    case 411 => "Length Required"
    case 412 => "Precondition Failed"
    case 413 => "Content Too Large"
    case 414 => "URI Too Long"
    case 415 => "Unsupported Media Type"
    case 416 => "Range Not Satisfiable"
    case 417 => "Expectation Failed"
    case 421 => "Misdirected Request"
    case 422 => "Unprocessable Content"
    case 426 => "Upgrade Required"
    case 500 => "Internal Server Error"
    case 501 => "Not Implemented"
    case 502 => "Bad Gateway"
    case 503 => "Service Unavailable"
    case 504 => "Gateway Timeout"
    case 505 => "HTTP Version Not Supported"
    case _ => ""
  }

  /** The reason phrase of 400, which SendError writes for a BadRequest. */
  lemma BadRequestText(code: int)
    requires code == StatusBadRequest
    ensures StatusText(code) == "Bad Request"
  {
  }

  /** Every status this service emits has a non-empty reason phrase. */
  lemma EmittedStatusesHaveText(code: int)
    requires code in {StatusOK, StatusCreated, StatusNoContent, StatusBadRequest, StatusUnauthorized,
                      StatusForbidden, StatusNotFound, StatusConflict, StatusInternalServerError}
    ensures StatusText(code) != ""
  {
  }
}
