/** The Express error middleware: classify a thrown error into the JSON body the client
    receives, and the catch-all response for an unknown route. */
module ErrorHandler {

  /** The fields of a thrown error the handler inspects. An absent (or empty) `name`,
      `code` or `message` is the empty string; an absent (or zero) `statusCode` is 0. */
  datatype ErrorInfo = ErrorInfo(name: string, code: string, message: string, statusCode: int)

  /** The `{error, message, statusCode}` body; `statusCode` is also the HTTP status. */
  datatype ErrorResponse = ErrorResponse(error: bool, message: string, statusCode: int)

  /** errorHandler: start from the default 500 body, replace it by the first matching
      case (validation error, cast error, missing file, or just the error's own
      message), then let a truthy `statusCode` on the error override the status. */
  method HandleError(err: ErrorInfo) returns (resp: ErrorResponse)
    ensures resp.error
    ensures err.statusCode != 0 ==> resp.statusCode == err.statusCode
    ensures err.statusCode == 0 ==>
      resp.statusCode == (if err.name == "ValidationError" || err.name == "CastError" then 400 else 500)
    ensures err.name == "ValidationError" ==> resp.message == err.message
    ensures err.name == "CastError" ==> resp.message == "Invalid ID format"
    ensures err.name != "ValidationError" && err.name != "CastError" && err.code == "ENOENT" ==>
      resp.message == "File not found"
    ensures err.name != "ValidationError" && err.name != "CastError" && err.code != "ENOENT" ==>
      resp.message == (if err.message != "" then err.message else "Internal Server Error")
  {
    var error := ErrorResponse(true, "Internal Server Error", 500);
    if err.name == "ValidationError" {
      error := ErrorResponse(true, err.message, 400);
    } else if err.name == "CastError" {
      error := ErrorResponse(true, "Invalid ID format", 400);
    } else if err.code == "ENOENT" {
      error := ErrorResponse(true, "File not found", 500);
    } else if err.message != "" {
      error := error.(message := err.message);
    }
    if err.statusCode != 0 {
      error := error.(statusCode := err.statusCode);
    }
    resp := error;
  }

  /** notFoundHandler: a 404 body that names the requested URL. */
  function RouteNotFound(url: string): (r: ErrorResponse)
    ensures r.error && r.statusCode == 404
    ensures |r.message| == |url| + 16
    ensures r.message[..6] == "Route " && r.message[6..6 + |url|] == url
    ensures r.message[6 + |url|..] == " not found"
  {
    ErrorResponse(true, "Route " + url + " not found", 404)
  }

  /** The 404 message determines the route it reports. */
  lemma RouteNotFoundNamesRoute(u1: string, u2: string)
    requires RouteNotFound(u1).message == RouteNotFound(u2).message
    ensures u1 == u2
  {
    var m := RouteNotFound(u1).message;
    assert |m| == |u1| + 16 == |u2| + 16;
    assert u1 == m[6..6 + |u1|];
  }
}
