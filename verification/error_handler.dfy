/** `errorHandler`: the single place where errors handed to `next` become HTTP responses. */
module ErrorHandler {
  import opened Js

  /** The response: its status, the body's `error` text, and the body's `stack` when present. */
  datatype ErrorResponse = ErrorResponse(status: int, error: string, stack: Option<string>)

  /** `err.status || 500`: a missing or zero status falls back to 500. */
  function StatusOr500(status: Option<int>): (r: int)
    ensures r != 0
    ensures status.Some? && status.value != 0 ==> r == status.value
    ensures status.None? || status.value == 0 ==> r == 500
  {
    if status.Some? && status.value != 0 then status.value else 500
  }

  predicate Development(nodeEnv: Option<string>) {
    nodeEnv == Some("development")
  }

  /** The response by rule priority, highest first: a JWT error, then an oversized upload, then a
      platform error, then the error's own message and status. `nodeEnv` is `NODE_ENV`. */
  function Respond(err: JsError, nodeEnv: Option<string>): (r: ErrorResponse)
    ensures err.name == Some("JsonWebTokenError") ==> r.status == 401 && r.error == "Invalid token"
    ensures err.name != Some("JsonWebTokenError") && err.code == Some("LIMIT_FILE_SIZE") ==>
              r.status == 413 && r.error == "File too large"
    ensures err.name != Some("JsonWebTokenError") && err.code != Some("LIMIT_FILE_SIZE") && Truthy(err.errorMessage) ==>
              r.status == 400 && r.error == err.errorMessage.value
    ensures err.name != Some("JsonWebTokenError") && err.code != Some("LIMIT_FILE_SIZE") && !Truthy(err.errorMessage) ==>
              r.status == StatusOr500(err.status) && r.error == OrElse(err.message, "Internal server error")
    ensures r.stack.Some? ==> Development(nodeEnv) && err.stack == r.stack
    ensures Development(nodeEnv) ==> r.stack == err.stack
    ensures r.status != 0
  {
    var stack := if Development(nodeEnv) then err.stack else None;
    if err.name == Some("JsonWebTokenError") then ErrorResponse(401, "Invalid token", stack)
    else if err.code == Some("LIMIT_FILE_SIZE") then ErrorResponse(413, "File too large", stack)
    else if Truthy(err.errorMessage) then ErrorResponse(400, err.errorMessage.value, stack)
    else ErrorResponse(StatusOr500(err.status), OrElse(err.message, "Internal server error"), stack)
  }

  /** `errorHandler(err, req, res, next)`: a default outcome overwritten by each matching rule in turn,
      so the last matching rule decides. */
  method HandleError(err: JsError, nodeEnv: Option<string>) returns (response: ErrorResponse)
    ensures response == Respond(err, nodeEnv)
  {
    var message := OrElse(err.message, "Internal server error");
    var status := StatusOr500(err.status);
    var stack: Option<string> := None;
    if Truthy(err.errorMessage) {
      message := err.errorMessage.value;
      status := 400;
    }
    if err.code == Some("LIMIT_FILE_SIZE") {
      message := "File too large";
      status := 413;
    }
    if err.name == Some("JsonWebTokenError") {
      message := "Invalid token";
      status := 401;
    }
    if Development(nodeEnv) {
      stack := err.stack;
    }
    response := ErrorResponse(status, message, stack);
  }

  /** Errors thrown by the service's own code or its libraries that carry none of the recognised
      fields become a 500 with their own message; in production no stack is exposed. */
  lemma PlainErrorIs500(name: string, message: string, nodeEnv: Option<string>)
    requires name != "JsonWebTokenError" && message != ""
    requires !Development(nodeEnv)
    ensures Respond(PlainError(name, message), nodeEnv) == ErrorResponse(500, message, None)
  {
  }
}
