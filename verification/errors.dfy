/** The error responses: each helper is an `ErrorKind`, mapped to a fixed status and
    message, sent as `{"error": message}` through `writeJSON`. */
module Errors {
  import opened Wrappers
  import opened Data
  import opened Http

  datatype ErrorKind =
    | BadRequest(reason: string)
    | ServerError(cause: DataError)
    | NotFound
    | MethodNotAllowed
    | FailedValidation(errors: FieldErrors)
    | EditConflict
    | RateLimitExceeded
    | InvalidCredentials
    | InvalidAuthenticationToken
    | AuthenticationRequired
    | InactiveAccount
    | NotPermitted

  /** A row of the table: the status and the message put under `"error"`. */
  datatype Entry = Entry(status: int, message: Json)

  /** The rows of the three helpers whose bodies are not part of this model
      (`authenticationRequiredResponse`, `inactiveAccountResponse`,
      `notPermittedResponse`); they are supplied by the caller. */
  datatype UnshownTable = UnshownTable(authenticationRequired: Entry, inactiveAccount: Entry, notPermitted: Entry)

  const ServerErrorMessage: string := "the server encountered a problem and could not process your request"
  const NotFoundMessage: string := "the requested resource could not be found"
  const EditConflictMessage: string := "unable to update the record due to an edit conflict, please try again"
  const RateLimitMessage: string := "rate limit exceeded"
  const InvalidCredentialsMessage: string := "invalid authentication credentials"
  const InvalidTokenMessage: string := "invalid or missing authentication token"
  const Challenge: string := "WWW-Authenticate"

  function MethodNotAllowedMessage(verb: string): string {
    "the " + verb + " method is not supported for this resource"
  }

  function Table(k: ErrorKind, req: Request, unshown: UnshownTable): Entry {
    match k
    case BadRequest(reason) => Entry(400, JString(reason))
    case ServerError(_) => Entry(500, JString(ServerErrorMessage))
    case NotFound => Entry(404, JString(NotFoundMessage))
    case MethodNotAllowed => Entry(405, JString(MethodNotAllowedMessage(req.verb)))
    case FailedValidation(errors) => Entry(422, JFieldErrors(errors))
    case EditConflict => Entry(409, JString(EditConflictMessage))
    case RateLimitExceeded => Entry(429, JString(RateLimitMessage))
    case InvalidCredentials => Entry(401, JString(InvalidCredentialsMessage))
    case InvalidAuthenticationToken => Entry(401, JString(InvalidTokenMessage))
    case AuthenticationRequired => unshown.authenticationRequired
    case InactiveAccount => unshown.inactiveAccount
    case NotPermitted => unshown.notPermitted
  }

  /** `logError`: records the error with the request's method and URL. */
  function LogError(x: Exchange, req: Request, cause: DataError): (x': Exchange)
    ensures x'.log == x.log + [LogEntry(cause, req.verb, req.url)]
    ensures x'.header == x.header && x'.status == x.status && x'.body == x.body
  {
    x.(log := x.log + [LogEntry(cause, req.verb, req.url)])
  }

  /** `errorResponse`: the message goes out under the single key `"error"`; when it
      cannot be written, the failure is logged and a bare 500 is sent instead. */
  function ErrorResponse(x: Exchange, req: Request, status: int, message: Json, encode: Encoder)
    : (x': Exchange)
    ensures encode(JEnvelope("error", message)).Success? ==>
      x' == WriteJSON(x, status, JEnvelope("error", message), map[], encode).0
    ensures encode(JEnvelope("error", message)).Failure? ==>
      && x'.status == WriteHeader(x, 500).status
      && x'.header == x.header && x'.body == x.body
      && x'.log == x.log + [LogEntry(encode(JEnvelope("error", message)).error, req.verb, req.url)]
  {
    var (x1, err) := WriteJSON(x, status, JEnvelope("error", message), map[], encode);
    match err
    case None => x1
    case Some(e) => WriteHeader(LogError(x1, req, e), 500)
  }

  /** Every `*Response` helper: server errors are logged first, the invalid-token
      helper sets the `WWW-Authenticate: Bearer` challenge, then the row's status and
      message are sent. */
  function Respond(x: Exchange, req: Request, k: ErrorKind, encode: Encoder, unshown: UnshownTable)
    : (x': Exchange)
    ensures x.status.None? ==>
      x'.status == Some(if encode(JEnvelope("error", Table(k, req, unshown).message)).Success?
                        then Table(k, req, unshown).status else 500)
    ensures k.ServerError? ==>
      |x'.log| > |x.log| && x'.log[|x.log|] == LogEntry(k.cause, req.verb, req.url)
    ensures !k.ServerError? && encode(JEnvelope("error", Table(k, req, unshown).message)).Success? ==>
      x'.log == x.log
    ensures k == InvalidAuthenticationToken ==> HeaderGet(x'.header, Challenge) == "Bearer"
    ensures k != InvalidAuthenticationToken ==>
      (Challenge in x'.header <==> Challenge in x.header)
      && (Challenge in x.header ==> x'.header[Challenge] == x.header[Challenge])
    ensures encode(JEnvelope("error", Table(k, req, unshown).message)).Success? ==>
      x'.body == x.body + encode(JEnvelope("error", Table(k, req, unshown).message)).value + "\n"
  {
    var entry := Table(k, req, unshown);
    var x1 := if k.ServerError? then LogError(x, req, k.cause) else x;
    var x2 := if k == InvalidAuthenticationToken then x1.(header := HeaderSet(x1.header, Challenge, "Bearer")) else x1;
    ErrorResponse(x2, req, entry.status, entry.message, encode)
  }

  /** A server error's response never depends on the error: only the log differs. */
  lemma ServerErrorHidesCause(x: Exchange, req: Request, c1: DataError, c2: DataError,
                              encode: Encoder, unshown: UnshownTable)
    ensures Respond(x, req, ServerError(c1), encode, unshown).status
         == Respond(x, req, ServerError(c2), encode, unshown).status
    ensures Respond(x, req, ServerError(c1), encode, unshown).header
         == Respond(x, req, ServerError(c2), encode, unshown).header
    ensures Respond(x, req, ServerError(c1), encode, unshown).body
         == Respond(x, req, ServerError(c2), encode, unshown).body
  {
  }

  /** Both credential failures answer 401, but only a bad token carries the challenge. */
  lemma TokenAndCredentialFailuresDiffer(x: Exchange, req: Request, encode: Encoder, unshown: UnshownTable)
    requires x.status.None? && Challenge !in x.header
    requires encode(JEnvelope("error", JString(InvalidTokenMessage))).Success?
    requires encode(JEnvelope("error", JString(InvalidCredentialsMessage))).Success?
    ensures Respond(x, req, InvalidAuthenticationToken, encode, unshown).status == Some(401)
    ensures Respond(x, req, InvalidCredentials, encode, unshown).status == Some(401)
    ensures HeaderGet(Respond(x, req, InvalidAuthenticationToken, encode, unshown).header, Challenge) == "Bearer"
    ensures Challenge !in Respond(x, req, InvalidCredentials, encode, unshown).header
  {
  }

  /** The shown rows of the table, on a response nothing has been written to yet. */
  lemma StatusTable(x: Exchange, req: Request, k: ErrorKind, encode: Encoder, unshown: UnshownTable)
    requires x.status.None?
    requires encode(JEnvelope("error", Table(k, req, unshown).message)).Success?
    ensures k.BadRequest? ==> Respond(x, req, k, encode, unshown).status == Some(400)
    ensures k.ServerError? ==> Respond(x, req, k, encode, unshown).status == Some(500)
    ensures k == NotFound ==> Respond(x, req, k, encode, unshown).status == Some(404)
    ensures k == MethodNotAllowed ==> Respond(x, req, k, encode, unshown).status == Some(405)
    ensures k.FailedValidation? ==> Respond(x, req, k, encode, unshown).status == Some(422)
    ensures k == EditConflict ==> Respond(x, req, k, encode, unshown).status == Some(409)
    ensures k == RateLimitExceeded ==> Respond(x, req, k, encode, unshown).status == Some(429)
  {
  }
}
