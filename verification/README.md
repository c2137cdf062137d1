# greenlight request core, modelled in Dafny

This project models the decision logic of the greenlight movie API, a Go JSON service.
It covers four things:

- the `Runtime` JSON codec (`"<n> mins"`);
- the middleware that authenticates bearer tokens, gates routes on activation and
  permissions, throttles per client address and answers CORS preflights;
- the movie, user-registration, activation and login handlers;
- the error-response table and the two shared helpers, `readIDParam` and `writeJSON`.

Each handler and middleware is a pure function. Its inputs are the decoded request body
(or the decoder's error), the route's `id` text and the request headers. The SQL models,
the token issuer, bcrypt and the field validators are function parameters. A handler
returns an `Outcome`, which holds:

- a `Reply`: forward the request, fail with an `ErrorKind`, or send a JSON document;
- the ordered list of store calls it made, with their arguments (`Effect`).

The effect list is how the model states ordering facts such as "no lookup happens before
the format check", "no insert happens after a validation failure" and "tokens are not
deleted after a failed write". `Errors.Respond` and `Outcomes.Render` turn a reply into
a response: status, headers, body and error-log lines.

Modules, in dependency order:

- `Wrappers`: `Option`, `Result`.
- `Text`: `strings.Split` with a one-character separator, and its inverse `Join`.
- `Decimal`: `%d` and `strconv.ParseInt(s, 10, 32|64)`.
- `Quoting`: `strconv.Quote` and `Unquote`.
- `RuntimeCodec`: the `Runtime` codec.
- `Data`: entities, scopes, store errors and durations.
- `Store`: collaborator parameters and `Effect`.
- `Http`: headers, the response writer, `writeJSON` and `readIDParam`.
- `Errors`: the error-kind table and `errorResponse`.
- `Outcomes`: `Reply`, `Outcome` and `Render`.
- `Middleware`: `authenticate`, the authorization chain and CORS.
- `RateLimit`: the per-IP registry.
- `Movies`, `Users`, `Tokens`: the handlers.

Three places where the code is at odds with itself or with a standard are modelled as
written:

- With the limiter disabled, `rateLimit` neither forwards nor rejects
  (cmd/api/middleware.go:66-94). A switch named `limiter.enabled` evidently turns
  limiting off, not the service. See Findings.
- `updateMovieHandler` maps every `Update` error to a 500, with no edit-conflict branch
  (cmd/api/movies.go:140-144). `activateUserHandler` maps `ErrEditConflict` from its
  own update to the 409 edit-conflict response (cmd/api/users.go:124-128).
  `Movies.UpdateConflictIsServerError` states the movie behaviour as written.
- The bearer scheme match is case-sensitive (`Bearer` only). Section 2.1 of RFC 6750
  allows any case.

## Model

| member | source | states |
|---|---|---|
| Text.Split | internal/data/runtime.go:28 | `strings.Split` on one character: at least one piece, no piece contains the separator, and joining the pieces with the separator gives back the input |
| Text.SplitUnique | internal/data/runtime.go:28 | the split is the only separator-free decomposition that joins back to the input |
| Decimal.FormatInt | internal/data/runtime.go:15 | `%d` output is non-empty, made of digits with a leading `-` exactly for negatives (so it contains no space), and has no leading zero unless it is `0` |
| Decimal.ParseInt | internal/data/runtime.go:34 | accepted iff the text is an optional `+` or `-` followed by at least one decimal digit (leading zeros allowed) and its signed value fits the bit size; the result is that signed value |
| Decimal.FormatParseRoundTrip | internal/data/runtime.go:14-37 | every value that fits the bit size parses back from its `%d` text |
| Quoting.Quote | internal/data/runtime.go:16 | the literal is enclosed in double quotes; text with no character needing an escape is only wrapped |
| Quoting.Unquote | internal/data/runtime.go:22-25 | only double- or back-quoted literals with a matching closing quote are accepted; a double-quoted literal containing a raw newline is refused |
| Quoting.QuoteRoundTrip | internal/data/runtime.go:16-22 | `Unquote(Quote(s)) == Some(s)` for every string |
| RuntimeCodec.MarshalJSON | internal/data/runtime.go:14-18 | marshalling never fails and yields `"<n> mins"` in double quotes |
| RuntimeCodec.SplitMins | internal/data/runtime.go:28-32 | splitting gives exactly `[n, "mins"]` iff the text is `n + " mins"` with no space in `n`, and then the first part is `n` |
| RuntimeCodec.UnmarshalJSON | internal/data/runtime.go:20-43 | success iff the input unquotes to a space-free base-10 int32 numeral followed by `" mins"`, with the parsed value as the result; every failure returns the one sentinel and leaves the receiver unchanged |
| RuntimeCodec.RoundTrip | internal/data/runtime.go:14-39 | unmarshalling the marshalled form of any int32, negatives included, succeeds with that value, whatever the receiver held |
| RuntimeCodec.RejectsDoubleSpace | internal/data/runtime.go:28-32 | `"107  mins"` is refused and the receiver kept |
| RuntimeCodec.RejectsLongUnit | internal/data/runtime.go:28-32 | `"107 minutes"` is refused and the receiver kept |
| RuntimeCodec.RejectsBareNumber | internal/data/runtime.go:22-25 | an unquoted JSON number is refused |
| RuntimeCodec.RejectsOverflow | internal/data/runtime.go:34-37 | a numeral beyond the int32 range is refused |
| RuntimeCodec.AcceptsPlusAndZeros | internal/data/runtime.go:34-39 | `"+007 mins"` decodes to 7, although marshalling never writes that spelling |
| RuntimeCodec.AcceptsRawLiteral | internal/data/runtime.go:22-39 | a back-quoted literal is unquoted too and decodes |
| Http.ReadIDParam | cmd/api/helpers.go:14-22 | success iff the text parses as a base-10 int64 that is at least 1, and then the result is that value; every failure carries `invalid id parameter` |
| Http.ReadIDParamRoundTrip | cmd/api/helpers.go:17-21 | every positive int64 written with `%d` reads back as itself; zero and negatives are refused |
| Http.WriteJSON | cmd/api/helpers.go:25-41 | an encoding failure is returned with nothing written; otherwise each caller header replaces its key, other keys stay, Content-Type is forced to `application/json` even when supplied, the first status sticks, and the body is the encoding plus one newline |
| Errors.LogError | cmd/api/errors.go:8-13 | appends one log entry with the error, the request method and the URL, and changes nothing in the response |
| Errors.ErrorResponse | cmd/api/errors.go:15-22 | the message is sent under the single key `error`; if it cannot be encoded, the failure is logged and status 500 is written |
| Errors.Respond | cmd/api/errors.go:24-70 | on a fresh response the kind's status is sent, or 500 if the message cannot be encoded; a server error logs its cause first, and other kinds log nothing when the message encodes; only the invalid-token helper sets `WWW-Authenticate: Bearer`, and every other kind leaves that header as it was; the body is the encoded `{"error": message}` plus a newline |
| Errors.ServerErrorHidesCause | cmd/api/errors.go:28-34 | two server errors with different causes produce the same status, headers and body |
| Errors.TokenAndCredentialFailuresDiffer | cmd/api/errors.go:61-70 | both credential failures are 401, but only the invalid-token response carries the challenge header |
| Errors.StatusTable | cmd/api/errors.go:24-59 | bad request 400, server error 500, not found 404, method not allowed 405, failed validation 422, edit conflict 409, rate limit 429 |
| Outcomes.Render | cmd/api/movies.go:146-150 | a sent document goes out with the handler's status (unless one was already written), its encoding as the body, no log entry, and the handler's headers merged key by key over the response's with Content-Type forced to `application/json`; a document that cannot be encoded is logged and answered 500, as after every handler's final `writeJSON`; a forwarded request writes nothing |
| Middleware.SplitBearer | cmd/api/middleware.go:113-117 | splitting on single spaces gives `["Bearer", t]` iff the header is `"Bearer "` followed by a space-free `t` |
| Middleware.Authenticate | cmd/api/middleware.go:99-143 | empty header: anonymous and forwarded with no lookup; malformed header or badly formed token: invalid-token 401 with no lookup; otherwise exactly one authentication-scope lookup, where not found gives 401, other errors 500, and a found user is attached and forwarded; `Vary: Authorization` is added on every path |
| Middleware.RequireAuthenticatedUser | cmd/api/middleware.go:146-155 | anonymous gives authentication-required with no store call; anyone else reaches the wrapped handler |
| Middleware.RequireActivatedUser | cmd/api/middleware.go:157-178 | anonymous, then not activated (inactive-account); an activated user reaches the wrapped handler |
| Middleware.RequirePermission | cmd/api/middleware.go:180-203 | strict order: anonymous, not activated, failed permission lookup (500), code missing (not permitted); no permission lookup unless activated; the wrapped handler runs after the one lookup |
| Middleware.PermissionGateAllowsExactly | cmd/api/middleware.go:180-203 | the wrapped handler is reached iff the principal is an activated user whose permission lookup succeeds and includes the code |
| Middleware.EnableCORS | cmd/api/middleware.go:206-237 | both `Vary` values are always added; Allow-Origin is set to the origin iff it is non-empty and equals a trusted origin; a trusted OPTIONS request with a requested method gets 200 and the allow-methods and allow-headers headers and is not forwarded; every other request is forwarded with those two headers as they were; no other header key is added and no other value changes |
| RateLimit.Sweep | cmd/api/middleware.go:54-58 | keeps exactly the entries seen within the last 3 minutes, each unchanged |
| RateLimit.Touch | cmd/api/middleware.go:78-84 | the address is added if absent and no other entry changes; `lastSeen` becomes now; an existing limiter is advanced by `Allow` at the current time, never replaced |
| RateLimit.AdmitAsWritten | cmd/api/middleware.go:64-96 | disabled: registry untouched, and the request is neither forwarded nor answered; enabled: forwarded iff `Allow` grants, otherwise 429 |
| RateLimit.Admit | cmd/api/middleware.go:64-96 | corrected limiter: disabled forwards every request with the registry untouched; enabled behaves as written |
| RateLimit.RefusalIsTooManyRequests | cmd/api/middleware.go:84-88 | a request the enabled limiter refuses becomes the rate-limit failure, which a fresh response sends as 429 with the `rate limit exceeded` envelope |
| RateLimit.DisabledLimiterForwardsNothing | cmd/api/middleware.go:66-94 | with limiting off, the code as written forwards no request, while the corrected limiter forwards it |
| RateLimit.ExistingLimiterKept | cmd/api/middleware.go:78-80 | a known client's limiter is the one it had, advanced by one `Allow` |
| RateLimit.AdmittedSurvivesSweep | cmd/api/middleware.go:55 | a client admitted at time t survives every sweep up to t + 3 minutes |
| RateLimit.SweepIdempotent | cmd/api/middleware.go:54-58 | a second sweep at the same instant removes nothing more |
| RateLimit.SweepMonotone | cmd/api/middleware.go:54-58 | a later sweep keeps a subset of what an earlier one keeps |
| RateLimit.StaleClientStartsFresh | cmd/api/middleware.go:54-80 | an entry idle past 3 minutes is swept, and the client's next request starts from a new limiter |
| Movies.Merge | cmd/api/movies.go:117-131 | each present field overwrites and each absent field keeps its stored value (a present empty genre list overwrites); id and version are untouched |
| Movies.MergeComposes | cmd/api/movies.go:117-131 | two patches in a row equal one patch in which the later present fields win |
| Movies.MergeIdentityAndIdempotence | cmd/api/movies.go:117-131 | an all-absent patch changes nothing, and applying a patch twice equals applying it once |
| Movies.CreateMovieHandler | cmd/api/movies.go:12-55 | bad body 400; a validation failure gives 422 with no insert; insert errors give 500; success gives 201 with `Location: /v1/movies/<id>` |
| Movies.LocationNamesCreatedMovie | cmd/api/movies.go:47-50 | the Location's id segment reads back as the stored id, so showing it looks up that movie |
| Movies.CreatedResponseNamesMovie | cmd/api/movies.go:47-50 | the rendered 201 response carries `Location: /v1/movies/<stored id>` and the JSON content type |
| Movies.ShowMovieHandler | cmd/api/movies.go:57-82 | bad id 400 with no lookup; not found 404, other Get errors 500, otherwise 200 with the movie |
| Movies.UpdateMovieHandler | cmd/api/movies.go:84-152 | bad id 404; the record is read before the body is examined; Get not found 404 and other errors 500; bad body 400; the merged record is validated (422, no write) before the single `Update` of the merged record; every `Update` error 500; otherwise 200 with the stored record |
| Movies.DeleteMovieHandler | cmd/api/movies.go:154-179 | bad id 404 with no store call; not found 404; other errors 500; success 200 with the fixed message |
| Movies.InvalidIdStatusDiffers | cmd/api/movies.go:59-159 | the same malformed id is a 400 for show but a 404 for update and delete, and none of them calls the store |
| Movies.UpdateConflictIsServerError | cmd/api/movies.go:140-144 | an edit conflict from `Update` is answered as a server error, not with 409 |
| Users.RegisterUserHandler | cmd/api/users.go:12-84 | no user is ever inserted activated; hashing precedes validation; a validation failure gives 422 with no insert; a duplicate e-mail gives 422 with an `email` field error and no token; a 3-day activation token is minted only after a successful insert; success gives 201 |
| Users.TokenOnlyAfterInsert | cmd/api/users.go:46-65 | a minted token is always the second store call, follows an accepted insert, and is for that user's id with activation scope and a 3-day lifetime |
| Users.ActivateUserHandler | cmd/api/users.go:86-146 | a badly formed token gives 422 with no lookup; activation-scope not found gives 422 with a `token` field error; the write-back changes only `activated`; an edit conflict gives 409 and other write errors 500, with no token deletion either way; after the write all activation tokens of the user are deleted, where failure gives 500 and success 200 |
| Users.ActivationSuccessImpliesPurge | cmd/api/users.go:122-141 | a 200 from activation means the lookup succeeded, the user was written back activated, and that user's activation tokens were deleted, in that order |
| Tokens.CreateAuthenticationTokenHandler | cmd/api/tokens.go:12-71 | validation failure gives 422 with no store call; unknown e-mail gives 401; other lookup errors and comparison errors give 500; a wrong password gives 401; a 24-hour authentication token is minted only after a match; issue failure gives 500 and success 201 |
| Tokens.UnknownEmailLooksLikeWrongPassword | cmd/api/tokens.go:39-57 | an unknown e-mail and a wrong password give the identical invalid-credentials reply |
| Tokens.TokenOnlyForMatchingPassword | cmd/api/tokens.go:55-60 | any minted token belongs to the user found by e-mail whose password matched, with authentication scope and a 24-hour lifetime |

## Findings

| source | as written | input that shows it | evidently intended | confidence | as-written member | corrected member |
|---|---|---|---|---|---|---|
| cmd/api/middleware.go:66-94 | `next.ServeHTTP` sits inside `if app.config.limiter.enabled`, so a disabled limiter neither forwards nor rejects. The client receives an empty 200. | limiter disabled, any request | with limiting off, every request is passed on | high; not executed | RateLimit.AdmitAsWritten | RateLimit.Admit |

`RateLimit.DisabledLimiterForwardsNothing` proves both halves. With limiting off,
`AdmitAsWritten` never yields `Forwarded`, while `Admit` always does.

## Left out

- `recoverPanic`, `metrics`, the sweeper goroutine, `time.Sleep` and the mutex are
  concurrency and instrumentation plumbing. The sweep is modelled as a pure function of
  the registry and the time.
- `golang.org/x/time/rate` token-bucket arithmetic is a foreign library that uses
  floating point. `Allow` is an abstract step on an opaque limiter state and the
  current time, so refills over time are possible but not described.
- `realip.FromRequest` is foreign client-identity extraction. The address is an input.
- `healthcheckHandler` only writes output.
- The background welcome e-mail in `registerUserHandler` is a goroutine plus SMTP.
- `readJSON` and `json.MarshalIndent` are library code. A decoded body (or the
  decoder's error text) is an input, and encoding is an `Encoder` parameter that may fail.
- The store methods (`Movies.*`, `Users.*`, `Tokens.*`, `Permissions.GetAllForUser`),
  their SQL optimistic-concurrency check, `Password.Set`/`Matches` and the validators
  (`ValidateMovie`, `ValidateUser`, `ValidateTokenPlaintext`, `ValidateEmail`,
  `ValidatePasswordPlainText`) are not part of this model. They are function parameters.
  `Permissions.Include` is modelled as list membership.
- `authenticationRequiredResponse`, `inactiveAccountResponse` and `notPermittedResponse`
  are not part of this model. They are distinct error kinds whose status and message are
  supplied by an `UnshownTable` parameter.
- Header-key canonicalisation (`textproto.CanonicalMIMEHeaderKey`) is left out. All keys
  in the model are already canonical.
- Quoting.Quote: non-printable characters other than the seven one-letter escapes are
  copied unchanged, where Go writes `\x`, `\u` or `\U` escapes. The runtime text never
  contains such characters.
- Quoting.Unquote: numeric escapes (`\x`, `\u`, `\U`, octal) and single-quoted rune
  literals are refused, where Go accepts them. A single-quoted literal unquotes to at
  most one character, which never splits into two parts, so `UnmarshalJSON` refuses it
  either way. Go also rejects invalid UTF-8, which cannot occur in a Dafny string.
  As a consequence, `RuntimeCodec.UnmarshalJSON` refuses valid JSON such as
  `"\u0037 mins"`, which Go decodes to 7.
- Integer widths: `Runtime` and `year` are `int32` subset types, and route ids are
  checked against the `int64` range. Ids and versions assigned by the store are
  unbounded integers.
- Tokens.CredentialErrors: the two login validators write into one validator. Their
  messages are merged with the e-mail check's message kept for a shared key. This
  assumes `AddError` keeps the first message, which the validator code (not part of
  this model) decides.
