/** The request-pipeline middleware: bearer-token authentication, the authorization
    chain, and the CORS decision. The per-IP limiter is in `RateLimit`. */
module Middleware {
  import opened Wrappers
  import Text
  import opened Data
  import opened Http
  import opened Errors
  import opened Store
  import opened Outcomes

  const Authorization: string := "Authorization"
  const Vary: string := "Vary"

  /** The token of a `Bearer <token>` header, stated without `strings.Split`: the
      case-sensitive scheme, exactly one space, and no further space. */
  function BearerToken(header: string): Option<string> {
    if |header| >= 7 && header[..7] == "Bearer " && ' ' !in header[7..] then Some(header[7..])
    else None
  }

  /** Splitting on single spaces gives `["Bearer", t]` exactly when the header is a
      well-formed bearer credential with token `t`. */
  lemma SplitBearer(header: string)
    ensures (|Text.Split(header, ' ')| == 2 && Text.Split(header, ' ')[0] == "Bearer")
        <==> BearerToken(header).Some?
    ensures BearerToken(header).Some? ==> Text.Split(header, ' ')[1] == BearerToken(header).value
  {
    var parts := Text.Split(header, ' ');
    if |parts| == 2 && parts[0] == "Bearer" {
      Text.SplitPairInverse(header, ' ');
      assert header == "Bearer " + parts[1];
      assert header[7..] == parts[1];
    }
    if BearerToken(header).Some? {
      assert header == "Bearer" + [' '] + header[7..];
      Text.SplitPair("Bearer", header[7..], ' ');
    }
  }

  /** The result of a middleware step: the response headers it set, and its decision. */
  datatype Step = Step(header: Header, outcome: Outcome)

  /** `authenticate`. No header: the anonymous user, with no check and no lookup. A
      malformed header or a token of the wrong shape: the invalid-token 401, still
      with no lookup. Otherwise one lookup in the authentication scope: not found is
      the same 401, any other error a 500, and a user is attached and forwarded.
      `Vary: Authorization` is added on every path. */
  function Authenticate(req: Request, h: Header, models: Models, validators: Validators): (s: Step)
    ensures s.header == HeaderAdd(h, Vary, Authorization)
    ensures HeaderGet(req.header, Authorization) == "" ==>
      s.outcome == Outcome(Forward(Anonymous), [])
    ensures HeaderGet(req.header, Authorization) != "" && BearerToken(HeaderGet(req.header, Authorization)).None? ==>
      s.outcome == Outcome(Fail(InvalidAuthenticationToken), [])
    ensures HeaderGet(req.header, Authorization) != "" && BearerToken(HeaderGet(req.header, Authorization)).Some? ==>
      var token := BearerToken(HeaderGet(req.header, Authorization)).value;
      if |validators.tokenPlaintext(token)| != 0 then
        s.outcome == Outcome(Fail(InvalidAuthenticationToken), [])
      else
        && s.outcome.effects == [GetUserForToken(Authentication, token)]
        && (models.getUserForToken(Authentication, token) == Failure(ErrRecordNotFound) ==>
              s.outcome.reply == Fail(InvalidAuthenticationToken))
        && (models.getUserForToken(Authentication, token).Failure?
            && models.getUserForToken(Authentication, token).error != ErrRecordNotFound ==>
              s.outcome.reply == Fail(ServerError(models.getUserForToken(Authentication, token).error)))
        && (models.getUserForToken(Authentication, token).Success? ==>
              s.outcome.reply == Forward(Authenticated(models.getUserForToken(Authentication, token).value)))
  {
    var h1 := HeaderAdd(h, Vary, Authorization);
    var header := HeaderGet(req.header, Authorization);
    if header == "" then Step(h1, Outcome(Forward(Anonymous), []))
    else
      var parts := Text.Split(header, ' ');
      SplitBearer(header);
      if |parts| != 2 || parts[0] != "Bearer" then Step(h1, Outcome(Fail(InvalidAuthenticationToken), []))
      else
        var token := parts[1];
        if |validators.tokenPlaintext(token)| != 0 then Step(h1, Outcome(Fail(InvalidAuthenticationToken), []))
        else
          var lookup := [GetUserForToken(Authentication, token)];
          match models.getUserForToken(Authentication, token)
          case Failure(ErrRecordNotFound) => Step(h1, Outcome(Fail(InvalidAuthenticationToken), lookup))
          case Failure(e) => Step(h1, Outcome(Fail(ServerError(e)), lookup))
          case Success(user) => Step(h1, Outcome(Forward(Authenticated(user)), lookup))
  }

  /** The handler a wrapper guards, given the principal it runs as. */
  type Next = Principal -> Outcome

  /** `requireAuthenticatedUser`. */
  function RequireAuthenticatedUser(p: Principal, next: Next): (o: Outcome)
    ensures p.Anonymous? ==> o == Outcome(Fail(AuthenticationRequired), [])
    ensures p.Authenticated? ==> o == next(p)
  {
    if p.Anonymous? then Outcome(Fail(AuthenticationRequired), []) else next(p)
  }

  /** The inner check of `requireActivatedUser`, which `requireAuthenticatedUser` wraps. */
  function ActivatedCheck(next: Next, q: Principal): Outcome {
    if q.Anonymous? then Outcome(Fail(AuthenticationRequired), [])
    else if !q.user.activated then Outcome(Fail(InactiveAccount), [])
    else next(q)
  }

  /** `requireActivatedUser`. */
  function RequireActivatedUser(p: Principal, next: Next): (o: Outcome)
    ensures p.Anonymous? ==> o == Outcome(Fail(AuthenticationRequired), [])
    ensures p.Authenticated? && !p.user.activated ==> o == Outcome(Fail(InactiveAccount), [])
    ensures p.Authenticated? && p.user.activated ==> o == next(p)
  {
    RequireAuthenticatedUser(p, (q: Principal) => ActivatedCheck(next, q))
  }

  /** The inner check of `requirePermission`: one permission lookup for the user. */
  function PermissionCheck(code: string, models: Models, next: Next, q: Principal): Outcome {
    var lookup := [GetPermissionsForUser(PrincipalId(q))];
    match models.getPermissionsForUser(PrincipalId(q))
    case Failure(e) => Outcome(Fail(ServerError(e)), lookup)
    case Success(permissions) =>
      if code !in permissions then Outcome(Fail(NotPermitted), lookup)
      else Outcome(next(q).reply, lookup + next(q).effects)
  }

  /** `requirePermission`: anonymous, then not activated, then a failed permission
      lookup, then a missing code; each check runs only when every earlier one passed,
      and the permission store is consulted only for an activated user. */
  function RequirePermission(code: string, p: Principal, models: Models, next: Next): (o: Outcome)
    ensures p.Anonymous? ==> o == Outcome(Fail(AuthenticationRequired), [])
    ensures p.Authenticated? && !p.user.activated ==> o == Outcome(Fail(InactiveAccount), [])
    ensures p.Authenticated? && p.user.activated ==>
      var lookup := [GetPermissionsForUser(p.user.id)];
      match models.getPermissionsForUser(p.user.id)
      case Failure(e) => o == Outcome(Fail(ServerError(e)), lookup)
      case Success(permissions) =>
        (code !in permissions ==> o == Outcome(Fail(NotPermitted), lookup))
        && (code in permissions ==> o.reply == next(p).reply && o.effects == lookup + next(p).effects)
  {
    RequireActivatedUser(p, (q: Principal) => PermissionCheck(code, models, next, q))
  }

  /** The guarded handler runs exactly when the principal is an activated user whose
      permission lookup succeeds and includes the code. */
  lemma PermissionGateAllowsExactly(code: string, p: Principal, models: Models)
    ensures RequirePermission(code, p, models, (q: Principal) => Outcome(Forward(q), [])).reply == Forward(p)
        <==> && p.Authenticated? && p.user.activated
             && models.getPermissionsForUser(p.user.id).Success?
             && code in models.getPermissionsForUser(p.user.id).value
  {
  }

  const Origin: string := "Origin"
  const RequestMethod: string := "Access-Control-Request-Method"
  const AllowOrigin: string := "Access-Control-Allow-Origin"
  const AllowMethods: string := "Access-Control-Allow-Methods"
  const AllowHeaders: string := "Access-Control-Allow-Headers"
  const PreflightMethods: string := "OPTIONS, PUT, PATCH, DELETE"
  const PreflightHeaders: string := "Authorization, Content-Type"

  /** A preflight from a trusted origin: `OPTIONS` with a requested method. */
  predicate IsTrustedPreflight(req: Request, trusted: seq<string>) {
    && HeaderGet(req.header, Origin) != ""
    && HeaderGet(req.header, Origin) in trusted
    && req.verb == "OPTIONS"
    && HeaderGet(req.header, RequestMethod) != ""
  }

  /** `enableCORS`. Both `Vary` values are always added. The request's origin is echoed
      in `Access-Control-Allow-Origin` exactly when it is non-empty and equal to a
      trusted origin; a trusted preflight is answered 200 with the allowed methods and
      headers and goes no further; every other request is passed on. */
  method EnableCORS(req: Request, h: Header, trusted: seq<string>)
    returns (h': Header, status: Option<int>, forward: bool)
    ensures Vary in h' && h'[Vary] == (if Vary in h then h[Vary] else []) + [Origin, RequestMethod]
    ensures var origin := HeaderGet(req.header, Origin);
      if origin != "" && origin in trusted then AllowOrigin in h' && h'[AllowOrigin] == [origin]
      else (AllowOrigin in h' <==> AllowOrigin in h) && (AllowOrigin in h ==> h'[AllowOrigin] == h[AllowOrigin])
    ensures IsTrustedPreflight(req, trusted) ==>
      && !forward && status == Some(200)
      && HeaderGet(h', AllowMethods) == PreflightMethods
      && HeaderGet(h', AllowHeaders) == PreflightHeaders
    ensures !IsTrustedPreflight(req, trusted) ==> forward && status == None
    ensures !IsTrustedPreflight(req, trusted) ==>
      && (AllowMethods in h' <==> AllowMethods in h)
      && (AllowMethods in h ==> h'[AllowMethods] == h[AllowMethods])
      && (AllowHeaders in h' <==> AllowHeaders in h)
      && (AllowHeaders in h ==> h'[AllowHeaders] == h[AllowHeaders])
    ensures var origin := HeaderGet(req.header, Origin);
      h'.Keys == h.Keys + {Vary}
        + (if origin != "" && origin in trusted then {AllowOrigin} else {})
        + (if IsTrustedPreflight(req, trusted) then {AllowMethods, AllowHeaders} else {})
    ensures forall k :: k in h && k !in {Vary, AllowOrigin, AllowMethods, AllowHeaders} ==> h'[k] == h[k]
  {
    h' := HeaderAdd(h, Vary, Origin);
    h' := HeaderAdd(h', Vary, RequestMethod);
    status := None;
    forward := true;
    var origin := HeaderGet(req.header, Origin);
    if origin != "" {
      var i := 0;
      var found := false;
      while i < |trusted| && !found
        invariant 0 <= i <= |trusted|
        invariant found ==> origin in trusted
        invariant !found ==> origin !in trusted[..i]
        invariant !found ==> h' == HeaderAdd(HeaderAdd(h, Vary, Origin), Vary, RequestMethod)
        invariant found ==> h' == HeaderSet(HeaderAdd(HeaderAdd(h, Vary, Origin), Vary, RequestMethod), AllowOrigin, origin)
        invariant forward && status == None
        invariant found ==> !(req.verb == "OPTIONS" && HeaderGet(req.header, RequestMethod) != "")
        decreases |trusted| - i, if found then 0 else 1
      {
        if origin == trusted[i] {
          h' := HeaderSet(h', AllowOrigin, origin);
          if req.verb == "OPTIONS" && HeaderGet(req.header, RequestMethod) != "" {
            h' := HeaderSet(h', AllowMethods, PreflightMethods);
            h' := HeaderSet(h', AllowHeaders, PreflightHeaders);
            status := Some(200);
            forward := false;
            return;
          }
          found := true;
        } else {
          i := i + 1;
        }
      }
      if !found {
        assert trusted[..i] == trusted;
      }
    }
  }
}
