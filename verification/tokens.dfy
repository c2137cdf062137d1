/** Login: exchanging an e-mail and password for an authentication token. */
module Tokens {
  import opened Wrappers
  import opened Data
  import opened Http
  import opened Errors
  import opened Store
  import opened Outcomes

  datatype Credentials = Credentials(email: string, password: string)

  /** Both validators write into one validator; the e-mail check runs first, so its
      message is the one kept for a key both report. */
  function CredentialErrors(c: Credentials, validators: Validators): FieldErrors {
    validators.passwordPlaintext(c.password) + validators.email(c.email)
  }

  /** `createAuthenticationTokenHandler`: input is validated before any store call;
      an unknown e-mail and a wrong password get the same 401; a lookup failure other
      than not-found, or a failing password comparison, is a 500; a 24-hour
      authentication token is minted only after the password matched. */
  function CreateAuthenticationTokenHandler(input: Result<Credentials, string>, validators: Validators,
                                            passwords: Passwords, models: Models): (o: Outcome)
    ensures input.Failure? ==> o == Outcome(Fail(BadRequest(input.error)), [])
    ensures input.Success? && |CredentialErrors(input.value, validators)| != 0 ==>
      o == Outcome(Fail(FailedValidation(CredentialErrors(input.value, validators))), [])
    ensures input.Success? && |CredentialErrors(input.value, validators)| == 0 ==>
      var lookup := GetUserByEmail(input.value.email);
      var found := models.getUserByEmail(input.value.email);
      && |o.effects| >= 1 && o.effects[0] == lookup
      && (found == Failure(ErrRecordNotFound) ==> o == Outcome(Fail(InvalidCredentials), [lookup]))
      && (found.Failure? && found.error != ErrRecordNotFound ==> o == Outcome(Fail(ServerError(found.error)), [lookup]))
      && (found.Success? ==>
            var check := passwords.matches(found.value, input.value.password);
            && (check.Failure? ==> o == Outcome(Fail(ServerError(check.error)), [lookup]))
            && (check == Success(false) ==> o == Outcome(Fail(InvalidCredentials), [lookup]))
            && (check == Success(true) ==>
                  var mint := models.newToken(found.value.id, AuthenticationTTL, Authentication);
                  && o.effects == [lookup, NewToken(found.value.id, AuthenticationTTL, Authentication)]
                  && (mint.Failure? ==> o.reply == Fail(ServerError(mint.error)))
                  && (mint.Success? ==> o.reply == Send(201, JEnvelope("authentication_token", JToken(mint.value)), map[]))))
  {
    match input
    case Failure(reason) => Outcome(Fail(BadRequest(reason)), [])
    case Success(c) =>
      var errors := CredentialErrors(c, validators);
      if |errors| != 0 then Outcome(Fail(FailedValidation(errors)), [])
      else
        var lookup := [GetUserByEmail(c.email)];
        match models.getUserByEmail(c.email)
        case Failure(ErrRecordNotFound) => Outcome(Fail(InvalidCredentials), lookup)
        case Failure(e) => Outcome(Fail(ServerError(e)), lookup)
        case Success(user) =>
          match passwords.matches(user, c.password)
          case Failure(e) => Outcome(Fail(ServerError(e)), lookup)
          case Success(false) => Outcome(Fail(InvalidCredentials), lookup)
          case Success(true) =>
            var effects := lookup + [NewToken(user.id, AuthenticationTTL, Authentication)];
            match models.newToken(user.id, AuthenticationTTL, Authentication)
            case Failure(e) => Outcome(Fail(ServerError(e)), effects)
            case Success(token) =>
              Outcome(Send(201, JEnvelope("authentication_token", JToken(token)), map[]), effects)
  }

  /** An unknown e-mail and a wrong password for a known one are indistinguishable to
      the caller: the same reply, hence the same response. */
  lemma UnknownEmailLooksLikeWrongPassword(c: Credentials, validators: Validators,
                                           passwords: Passwords, unknown: Models, known: Models)
    requires |CredentialErrors(c, validators)| == 0
    requires unknown.getUserByEmail(c.email) == Failure(ErrRecordNotFound)
    requires known.getUserByEmail(c.email).Success?
    requires passwords.matches(known.getUserByEmail(c.email).value, c.password) == Success(false)
    ensures CreateAuthenticationTokenHandler(Success(c), validators, passwords, unknown).reply
         == CreateAuthenticationTokenHandler(Success(c), validators, passwords, known).reply
         == Fail(InvalidCredentials)
  {
  }

  /** A token is minted only for the user whose password matched. */
  lemma TokenOnlyForMatchingPassword(c: Credentials, validators: Validators, passwords: Passwords,
                                     models: Models, i: nat)
    requires var effects := CreateAuthenticationTokenHandler(Success(c), validators, passwords, models).effects;
             i < |effects| && effects[i].NewToken?
    ensures var user := models.getUserByEmail(c.email).value;
      && models.getUserByEmail(c.email).Success?
      && passwords.matches(user, c.password) == Success(true)
      && CreateAuthenticationTokenHandler(Success(c), validators, passwords, models).effects[i]
         == NewToken(user.id, AuthenticationTTL, Authentication)
  {
  }
}
