/** Registration and activation as outcome functions. The welcome e-mail sent in the
    background after registration is not part of this model. */
module Users {
  import opened Wrappers
  import opened Data
  import opened Http
  import opened Errors
  import opened Store
  import opened Outcomes

  datatype RegisterInput = RegisterInput(name: string, email: string, password: string)

  const DuplicateEmailMessage: string := "a user with this email address already exists"
  const InvalidActivationMessage: string := "invalid or expired activation token"

  /** No user is ever inserted already activated. */
  predicate InsertsOnlyInactive(effects: seq<Effect>) {
    forall i :: 0 <= i < |effects| && effects[i].InsertUser? ==> !effects[i].user.activated
  }

  /** `registerUserHandler`: the password is hashed before validation; the user is
      inserted unactivated; a duplicate e-mail is reported as a field error on
      `email` with no token minted; an activation token (3 days) is minted only after
      the insert succeeded. */
  function RegisterUserHandler(input: Result<RegisterInput, string>, passwords: Passwords,
                               validators: Validators, models: Models): (o: Outcome)
    ensures InsertsOnlyInactive(o.effects)
    ensures input.Failure? ==> o == Outcome(Fail(BadRequest(input.error)), [])
    ensures input.Success? && passwords.hash(input.value.password).Failure? ==>
      o == Outcome(Fail(ServerError(passwords.hash(input.value.password).error)), [])
    ensures input.Success? && passwords.hash(input.value.password).Success? ==>
      var user := User(0, input.value.name, input.value.email, passwords.hash(input.value.password).value, false, 0);
      if |validators.user(user, input.value.password)| != 0 then
        o == Outcome(Fail(FailedValidation(validators.user(user, input.value.password))), [])
      else
        && |o.effects| >= 1 && o.effects[0] == InsertUser(user)
        && (models.insertUser(user) == Failure(ErrDuplicateEmail) ==>
              o == Outcome(Fail(FailedValidation(map["email" := DuplicateEmailMessage])), [InsertUser(user)]))
        && (models.insertUser(user).Failure? && models.insertUser(user).error != ErrDuplicateEmail ==>
              o == Outcome(Fail(ServerError(models.insertUser(user).error)), [InsertUser(user)]))
        && (models.insertUser(user).Success? ==>
              var stored := models.insertUser(user).value;
              var mint := NewToken(stored.id, ActivationTTL, Activation);
              && o.effects == [InsertUser(user), mint]
              && (models.newToken(stored.id, ActivationTTL, Activation).Failure? ==>
                    o.reply == Fail(ServerError(models.newToken(stored.id, ActivationTTL, Activation).error)))
              && (models.newToken(stored.id, ActivationTTL, Activation).Success? ==>
                    o.reply == Send(201, JEnvelope("user", JUser(stored)), map[])))
  {
    match input
    case Failure(reason) => Outcome(Fail(BadRequest(reason)), [])
    case Success(body) =>
      match passwords.hash(body.password)
      case Failure(e) => Outcome(Fail(ServerError(e)), [])
      case Success(hash) =>
        var user := User(0, body.name, body.email, hash, false, 0);
        var errors := validators.user(user, body.password);
        if |errors| != 0 then Outcome(Fail(FailedValidation(errors)), [])
        else
          var inserted := [InsertUser(user)];
          match models.insertUser(user)
          case Failure(ErrDuplicateEmail) =>
            Outcome(Fail(FailedValidation(map["email" := DuplicateEmailMessage])), inserted)
          case Failure(e) => Outcome(Fail(ServerError(e)), inserted)
          case Success(stored) =>
            var effects := inserted + [NewToken(stored.id, ActivationTTL, Activation)];
            match models.newToken(stored.id, ActivationTTL, Activation)
            case Failure(e) => Outcome(Fail(ServerError(e)), effects)
            case Success(_) => Outcome(Send(201, JEnvelope("user", JUser(stored)), map[]), effects)
  }

  /** A token is minted only for a user the store has just accepted, and always for
      activation with a three-day lifetime. */
  lemma TokenOnlyAfterInsert(input: Result<RegisterInput, string>, passwords: Passwords,
                             validators: Validators, models: Models, i: nat)
    requires var effects := RegisterUserHandler(input, passwords, validators, models).effects;
             i < |effects| && effects[i].NewToken?
    ensures var effects := RegisterUserHandler(input, passwords, validators, models).effects;
      && i == 1 && effects[0].InsertUser?
      && models.insertUser(effects[0].user).Success?
      && effects[1] == NewToken(models.insertUser(effects[0].user).value.id, ActivationTTL, Activation)
  {
  }

  /** `activateUserHandler`: a malformed token is rejected before any lookup; a token
      not found in the activation scope is a field error on `token`; the user is
      written back with only `activated` changed; an edit conflict is a 409, any other
      write error a 500, and in both cases no token is deleted; after a successful
      write every activation token of the user is deleted before the 200. */
  function ActivateUserHandler(input: Result<string, string>, validators: Validators, models: Models)
    : (o: Outcome)
    ensures input.Failure? ==> o == Outcome(Fail(BadRequest(input.error)), [])
    ensures input.Success? && |validators.tokenPlaintext(input.value)| != 0 ==>
      o == Outcome(Fail(FailedValidation(validators.tokenPlaintext(input.value))), [])
    ensures input.Success? && |validators.tokenPlaintext(input.value)| == 0 ==>
      var lookup := GetUserForToken(Activation, input.value);
      var found := models.getUserForToken(Activation, input.value);
      && |o.effects| >= 1 && o.effects[0] == lookup
      && (found == Failure(ErrRecordNotFound) ==>
            o == Outcome(Fail(FailedValidation(map["token" := InvalidActivationMessage])), [lookup]))
      && (found.Failure? && found.error != ErrRecordNotFound ==>
            o == Outcome(Fail(ServerError(found.error)), [lookup]))
      && (found.Success? ==>
            var activated := found.value.(activated := true);
            && |o.effects| >= 2 && o.effects[1] == UpdateUser(activated)
            && (models.updateUser(activated) == Failure(ErrEditConflict) ==>
                  o == Outcome(Fail(EditConflict), [lookup, UpdateUser(activated)]))
            && (models.updateUser(activated).Failure? && models.updateUser(activated).error != ErrEditConflict ==>
                  o == Outcome(Fail(ServerError(models.updateUser(activated).error)), [lookup, UpdateUser(activated)]))
            && (models.updateUser(activated).Success? ==>
                  var purge := DeleteAllTokensForUser(Activation, found.value.id);
                  && o.effects == [lookup, UpdateUser(activated), purge]
                  && (models.deleteAllTokensForUser(Activation, found.value.id).Failure? ==>
                        o.reply == Fail(ServerError(models.deleteAllTokensForUser(Activation, found.value.id).error)))
                  && (models.deleteAllTokensForUser(Activation, found.value.id).Success? ==>
                        o.reply == Send(200, JEnvelope("user", JUser(models.updateUser(activated).value)), map[]))))
  {
    match input
    case Failure(reason) => Outcome(Fail(BadRequest(reason)), [])
    case Success(plaintext) =>
      var errors := validators.tokenPlaintext(plaintext);
      if |errors| != 0 then Outcome(Fail(FailedValidation(errors)), [])
      else
        var lookup := [GetUserForToken(Activation, plaintext)];
        match models.getUserForToken(Activation, plaintext)
        case Failure(ErrRecordNotFound) =>
          Outcome(Fail(FailedValidation(map["token" := InvalidActivationMessage])), lookup)
        case Failure(e) => Outcome(Fail(ServerError(e)), lookup)
        case Success(user) =>
          var activated := user.(activated := true);
          var written := lookup + [UpdateUser(activated)];
          match models.updateUser(activated)
          case Failure(ErrEditConflict) => Outcome(Fail(EditConflict), written)
          case Failure(e) => Outcome(Fail(ServerError(e)), written)
          case Success(updated) =>
            var effects := written + [DeleteAllTokensForUser(Activation, activated.id)];
            match models.deleteAllTokensForUser(Activation, activated.id)
            case Failure(e) => Outcome(Fail(ServerError(e)), effects)
            case Success(_) => Outcome(Send(200, JEnvelope("user", JUser(updated)), map[]), effects)
  }

  /** Activation succeeds only after the user was written back activated and the
      user's activation tokens were deleted, in that order. */
  lemma ActivationSuccessImpliesPurge(input: Result<string, string>, validators: Validators, models: Models)
    requires ActivateUserHandler(input, validators, models).reply.Send?
    ensures var o := ActivateUserHandler(input, validators, models);
      var user := models.getUserForToken(Activation, input.value).value;
      && models.getUserForToken(Activation, input.value).Success?
      && o.effects == [GetUserForToken(Activation, input.value), UpdateUser(user.(activated := true)),
                       DeleteAllTokensForUser(Activation, user.id)]
      && o.effects[1].user.activated
      && o.reply.status == 200
  {
  }
}
