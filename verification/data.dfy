/** The records the handlers pass around. Their storage, hashing and validation rules
    live in code that is not part of this model; only the fields the handlers read or
    write are kept. */
module Data {
  import opened Decimal
  import opened RuntimeCodec

  /** The purpose a token was minted for. */
  datatype Scope = Activation | Authentication

  /** The store's sentinel errors, and every other failure as an opaque fault. */
  datatype DataError =
    | ErrRecordNotFound
    | ErrEditConflict
    | ErrDuplicateEmail
    | Fault(message: string)

  datatype Movie = Movie(
    id: int,
    title: string,
    year: Int32,
    runtime: Runtime,
    genres: seq<string>,
    version: int)

  datatype User = User(
    id: int,
    name: string,
    email: string,
    passwordHash: string,
    activated: bool,
    version: int)

  /** Who a request acts as: the one anonymous sentinel, or a stored user. */
  datatype Principal = Anonymous | Authenticated(user: User)

  /** The id the permission lookup is asked about; the anonymous sentinel is an empty
      user record, whose id is zero. */
  function PrincipalId(p: Principal): int {
    match p
    case Anonymous => 0
    case Authenticated(u) => u.id
  }

  /** A freshly issued token: the plaintext handed to the client once, its owner, its
      lifetime and its purpose. */
  datatype Token = Token(plaintext: string, userId: int, ttl: int, scope: Scope)

  /** A validator's verdict: field name to message; valid iff empty. */
  type FieldErrors = map<string, string>

  /** Durations are counted in nanoseconds, like Go's `time.Duration`. */
  const Second: int := 1_000_000_000
  const Minute: int := 60 * Second
  const Hour: int := 60 * Minute

  const ActivationTTL: int := 3 * 24 * Hour
  const AuthenticationTTL: int := 24 * Hour
}
