/** The collaborators the handlers call but whose code is not part of this model: the
    SQL-backed models, the token issuer, password hashing and the field validators.
    Each is a function parameter; `Effect` records which store calls a handler made,
    with their arguments, in order. */
module Store {
  import opened Wrappers
  import opened Data

  datatype Models = Models(
    getMovie: int -> Result<Movie, DataError>,
    insertMovie: Movie -> Result<Movie, DataError>,
    updateMovie: Movie -> Result<Movie, DataError>,
    deleteMovie: int -> Result<(), DataError>,
    insertUser: User -> Result<User, DataError>,
    getUserByEmail: string -> Result<User, DataError>,
    getUserForToken: (Scope, string) -> Result<User, DataError>,
    updateUser: User -> Result<User, DataError>,
    newToken: (int, int, Scope) -> Result<Token, DataError>,
    deleteAllTokensForUser: (Scope, int) -> Result<(), DataError>,
    getPermissionsForUser: int -> Result<seq<string>, DataError>)

  /** `Password.Set` (bcrypt hashing) and `Password.Matches`. */
  datatype Passwords = Passwords(
    hash: string -> Result<string, DataError>,
    matches: (User, string) -> Result<bool, DataError>)

  datatype Validators = Validators(
    movie: Movie -> FieldErrors,
    user: (User, string) -> FieldErrors,
    tokenPlaintext: string -> FieldErrors,
    email: string -> FieldErrors,
    passwordPlaintext: string -> FieldErrors)

  datatype Effect =
    | GetMovie(id: int)
    | InsertMovie(movie: Movie)
    | UpdateMovie(movie: Movie)
    | DeleteMovie(id: int)
    | InsertUser(user: User)
    | GetUserByEmail(email: string)
    | GetUserForToken(scope: Scope, plaintext: string)
    | UpdateUser(user: User)
    | NewToken(userId: int, ttl: int, scope: Scope)
    | DeleteAllTokensForUser(scope: Scope, userId: int)
    | GetPermissionsForUser(userId: int)
}
