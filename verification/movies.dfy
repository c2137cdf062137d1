/** The movie handlers as outcome functions over the request body (already decoded,
    or the decoder's error), the route's `id` text, the validator and the store. */
module Movies {
  import opened Wrappers
  import opened Decimal
  import opened RuntimeCodec
  import opened Data
  import opened Http
  import opened Errors
  import opened Store
  import opened Outcomes

  /** The body of a create request. */
  datatype MovieInput = MovieInput(title: string, year: Int32, runtime: Runtime, genres: seq<string>)

  /** The body of an update request: an absent (or JSON `null`) field is `None`; an
      empty genre list that is present is `Some([])`. */
  datatype MoviePatch = MoviePatch(
    title: Option<string>,
    year: Option<Int32>,
    runtime: Option<Runtime>,
    genres: Option<seq<string>>)

  const MoviesPath: string := "/v1/movies/"
  const Location: string := "Location"
  const DeletedMessage: string := "movie successfully deleted"

  function Or<T>(o: Option<T>, fallback: T): T {
    match o
    case Some(v) => v
    case None => fallback
  }

  /** The partial update: a present field overwrites, an absent one keeps the stored
      value; identity and version are never touched by the merge. */
  function Merge(m: Movie, patch: MoviePatch): (r: Movie)
    ensures r.id == m.id && r.version == m.version
    ensures patch.title.None? ==> r.title == m.title
    ensures patch.title.Some? ==> r.title == patch.title.value
    ensures patch.year.None? ==> r.year == m.year
    ensures patch.year.Some? ==> r.year == patch.year.value
    ensures patch.runtime.None? ==> r.runtime == m.runtime
    ensures patch.runtime.Some? ==> r.runtime == patch.runtime.value
    ensures patch.genres.None? ==> r.genres == m.genres
    ensures patch.genres.Some? ==> r.genres == patch.genres.value
  {
    m.(title := Or(patch.title, m.title),
       year := Or(patch.year, m.year),
       runtime := Or(patch.runtime, m.runtime),
       genres := Or(patch.genres, m.genres))
  }

  /** Applying `p` then `q` is applying one patch in which `q`'s present fields win. */
  function Then(p: MoviePatch, q: MoviePatch): MoviePatch {
    MoviePatch(
      if q.title.Some? then q.title else p.title,
      if q.year.Some? then q.year else p.year,
      if q.runtime.Some? then q.runtime else p.runtime,
      if q.genres.Some? then q.genres else p.genres)
  }

  lemma MergeComposes(m: Movie, p: MoviePatch, q: MoviePatch)
    ensures Merge(Merge(m, p), q) == Merge(m, Then(p, q))
  {
  }

  /** An empty patch changes nothing, and applying the same patch twice is applying it once. */
  lemma MergeIdentityAndIdempotence(m: Movie, p: MoviePatch)
    ensures Merge(m, MoviePatch(None, None, None, None)) == m
    ensures Merge(Merge(m, p), p) == Merge(m, p)
  {
  }

  /** `createMovieHandler`. */
  function CreateMovieHandler(input: Result<MovieInput, string>, validators: Validators, models: Models): (o: Outcome)
    ensures input.Failure? ==> o == Outcome(Fail(BadRequest(input.error)), [])
    ensures input.Success? ==>
      var movie := Movie(0, input.value.title, input.value.year, input.value.runtime, input.value.genres, 0);
      if |validators.movie(movie)| != 0 then o == Outcome(Fail(FailedValidation(validators.movie(movie))), [])
      else
        && o.effects == [InsertMovie(movie)]
        && (models.insertMovie(movie).Failure? ==> o.reply == Fail(ServerError(models.insertMovie(movie).error)))
        && (models.insertMovie(movie).Success? ==>
              var stored := models.insertMovie(movie).value;
              o.reply == Send(201, JEnvelope("movie", JMovie(stored)),
                              map[Location := [MoviesPath + FormatInt(stored.id)]]))
  {
    match input
    case Failure(reason) => Outcome(Fail(BadRequest(reason)), [])
    case Success(body) =>
      var movie := Movie(0, body.title, body.year, body.runtime, body.genres, 0);
      var errors := validators.movie(movie);
      if |errors| != 0 then Outcome(Fail(FailedValidation(errors)), [])
      else
        var effects := [InsertMovie(movie)];
        match models.insertMovie(movie)
        case Failure(e) => Outcome(Fail(ServerError(e)), effects)
        case Success(stored) =>
          var headers: Header := map[Location := [MoviesPath + FormatInt(stored.id)]];
          Outcome(Send(201, JEnvelope("movie", JMovie(stored)), headers), effects)
  }

  /** Outcome of a failed `Movies.Get`, shared by show and update. */
  function GetFailure(e: DataError): ErrorKind {
    if e == ErrRecordNotFound then NotFound else ServerError(e)
  }

  /** `showMovieHandler`: a bad id is a 400 here. */
  function ShowMovieHandler(idParam: string, models: Models): (o: Outcome)
    ensures ReadIDParam(idParam).Failure? ==> o == Outcome(Fail(BadRequest(InvalidIdMessage)), [])
    ensures ReadIDParam(idParam).Success? ==>
      var id := ReadIDParam(idParam).value;
      && o.effects == [GetMovie(id)]
      && (models.getMovie(id) == Failure(ErrRecordNotFound) ==> o.reply == Fail(NotFound))
      && (models.getMovie(id).Failure? && models.getMovie(id).error != ErrRecordNotFound ==>
            o.reply == Fail(ServerError(models.getMovie(id).error)))
      && (models.getMovie(id).Success? ==>
            o.reply == Send(200, JEnvelope("movie", JMovie(models.getMovie(id).value)), map[]))
  {
    match ReadIDParam(idParam)
    case Failure(reason) => Outcome(Fail(BadRequest(reason)), [])
    case Success(id) =>
      match models.getMovie(id)
      case Failure(e) => Outcome(Fail(GetFailure(e)), [GetMovie(id)])
      case Success(movie) => Outcome(Send(200, JEnvelope("movie", JMovie(movie)), map[]), [GetMovie(id)])
  }

  /** `updateMovieHandler`: a bad id is a 404; the record is read before the body is
      looked at; the merged record is validated before any write; and every `Update`
      error, an edit conflict included, is a 500. */
  function UpdateMovieHandler(idParam: string, input: Result<MoviePatch, string>, validators: Validators, models: Models)
    : (o: Outcome)
    ensures ReadIDParam(idParam).Failure? ==> o == Outcome(Fail(NotFound), [])
    ensures ReadIDParam(idParam).Success? ==>
      var id := ReadIDParam(idParam).value;
      && |o.effects| >= 1 && o.effects[0] == GetMovie(id)
      && (models.getMovie(id) == Failure(ErrRecordNotFound) ==> o == Outcome(Fail(NotFound), [GetMovie(id)]))
      && (models.getMovie(id).Failure? && models.getMovie(id).error != ErrRecordNotFound ==>
            o == Outcome(Fail(ServerError(models.getMovie(id).error)), [GetMovie(id)]))
      && (models.getMovie(id).Success? && input.Failure? ==>
            o == Outcome(Fail(BadRequest(input.error)), [GetMovie(id)]))
      && (models.getMovie(id).Success? && input.Success? ==>
            var merged := Merge(models.getMovie(id).value, input.value);
            if |validators.movie(merged)| != 0 then
              o == Outcome(Fail(FailedValidation(validators.movie(merged))), [GetMovie(id)])
            else
              && o.effects == [GetMovie(id), UpdateMovie(merged)]
              && (models.updateMovie(merged).Failure? ==>
                    o.reply == Fail(ServerError(models.updateMovie(merged).error)))
              && (models.updateMovie(merged).Success? ==>
                    o.reply == Send(200, JEnvelope("movie", JMovie(models.updateMovie(merged).value)), map[])))
  {
    match ReadIDParam(idParam)
    case Failure(_) => Outcome(Fail(NotFound), [])
    case Success(id) =>
      var read := [GetMovie(id)];
      match models.getMovie(id)
      case Failure(e) => Outcome(Fail(GetFailure(e)), read)
      case Success(movie) =>
        match input
        case Failure(reason) => Outcome(Fail(BadRequest(reason)), read)
        case Success(patch) =>
          var merged := Merge(movie, patch);
          var errors := validators.movie(merged);
          if |errors| != 0 then Outcome(Fail(FailedValidation(errors)), read)
          else
            var effects := read + [UpdateMovie(merged)];
            match models.updateMovie(merged)
            case Failure(e) => Outcome(Fail(ServerError(e)), effects)
            case Success(updated) => Outcome(Send(200, JEnvelope("movie", JMovie(updated)), map[]), effects)
  }

  /** `deleteMovieHandler`: a bad id is a 404, and no version check is made. */
  function DeleteMovieHandler(idParam: string, models: Models): (o: Outcome)
    ensures ReadIDParam(idParam).Failure? ==> o == Outcome(Fail(NotFound), [])
    ensures ReadIDParam(idParam).Success? ==>
      var id := ReadIDParam(idParam).value;
      && o.effects == [DeleteMovie(id)]
      && (models.deleteMovie(id) == Failure(ErrRecordNotFound) ==> o.reply == Fail(NotFound))
      && (models.deleteMovie(id).Failure? && models.deleteMovie(id).error != ErrRecordNotFound ==>
            o.reply == Fail(ServerError(models.deleteMovie(id).error)))
      && (models.deleteMovie(id).Success? ==>
            o.reply == Send(200, JEnvelope("message", JString(DeletedMessage)), map[]))
  {
    match ReadIDParam(idParam)
    case Failure(_) => Outcome(Fail(NotFound), [])
    case Success(id) =>
      var effects := [DeleteMovie(id)];
      match models.deleteMovie(id)
      case Failure(e) => Outcome(Fail(if e == ErrRecordNotFound then NotFound else ServerError(e)), effects)
      case Success(_) => Outcome(Send(200, JEnvelope("message", JString(DeletedMessage)), map[]), effects)
  }

  /** The same malformed id is a 400 for show but a 404 for update and delete, and
      none of them reaches the store. */
  lemma InvalidIdStatusDiffers(idParam: string, input: Result<MoviePatch, string>,
                               validators: Validators, models: Models)
    requires ReadIDParam(idParam).Failure?
    ensures ShowMovieHandler(idParam, models).reply == Fail(BadRequest(InvalidIdMessage))
    ensures UpdateMovieHandler(idParam, input, validators, models).reply == Fail(NotFound)
    ensures DeleteMovieHandler(idParam, models).reply == Fail(NotFound)
    ensures ShowMovieHandler(idParam, models).effects == []
    ensures UpdateMovieHandler(idParam, input, validators, models).effects == []
    ensures DeleteMovieHandler(idParam, models).effects == []
  {
  }

  /** An update whose write reports an edit conflict is answered as a server error,
      never with the 409 edit-conflict response. */
  lemma UpdateConflictIsServerError(idParam: string, input: Result<MoviePatch, string>,
                                    validators: Validators, models: Models)
    requires ReadIDParam(idParam).Success?
    requires models.getMovie(ReadIDParam(idParam).value).Success? && input.Success?
    requires |validators.movie(Merge(models.getMovie(ReadIDParam(idParam).value).value, input.value))| == 0
    requires models.updateMovie(Merge(models.getMovie(ReadIDParam(idParam).value).value, input.value))
             == Failure(ErrEditConflict)
    ensures UpdateMovieHandler(idParam, input, validators, models).reply == Fail(ServerError(ErrEditConflict))
  {
  }

  /** The `Location` of a created movie is a path whose last segment, read back as a
      route id, names that same movie, so showing it looks up the stored id. */
  lemma LocationNamesCreatedMovie(input: Result<MovieInput, string>, validators: Validators, models: Models)
    requires CreateMovieHandler(input, validators, models).reply.Send?
    requires var m := models.insertMovie(Movie(0, input.value.title, input.value.year,
                                                 input.value.runtime, input.value.genres, 0));
             m.Success? && 1 <= m.value.id <= MaxInt64
    ensures var o := CreateMovieHandler(input, validators, models);
      var id := models.insertMovie(Movie(0, input.value.title, input.value.year,
                                         input.value.runtime, input.value.genres, 0)).value.id;
      && o.reply.status == 201
      && Location in o.reply.headers
      && o.reply.headers[Location] == [MoviesPath + FormatInt(id)]
      && ShowMovieHandler(FormatInt(id), models).effects == [GetMovie(id)]
  {
    var id := models.insertMovie(Movie(0, input.value.title, input.value.year,
                                       input.value.runtime, input.value.genres, 0)).value.id;
    ReadIDParamRoundTrip(id);
  }

  /** A created movie's response carries its `Location` and the JSON content type,
      with status 201 on a fresh response. */
  lemma CreatedResponseNamesMovie(input: Result<MovieInput, string>, validators: Validators, models: Models,
                                  x: Exchange, req: Request, encode: Encoder, unshown: UnshownTable)
    requires CreateMovieHandler(input, validators, models).reply.Send?
    requires encode(CreateMovieHandler(input, validators, models).reply.data).Success?
    requires x.status.None?
    ensures var stored := models.insertMovie(Movie(0, input.value.title, input.value.year,
                                                   input.value.runtime, input.value.genres, 0)).value;
      var x' := Render(x, req, CreateMovieHandler(input, validators, models).reply, encode, unshown);
      && x'.status == Some(201)
      && Location in x'.header && x'.header[Location] == [MoviesPath + FormatInt(stored.id)]
      && ContentType in x'.header && x'.header[ContentType] == [ApplicationJson]
  {
  }
}
