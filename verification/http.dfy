/** The slice of `net/http` the handlers touch, and the two helpers every handler
    shares: `readIDParam` and `writeJSON`. Header keys are assumed to be in canonical
    form already; Go's key canonicalisation is not part of this model. */
module Http {
  import opened Wrappers
  import opened Decimal
  import opened Data

  /** `http.Header`: each key holds a list of values. */
  type Header = map<string, seq<string>>

  /** `Header.Get`: the first value, or the empty string. */
  function HeaderGet(h: Header, key: string): string {
    if key in h && |h[key]| > 0 then h[key][0] else ""
  }

  /** `Header.Set`: replaces every value of `key`. */
  function HeaderSet(h: Header, key: string, value: string): (h': Header)
    ensures HeaderGet(h', key) == value
    ensures h'.Keys == h.Keys + {key}
    ensures forall k :: k in h && k != key ==> h'[k] == h[k]
  {
    h[key := [value]]
  }

  /** `Header.Add`: appends a value, keeping the earlier ones. */
  function HeaderAdd(h: Header, key: string, value: string): (h': Header)
    ensures h'.Keys == h.Keys + {key}
    ensures h'[key] == (if key in h then h[key] else []) + [value]
    ensures forall k :: k in h && k != key ==> h'[k] == h[k]
  {
    h[key := (if key in h then h[key] else []) + [value]]
  }

  datatype Request = Request(verb: string, url: string, header: Header)

  /** The values the handlers serialise. A map literal with one key (`envelope`) is
      `JEnvelope`; how each is rendered as text is left to the encoder. */
  datatype Json =
    | JString(text: string)
    | JFieldErrors(errors: FieldErrors)
    | JEnvelope(key: string, value: Json)
    | JMovie(movie: Movie)
    | JUser(user: User)
    | JToken(token: Token)

  /** `json.MarshalIndent`, which may fail. */
  type Encoder = Json -> Result<string, DataError>

  /** One line of the application's error log: the error and the request it broke. */
  datatype LogEntry = LogEntry(cause: DataError, verb: string, url: string)

  /** A response under construction, together with the error log it may append to. */
  datatype Exchange = Exchange(header: Header, status: Option<int>, body: string, log: seq<LogEntry>)

  const ContentType: string := "Content-Type"
  const ApplicationJson: string := "application/json"

  /** `ResponseWriter.WriteHeader`: only the first status sticks. */
  function WriteHeader(x: Exchange, status: int): (x': Exchange)
    ensures x'.status == Some(if x.status.Some? then x.status.value else status)
    ensures x'.header == x.header && x'.body == x.body && x'.log == x.log
  {
    if x.status.Some? then x else x.(status := Some(status))
  }

  /** `writeJSON`. An encoding failure is returned before anything is written.
      Otherwise every caller header replaces the key it names, Content-Type is forced
      to `application/json`, the status goes out, and the body is the encoding plus
      one newline. */
  function WriteJSON(x: Exchange, status: int, data: Json, headers: Header, encode: Encoder)
    : (r: (Exchange, Option<DataError>))
    ensures encode(data).Failure? ==> r == (x, Some(encode(data).error))
    ensures encode(data).Success? ==> r.1 == None
    ensures encode(data).Success? ==> r.0.body == x.body + encode(data).value + "\n"
    ensures encode(data).Success? ==> r.0.status == WriteHeader(x, status).status
    ensures encode(data).Success? ==> ContentType in r.0.header && r.0.header[ContentType] == [ApplicationJson]
    ensures encode(data).Success? ==>
      r.0.header.Keys == x.header.Keys + headers.Keys + {ContentType}
    ensures encode(data).Success? ==>
      forall k :: k in headers && k != ContentType ==> r.0.header[k] == headers[k]
    ensures encode(data).Success? ==>
      forall k :: k in x.header && k !in headers && k != ContentType ==> r.0.header[k] == x.header[k]
    ensures r.0.log == x.log
  {
    match encode(data)
    case Failure(e) => (x, Some(e))
    case Success(js) =>
      var body := js + "\n";
      var merged := x.header + headers;
      var x1 := x.(header := merged[ContentType := [ApplicationJson]]);
      var x2 := WriteHeader(x1, status);
      (x2.(body := x2.body + body), None)
  }

  const InvalidIdMessage: string := "invalid id parameter"

  /** `readIDParam`: the route's `id` as a base-10 `int64` that is at least 1. */
  function ReadIDParam(param: string): (r: Result<int, string>)
    ensures r.Success? <==> ParseInt(param, Bits64).Some? && ParseInt(param, Bits64).value >= 1
    ensures r.Success? ==> Some(r.value) == ParseInt(param, Bits64) && 1 <= r.value <= MaxInt64
    ensures r.Failure? ==> r.error == InvalidIdMessage
  {
    match ParseInt(param, Bits64)
    case None => Failure(InvalidIdMessage)
    case Some(id) => if id < 1 then Failure(InvalidIdMessage) else Success(id)
  }

  /** Every positive `int64` written with `%d` reads back as itself; zero and
      negatives never do. */
  lemma ReadIDParamRoundTrip(n: int)
    requires n <= MaxInt64
    ensures n >= 1 ==> ReadIDParam(FormatInt(n)) == Success(n)
    ensures n < 1 ==> ReadIDParam(FormatInt(n)).Failure?
  {
    if n >= MinInt64 {
      FormatParseRoundTrip(n, Bits64);
    }
  }
}
