/** The client of the personal backend (utils/api.ts): how each public call
    composes its `fetch` request (URL, method, headers, body) and how a
    settled `fetch` becomes the call's result or the message of the error it
    throws. `fetch` itself is not modelled: what it sends is returned as a
    `FetchCall` record, and how it settles is an input. */
module Api {

  import opened Common
  import opened Numbers

  /** The base URL the shared client is built with. */
  const API_BASE_URL := "http://localhost:4000"

  datatype User = User(id: string, username: string, email: string, activated: bool, created_at: string)

  datatype AuthToken = AuthToken(token: string, expiry: string)

  datatype LoginResponse = LoginResponse(authentication_token: AuthToken)

  datatype RegisterResponse = RegisterResponse(user: User)

  /** The denormalised catalogue snapshot sent with a list entry (the
      backend's AnimeData without its `id`). */
  datatype AnimeSnapshot = AnimeSnapshot(
    title: string, synopsis: string, cover_image_url: string, total_episodes: int,
    status: string, release_date: string, rating: string, score: real,
    genres: seq<string>, studios: seq<string>, broadcast_information: string)

  datatype SaveAnimeRequest = SaveAnimeRequest(
    user_id: string, anime_id: int, status: string,
    current_episode: Option<int>, score: Option<int>,
    started_watching_date: Option<string>, finished_watching_date: Option<string>,
    anime: AnimeSnapshot)

  /** A headers object: its own properties in insertion order. */
  type Headers = seq<(string, string)>

  /** The value of property `name`, from its first occurrence. */
  function Lookup(hs: Headers, name: string): (r: Option<string>)
    ensures r.Some? ==> exists i :: 0 <= i < |hs| && hs[i] == (name, r.value)
    ensures r.None? ==> forall i :: 0 <= i < |hs| ==> hs[i].0 != name
  {
    if hs == [] then None
    else if hs[0].0 == name then Some(hs[0].1)
    else Lookup(hs[1..], name)
  }

  /** An object literal never repeats a property name. */
  ghost predicate UniqueNames(hs: Headers)
  {
    forall i, j :: 0 <= i < j < |hs| ==> hs[i].0 != hs[j].0
  }

  /** Property assignment as a spread performs it: an existing property
      keeps its place and takes the new value, a new one goes last. */
  function Assign(hs: Headers, name: string, value: string): (r: Headers)
    ensures Lookup(r, name) == Some(value)
    ensures forall other :: other != name ==> Lookup(r, other) == Lookup(hs, other)
    ensures |r| == if Lookup(hs, name).Some? then |hs| else |hs| + 1
    ensures forall i :: 0 <= i < |hs| ==> r[i].0 == hs[i].0
  {
    if hs == [] then [(name, value)]
    else if hs[0].0 == name then [(name, value)] + hs[1..]
    else [hs[0]] + Assign(hs[1..], name, value)
  }

  /** `{...base, ...extra}`: the properties of `extra` assigned, in order,
      over those of `base`. */
  function Spread(base: Headers, extra: Headers): (r: Headers)
    ensures |r| >= |base|
    ensures forall i :: 0 <= i < |base| ==> r[i].0 == base[i].0
    decreases |extra|
  {
    if extra == [] then base
    else Spread(Assign(base, extra[0].0, extra[0].1), extra[1..])
  }

  /** In a spread the later object wins every clash, and a name neither
      object has stays absent. */
  lemma {:induction false} SpreadLookup(base: Headers, extra: Headers, name: string)
    requires UniqueNames(extra)
    ensures Lookup(Spread(base, extra), name) ==
            if Lookup(extra, name).Some? then Lookup(extra, name) else Lookup(base, name)
    decreases |extra|
  {
    if extra != [] {
      var (k, v) := extra[0];
      var rest := extra[1..];
      assert UniqueNames(rest) by {
        forall i, j | 0 <= i < j < |rest| ensures rest[i].0 != rest[j].0 {
          assert rest[i] == extra[i + 1] && rest[j] == extra[j + 1];
        }
      }
      SpreadLookup(Assign(base, k, v), rest, name);
      if name == k {
        assert Lookup(rest, k).None? by {
          forall i | 0 <= i < |rest| ensures rest[i].0 != k {
            assert rest[i] == extra[i + 1];
          }
        }
      }
    }
  }

  const CONTENT_TYPE := "Content-Type"
  const JSON_MEDIA_TYPE := "application/json"

  /** The headers `request` sends: `Content-Type: application/json` first,
      then the caller's headers spread over it. */
  function RequestHeaders(callerHeaders: Headers): (r: Headers)
    requires UniqueNames(callerHeaders)
    ensures |r| > 0 && r[0].0 == CONTENT_TYPE
    ensures Lookup(r, CONTENT_TYPE) ==
            if Lookup(callerHeaders, CONTENT_TYPE).Some? then Lookup(callerHeaders, CONTENT_TYPE)
            else Some(JSON_MEDIA_TYPE)
    ensures forall name :: name != CONTENT_TYPE ==> Lookup(r, name) == Lookup(callerHeaders, name)
  {
    var r := Spread([(CONTENT_TYPE, JSON_MEDIA_TYPE)], callerHeaders);
    SpreadLookup([(CONTENT_TYPE, JSON_MEDIA_TYPE)], callerHeaders, CONTENT_TYPE);
    forall name | name != CONTENT_TYPE
      ensures Lookup(r, name) == Lookup(callerHeaders, name)
    {
      SpreadLookup([(CONTENT_TYPE, JSON_MEDIA_TYPE)], callerHeaders, name);
    }
    r
  }

  /** The JSON bodies the client sends (JSON.stringify of each is taken to
      be lossless, so the structured value stands for the text). */
  datatype Body =
    | RegisterBody(username: string, email: string, password: string)
    | LoginBody(email: string, password: string)
    | SaveBody(request: SaveAnimeRequest)

  /** The `options` argument of `request`. */
  datatype RequestInit = RequestInit(httpMethod: Option<string>, headers: Headers, body: Option<Body>)

  /** What `fetch` is called with. */
  datatype FetchCall = FetchCall(url: string, httpMethod: Option<string>, headers: Headers, body: Option<Body>)

  /** The result of `response.json()`: a parse failure, or a value seen
      both as the expected payload and through its `error?.message` path. */
  datatype ResponseJson<T> = Unparseable(reason: string) | Parsed(value: T, errorMessage: Option<string>)

  datatype HttpResponse<T> = HttpResponse(status: nat, json: ResponseJson<T>)
  {
    /** `response.ok`: the status is in the range 200 to 299. */
    predicate Ok()
    {
      200 <= status <= 299
    }
  }

  /** How the awaited `fetch` settles: it rejects (the network could not be
      reached) or it yields a response. */
  datatype FetchResult<T> = NetworkFailure(message: string) | Responded(response: HttpResponse<T>)

  const FALLBACK_ERROR_MESSAGE := "An error occurred"

  /** The message of the error thrown for a response that is not ok: the
      body's `error.message` when it is a non-empty string, `HTTP <status>`
      when the body parsed without one, and the substituted "An error
      occurred" when the body did not parse. */
  function ErrorMessage<T>(response: HttpResponse<T>): (m: string)
    ensures m != ""
    ensures response.json.Unparseable? ==> m == FALLBACK_ERROR_MESSAGE
    ensures response.json.Parsed? && Truthy(response.json.errorMessage) ==>
              m == response.json.errorMessage.value
    ensures response.json.Parsed? && !Truthy(response.json.errorMessage) ==>
              m == "HTTP " + IntToString(response.status)
  {
    match response.json
    case Unparseable(_) => FALLBACK_ERROR_MESSAGE
    case Parsed(_, message) =>
      if Truthy(message) then message.value else "HTTP " + IntToString(response.status)
  }

  /** When the body named no message, the status can be read back from the
      thrown message. */
  lemma HttpStatusReadBack<T>(response: HttpResponse<T>)
    requires response.json.Parsed? && !Truthy(response.json.errorMessage)
    ensures ErrorMessage(response)[..5] == "HTTP "
    ensures ParseInt(ErrorMessage(response)[5..]) == Int(response.status)
  {
    var m := ErrorMessage(response);
    assert m[5..] == IntToString(response.status);
    ParseIntOfToString(response.status);
  }

  /** What awaiting `request` gives its caller: the parsed body of an ok
      response, or an error carrying the message above (a rejected `fetch`
      or a failed parse of an ok body rethrows its own error). */
  function Settle<T>(fetched: FetchResult<T>): (r: Outcome<T>)
    ensures fetched.NetworkFailure? ==> r == Err(fetched.message)
    ensures fetched.Responded? && !fetched.response.Ok() ==>
              r == Err(ErrorMessage(fetched.response)) && r.message != ""
    ensures r.Ok? <==> fetched.Responded? && fetched.response.Ok() && fetched.response.json.Parsed?
    ensures r.Ok? ==> r.value == fetched.response.json.value
  {
    match fetched
    case NetworkFailure(message) => Err(message)
    case Responded(response) =>
      if !response.Ok() then Err(ErrorMessage(response))
      else match response.json
        case Parsed(value, _) => Ok(value)
        case Unparseable(reason) => Err(reason)
  }

  function Bearer(token: string): Headers
  {
    [("Authorization", "Bearer " + token)]
  }

  /** The client holds one field, written once by its constructor. */
  datatype ApiClient = ApiClient(baseUrl: string)
  {
    /** The `fetch` call `request(endpoint, options)` makes: the URL is the
        base URL and the endpoint joined with no separator, method and body
        are passed through, and the headers are merged as RequestHeaders
        says. */
    function Compose(endpoint: string, options: RequestInit): (call: FetchCall)
      requires UniqueNames(options.headers)
      ensures |call.url| == |baseUrl| + |endpoint|
      ensures call.url[..|baseUrl|] == baseUrl && call.url[|baseUrl|..] == endpoint
      ensures call.httpMethod == options.httpMethod && call.body == options.body
      ensures call.headers == RequestHeaders(options.headers)
    {
      FetchCall(baseUrl + endpoint, options.httpMethod, RequestHeaders(options.headers), options.body)
    }

    function RegisterUserCall(username: string, email: string, password: string): FetchCall
    {
      Compose("/v1/users", RequestInit(Some("POST"), [], Some(RegisterBody(username, email, password))))
    }

    function LoginUserCall(email: string, password: string): FetchCall
    {
      Compose("/v1/tokens/authentication", RequestInit(Some("POST"), [], Some(LoginBody(email, password))))
    }

    function SaveAnimeToListCall(token: string, userId: string, animeData: SaveAnimeRequest): FetchCall
    {
      Compose("/v1/user_anime_list", RequestInit(Some("POST"), Bearer(token), Some(SaveBody(animeData))))
    }

    function GetUserAnimeListCall(token: string, userId: string): FetchCall
    {
      Compose("/v1/user_anime_list?user_id=" + userId, RequestInit(Some("GET"), Bearer(token), None))
    }

    function GetUserProfileCall(token: string): FetchCall
    {
      Compose("/v1/users/me", RequestInit(Some("GET"), Bearer(token), None))
    }
  }

  /** `apiClient`: the one client the application shares. */
  const SHARED_CLIENT := ApiClient(API_BASE_URL)

  /** The shared client reaches the backend on localhost port 4000; login,
      for one, posts to this exact address. */
  lemma SharedClientAddress(email: string, password: string)
    ensures SHARED_CLIENT.LoginUserCall(email, password).url == "http://localhost:4000/v1/tokens/authentication"
  {
  }

  /** The three calls made on a user's behalf send `Authorization: Bearer
      <token>` after the JSON content type. */
  lemma AuthenticatedCallsSendBearer(client: ApiClient, token: string, userId: string, animeData: SaveAnimeRequest)
    ensures forall call :: call in [client.SaveAnimeToListCall(token, userId, animeData),
                                    client.GetUserAnimeListCall(token, userId),
                                    client.GetUserProfileCall(token)] ==>
              && call.headers[0] == (CONTENT_TYPE, JSON_MEDIA_TYPE)
              && Lookup(call.headers, "Authorization") == Some("Bearer " + token)
              && Lookup(call.headers, CONTENT_TYPE) == Some(JSON_MEDIA_TYPE)
  {
    assert |CONTENT_TYPE| != |"Authorization"|;
    assert Assign([(CONTENT_TYPE, JSON_MEDIA_TYPE)], "Authorization", "Bearer " + token)
        == [(CONTENT_TYPE, JSON_MEDIA_TYPE), ("Authorization", "Bearer " + token)];
  }

  /** Registration and login send no Authorization header, only the JSON
      content type. */
  lemma AnonymousCallsSendNoAuthorization(client: ApiClient, username: string, email: string, password: string)
    ensures client.RegisterUserCall(username, email, password).headers == [(CONTENT_TYPE, JSON_MEDIA_TYPE)]
    ensures client.LoginUserCall(email, password).headers == [(CONTENT_TYPE, JSON_MEDIA_TYPE)]
    ensures Lookup(client.RegisterUserCall(username, email, password).headers, "Authorization") == None
    ensures Lookup(client.LoginUserCall(email, password).headers, "Authorization") == None
  {
    assert RequestHeaders([]) == [(CONTENT_TYPE, JSON_MEDIA_TYPE)];
  }

  /** Endpoints, methods and bodies of the five calls. */
  lemma CallTargets(client: ApiClient, token: string, userId: string, username: string,
                    email: string, password: string, animeData: SaveAnimeRequest)
    ensures client.RegisterUserCall(username, email, password).url == client.baseUrl + "/v1/users"
    ensures client.RegisterUserCall(username, email, password).httpMethod == Some("POST")
    ensures client.RegisterUserCall(username, email, password).body == Some(RegisterBody(username, email, password))
    ensures client.LoginUserCall(email, password).url == client.baseUrl + "/v1/tokens/authentication"
    ensures client.LoginUserCall(email, password).httpMethod == Some("POST")
    ensures client.LoginUserCall(email, password).body == Some(LoginBody(email, password))
    ensures client.SaveAnimeToListCall(token, userId, animeData).url == client.baseUrl + "/v1/user_anime_list"
    ensures client.SaveAnimeToListCall(token, userId, animeData).httpMethod == Some("POST")
    ensures client.SaveAnimeToListCall(token, userId, animeData).body == Some(SaveBody(animeData))
    ensures client.GetUserAnimeListCall(token, userId).httpMethod == Some("GET")
    ensures client.GetUserAnimeListCall(token, userId).body == None
    ensures client.GetUserProfileCall(token).url == client.baseUrl + "/v1/users/me"
    ensures client.GetUserProfileCall(token).httpMethod == Some("GET")
    ensures client.GetUserProfileCall(token).body == None
  {
  }

  /** The list query carries the user id verbatim: the URL ends in exactly
      `userId`, with no percent-encoding. */
  lemma AnimeListQueryIsVerbatim(client: ApiClient, token: string, userId: string)
    ensures var url := client.GetUserAnimeListCall(token, userId).url;
            var prefix := client.baseUrl + "/v1/user_anime_list?user_id=";
            |url| == |prefix| + |userId| && url[..|prefix|] == prefix && url[|prefix|..] == userId
  {
  }

  /** `saveAnimeToList` never uses its `userId` argument: the user id goes
      only inside the request object. */
  lemma SaveIgnoresUserIdArgument(client: ApiClient, token: string, userId1: string, userId2: string,
                                  animeData: SaveAnimeRequest)
    ensures client.SaveAnimeToListCall(token, userId1, animeData) ==
            client.SaveAnimeToListCall(token, userId2, animeData)
  {
  }
}
