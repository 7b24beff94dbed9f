/** The API client of app/_lib/apiService.js: how `apiFetch` shapes a request
    (auth-endpoint test, header merge, fixed credentials), how it turns a
    non-ok response into an `ApiError`, and the endpoints and URLs of the
    calls the rest of the core makes. `fetch` itself is not modelled: the
    response is a parameter. Request bodies are kept as JSON values;
    `JSON.stringify` is not modelled. */
module ApiService {
  import opened JsValues
  import opened JsStrings
  import QueryParams

  const DefaultBaseUrl := "https://flight-booking-system-backend-api.onrender.com/api/v1"

  /** `API_BASE_URL`: the configured base URL when it is set and non-empty, the default otherwise. */
  function BaseUrl(configured: Option<string>): (r: string)
    ensures configured.Some? && configured.value != "" ==> r == configured.value
    ensures configured.None? || configured.value == "" ==> r == DefaultBaseUrl
  {
    OptOrElse(configured, DefaultBaseUrl)
  }

  /** A JSON request body, before `JSON.stringify`. `JNumberOf(t)` is the
      number `Number(t)` gives; that conversion is not modelled. */
  datatype Json =
    | JString(s: string)
    | JNumber(n: int)
    | JNumberOf(text: string)
    | JObject(fields: seq<(string, Json)>)

  /** `body[key]`: the first field with that key. */
  function Field(body: Json, key: string): (r: Option<Json>)
    ensures r.Some? ==> body.JObject? && (key, r.value) in body.fields
    ensures r.None? <==> !body.JObject? || forall f :: f in body.fields ==> f.0 != key
  {
    if body.JObject? then FirstField(body.fields, key) else None
  }

  function FirstField(fields: seq<(string, Json)>, key: string): (r: Option<Json>)
    ensures r.Some? ==> (key, r.value) in fields
    ensures r.None? <==> forall f :: f in fields ==> f.0 != key
  {
    if fields == [] then None
    else if fields[0].0 == key then Some(fields[0].1)
    else FirstField(fields[1..], key)
  }

  type Headers = map<string, string>

  /** The options object a caller passes to `apiFetch` (`{}` when omitted). */
  datatype Options = Options(verb: Option<string>, body: Option<Json>, headers: Headers, credentials: Option<string>)

  const NoOptions := Options(None, None, map[], None)

  /** The configuration handed to `fetch`. */
  datatype Config = Config(verb: Option<string>, body: Option<Json>, headers: Headers, credentials: string)

  datatype Request = Request(url: string, config: Config)

  /** `getAuthToken()`: null outside a browser, else `localStorage.getItem("token")`. */
  function StoredToken(storage: map<string, string>, inBrowser: bool): (t: Option<string>)
    ensures t.Some? <==> inBrowser && "token" in storage
    ensures t.Some? ==> t.value == storage["token"]
  {
    if inBrowser && "token" in storage then Some(storage["token"]) else None
  }

  /** `isAuthEndpoint`: the endpoint contains "/login" or "/signup". */
  function IsAuthEndpoint(endpoint: string): bool
  {
    Contains(endpoint, "/login") || Contains(endpoint, "/signup")
  }

  /** A Bearer header is injected for a truthy token on a non-auth endpoint. */
  predicate SendsBearer(token: Option<string>, endpoint: string)
  {
    token.Some? && token.value != "" && !IsAuthEndpoint(endpoint)
  }

  /** The header object: defaults, then the Bearer header, then the caller's headers. */
  function MergeHeaders(token: Option<string>, endpoint: string, caller: Headers): (h: Headers)
    ensures h.Keys == {"Content-Type"} + (if SendsBearer(token, endpoint) then {"Authorization"} else {}) + caller.Keys
    ensures forall k :: k in caller ==> h[k] == caller[k]
    ensures "Content-Type" !in caller ==> h["Content-Type"] == "application/json"
    ensures "Authorization" !in caller ==> ("Authorization" in h <==> SendsBearer(token, endpoint))
    ensures "Authorization" !in caller && "Authorization" in h ==> h["Authorization"] == "Bearer " + token.value
  {
    var defaults := map["Content-Type" := "application/json"];
    var auth := if SendsBearer(token, endpoint) then map["Authorization" := "Bearer " + token.value] else map[];
    defaults + auth + caller
  }

  /** `config`: the caller's options, with the merged headers and credentials forced to "include". */
  function BuildConfig(endpoint: string, options: Options, token: Option<string>): (c: Config)
    ensures c.credentials == "include"
    ensures c.verb == options.verb && c.body == options.body
    ensures c.headers == MergeHeaders(token, endpoint, options.headers)
  {
    Config(options.verb, options.body, MergeHeaders(token, endpoint, options.headers), "include")
  }

  /** The request `apiFetch` issues for `endpoint`. */
  function Prepare(baseUrl: string, endpoint: string, options: Options, token: Option<string>): (r: Request)
    ensures r.url == baseUrl + endpoint
    ensures r.config == BuildConfig(endpoint, options, token)
  {
    Request(baseUrl + endpoint, BuildConfig(endpoint, options, token))
  }

  /** `ApiError`: an error message together with the HTTP status. */
  datatype ApiError = ApiError(message: string, statusCode: int)

  /** What came back: `errorJson` is the parsed body, `None` when `response.json()` rejected. */
  datatype HttpResponse = HttpResponse(ok: bool, status: nat, errorJson: Option<ErrorBody>)

  datatype ErrorBody = ErrorBody(message: Option<string>)

  /** `errorData.message`, where `errorData` is `{}` when the body did not parse. */
  function BodyMessage(resp: HttpResponse): Option<string>
  {
    match resp.errorJson
    case Some(b) => b.message
    case None => None
  }

  /** The `ApiError` thrown for a non-ok response, or `None` when the body is returned. */
  function Rejection(resp: HttpResponse): (e: Option<ApiError>)
    ensures e.None? <==> resp.ok
    ensures e.Some? ==> e.value.statusCode == resp.status
  {
    if resp.ok then None
    else Some(ApiError(OptOrElse(BodyMessage(resp), "HTTP " + NatToString(resp.status)), resp.status))
  }

  /** A rejection carries the server's message when it is truthy, else "HTTP <status>". */
  lemma RejectionMessage(resp: HttpResponse)
    requires !resp.ok
    ensures var m := BodyMessage(resp);
            m.Some? && m.value != "" ==> Rejection(resp).value.message == m.value
    ensures var m := BodyMessage(resp);
            !(m.Some? && m.value != "") ==> Rejection(resp).value.message == "HTTP " + NatToString(resp.status)
  {
  }

  /** Every `ApiError` message is non-empty, so `err.message || fallback` never reaches the fallback. */
  lemma RejectionMessageNonEmpty(resp: HttpResponse)
    requires !resp.ok
    ensures Rejection(resp).value.message != ""
  {
  }

  /** Without a server message, the status can be read back from the error message. */
  lemma RejectionStatusReadBack(resp: HttpResponse)
    requires !resp.ok && BodyMessage(resp).GetOr("") == ""
    ensures var m := Rejection(resp).value.message;
            |m| > 5 && m[..5] == "HTTP " && IsDigits(m[5..]) && ParseNat(m[5..]) == resp.status
  {
    var m := Rejection(resp).value.message;
    assert m == "HTTP " + NatToString(resp.status);
    assert m[5..] == NatToString(resp.status);
    ParseNatToString(resp.status);
  }

  /** What an awaited API call rejects with: an `ApiError`, or another thrown error
      (a network `TypeError`, say) with its `message` and its `error?.message`. */
  datatype CallError = HttpFailure(apiError: ApiError) | Thrown(message: string, nestedMessage: Option<string>)

  /** `err.message`. */
  function ErrorMessage(e: CallError): string
  {
    match e
    case HttpFailure(a) => a.message
    case Thrown(m, _) => m
  }

  /** `err.error?.message`; an `ApiError` has no `error` property. */
  function NestedErrorMessage(e: CallError): Option<string>
  {
    match e
    case HttpFailure(_) => None
    case Thrown(_, n) => n
  }

  /** One call of the API groups: the endpoint and the options passed to `apiFetch`. */
  datatype Call = Call(endpoint: string, options: Options)

  function Post(body: Option<Json>): Options
  {
    Options(Some("POST"), body, map[], None)
  }

  function Patch(body: Option<Json>): Options
  {
    Options(Some("PATCH"), body, map[], None)
  }

  /** `authAPI.login(email, password)`. */
  function LoginCall(email: string, password: string): Call
  {
    Call("/users/login", Post(Some(JObject([("email", JString(email)), ("password", JString(password))]))))
  }

  /** `authAPI.register(userData)`. */
  function SignupCall(userData: Json): Call
  {
    Call("/users/signup", Post(Some(userData)))
  }

  /** `authAPI.logout()`: a POST without a body. */
  function LogoutCall(): Call
  {
    Call("/users/logout", Post(None))
  }

  /** `authAPI.getCurrentUser()`. */
  function CurrentUserCall(): Call
  {
    Call("/users/me", NoOptions)
  }

  /** The URL of `flightAPI.getAllFlights(params)`. */
  function AllFlightsUrl(params: seq<QueryParams.Pair>): (url: string)
    ensures params == [] <==> url == "/flights"
    ensures params != [] ==> url == "/flights?" + QueryParams.Serialize(params)
  {
    QueryParams.SerializeEmpty(params);
    var query := QueryParams.Serialize(params);
    "/flights" + (if query != "" then "?" + query else "")
  }

  function AllFlightsCall(params: seq<QueryParams.Pair>): Call
  {
    Call(AllFlightsUrl(params), NoOptions)
  }

  /** The parameters of `flightAPI.searchFlights`: `passengers` defaults to 1. */
  function SearchParams(origin: string, destination: string, departureDate: string, passengers: Option<int>): (ps: seq<QueryParams.Pair>)
    ensures QueryParams.Get(ps, "origin") == Some(origin)
    ensures QueryParams.Get(ps, "destination") == Some(destination)
    ensures QueryParams.Get(ps, "departureDate") == Some(departureDate)
    ensures QueryParams.Get(ps, "passengers") == Some(IntToString(passengers.GetOr(1)))
  {
    [("origin", origin), ("destination", destination), ("departureDate", departureDate),
     ("passengers", IntToString(passengers.GetOr(1)))]
  }

  /** The URL of `flightAPI.searchFlights(origin, destination, departureDate, passengers)`. */
  function SearchFlightsUrl(origin: string, destination: string, departureDate: string, passengers: Option<int>): (url: string)
    ensures |url| >= 16 && url[..16] == "/flights/search?"
  {
    "/flights/search?" + QueryParams.Serialize(SearchParams(origin, destination, departureDate, passengers))
  }

  function SearchFlightsCall(origin: string, destination: string, departureDate: string, passengers: Option<int>): Call
  {
    Call(SearchFlightsUrl(origin, destination, departureDate, passengers), NoOptions)
  }

  /** `flightAPI.createFlight(flightData)`. */
  function CreateFlightCall(flightData: Json): Call
  {
    Call("/flights", Post(Some(flightData)))
  }

  /** `flightAPI.updateFlight(flightId, flightData)`. */
  function UpdateFlightCall(flightId: Option<string>, flightData: Json): Call
  {
    Call("/flights/" + Text(flightId), Patch(Some(flightData)))
  }

  /** `bookingAPI.getMyBookings()`. */
  function MyBookingsCall(): Call
  {
    Call("/bookings/my-bookings", NoOptions)
  }

  /** `bookingAPI.cancelBooking(bookingId)`: a PATCH without a body. */
  function CancelBookingCall(bookingId: Option<string>): Call
  {
    Call("/bookings/" + Text(bookingId) + "/cancel", Patch(None))
  }

  /** `bookingAPI.getAllBookings()`. */
  function AllBookingsCall(): Call
  {
    Call("/bookings", NoOptions)
  }

  /** `paymentAPI.getAllPayments()`. */
  function AllPaymentsCall(): Call
  {
    Call("/payments", NoOptions)
  }

  /** The auth-endpoint test is a substring test for "/login" or "/signup". */
  lemma AuthEndpointIff(endpoint: string)
    ensures IsAuthEndpoint(endpoint) <==>
            (exists i :: OccursAt(endpoint, "/login", i)) || (exists i :: OccursAt(endpoint, "/signup", i))
  {
    ContainsIff(endpoint, "/login");
    ContainsIff(endpoint, "/signup");
  }

  /** A string without some character of `needle` does not contain `needle`. */
  lemma MissingCharNotContained(hay: string, needle: string, c: char)
    requires c in needle && c !in hay
    ensures !Contains(hay, needle)
  {
    ContainsIff(hay, needle);
    forall i | 0 <= i <= |hay| - |needle| ensures !OccursAt(hay, needle, i) {
      var k :| 0 <= k < |needle| && needle[k] == c;
      assert hay[i..i + |needle|][k] == hay[i + k];
    }
  }

  /** Login and signup are auth endpoints. */
  lemma AuthEndpointsClassified()
    ensures IsAuthEndpoint(LoginCall("", "").endpoint)
    ensures IsAuthEndpoint(SignupCall(JObject([])).endpoint)
  {
    ContainsIff("/users/login", "/login");
    assert OccursAt("/users/login", "/login", 6);
    ContainsIff("/users/signup", "/signup");
    assert OccursAt("/users/signup", "/signup", 6);
  }

  /** Logout and the current-user query are not auth endpoints:
      "/login" holds an 'i' and "/signup" a 'p', which neither path has. */
  lemma OtherEndpointsClassified()
    ensures !IsAuthEndpoint(LogoutCall().endpoint)
    ensures !IsAuthEndpoint(CurrentUserCall().endpoint)
  {
    MissingCharNotContained("/users/logout", "/login", 'i');
    MissingCharNotContained("/users/logout", "/signup", 'p');
    MissingCharNotContained("/users/me", "/login", 'i');
    MissingCharNotContained("/users/me", "/signup", 'p');
  }

  /** The logout request carries the stored token, since "/users/logout" is not an auth endpoint. */
  lemma LogoutCarriesToken(baseUrl: string, token: string)
    requires token != ""
    ensures var r := Prepare(baseUrl, LogoutCall().endpoint, LogoutCall().options, Some(token));
            "Authorization" in r.config.headers && r.config.headers["Authorization"] == "Bearer " + token
  {
    OtherEndpointsClassified();
  }

  /** The login request never carries a Bearer header, whatever is stored. */
  lemma LoginNeverCarriesToken(baseUrl: string, email: string, password: string, token: Option<string>)
    ensures "Authorization" !in Prepare(baseUrl, LoginCall(email, password).endpoint, LoginCall(email, password).options, token).config.headers
  {
    AuthEndpointsClassified();
  }

  lemma IntToStringPlain(i: int)
    ensures '&' !in IntToString(i)
  {
    var s := IntToString(i);
    var digits := NatToString(if i < 0 then -i else i);
    forall j | 0 <= j < |s| ensures s[j] != '&' {
      if i < 0 && j > 0 {
        assert s[j] == digits[j - 1];
      }
    }
  }

  /** The search query reads back as origin, destination, departureDate, passengers,
      in that order, with passengers 1 when it is not given. */
  lemma SearchQueryReadBack(origin: string, destination: string, departureDate: string, passengers: Option<int>)
    requires '&' !in origin && '&' !in destination && '&' !in departureDate
    ensures var url := SearchFlightsUrl(origin, destination, departureDate, passengers);
            url[..16] == "/flights/search?" &&
            QueryParams.Parse(url[16..]) == SearchParams(origin, destination, departureDate, passengers)
  {
    var ps := SearchParams(origin, destination, departureDate, passengers);
    IntToStringPlain(passengers.GetOr(1));
    assert QueryParams.Plain(ps[0]) && QueryParams.Plain(ps[1]) && QueryParams.Plain(ps[2]) && QueryParams.Plain(ps[3]);
    assert forall p :: p in ps ==> QueryParams.Plain(p);
    QueryParams.ParseSerialize(ps);
    var url := SearchFlightsUrl(origin, destination, departureDate, passengers);
    assert url == "/flights/search?" + QueryParams.Serialize(ps);
    assert url[16..] == QueryParams.Serialize(ps);
  }

  /** Read back, an omitted passenger count is "1". */
  lemma SearchDefaultPassengers(origin: string, destination: string, departureDate: string)
    requires '&' !in origin && '&' !in destination && '&' !in departureDate
    ensures QueryParams.Get(QueryParams.Parse(SearchFlightsUrl(origin, destination, departureDate, None)[16..]), "passengers") == Some("1")
  {
    SearchQueryReadBack(origin, destination, departureDate, None);
    var ps := SearchParams(origin, destination, departureDate, None);
    assert ps[3] == ("passengers", "1");
    assert QueryParams.Get(ps[3..], "passengers") == Some("1");
    assert ps[2..][1..] == ps[3..] && ps[1..][1..] == ps[2..] && ps[1..] == ps[1..];
  }
}
