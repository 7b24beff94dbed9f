/** The session store of app/_lib/auth-Context.js: the provider's `user`
    and `loading` state, the token kept in local storage, the navigations it
    requests and the API calls it issues. Each asynchronous operation is a
    start step (what happens before the `await`) and a settle step taking the
    call's outcome as a parameter. */
module Auth {
  import opened JsValues
  import opened JsStrings
  import opened ApiService

  /** The user record the API returns. */
  datatype User = User(id: Option<string>, name: string, email: string, role: string)

  /** The body of a successful login: `data.token`, and `data.data`, which may
      be absent. */
  datatype LoginData = LoginData(token: Option<string>, data: Option<LoginBody>)

  /** `data.data`: its `user`, which may be absent too (`undefined`). */
  datatype LoginBody = LoginBody(user: Option<User>)

  /** The TypeError `data.data.user` raises for a body without `data`. */
  const MissingDataError: CallError := Thrown("Cannot read properties of undefined (reading 'user')", None)

  /** The keys of the context value the provider hands to its consumers. */
  const ContextKeys: set<string> := {"user", "isAuthenticated", "loading", "login", "register", "logout", "canAccess"}

  /** The body `register` sends: the password is also sent as its confirmation. */
  function RegisterBody(email: string, password: string, name: string): Json
  {
    JObject([("name", JString(name)), ("email", JString(email)), ("password", JString(password)),
             ("passwordConfirm", JString(password))])
  }

  /** The register body carries the name, the email, and the password as both
      `password` and `passwordConfirm`. */
  lemma RegisterBodyFields(email: string, password: string, name: string)
    ensures var body := RegisterBody(email, password, name);
            Field(body, "password") == Some(JString(password)) &&
            Field(body, "passwordConfirm") == Some(JString(password)) &&
            Field(body, "email") == Some(JString(email)) && Field(body, "name") == Some(JString(name))
  {
    var fs := RegisterBody(email, password, name).fields;
    assert FirstField(fs[3..], "passwordConfirm") == Some(JString(password));
    assert FirstField(fs[2..], "passwordConfirm") == Some(JString(password)) by { assert fs[2..][1..] == fs[3..]; }
    assert FirstField(fs[1..], "passwordConfirm") == Some(JString(password)) by { assert fs[1..][1..] == fs[2..]; }
    assert FirstField(fs[2..], "password") == Some(JString(password));
    assert FirstField(fs[1..], "password") == Some(JString(password)) by { assert fs[1..][1..] == fs[2..]; }
    assert FirstField(fs[1..], "email") == Some(JString(email));
  }

  /** `canAccess(requiredRole)` over the provider's current user:
      no user never has access, a falsy role asks only for a user. */
  function CanAccess(user: Option<User>, requiredRole: Option<string>): (r: bool)
    ensures user.None? ==> !r
    ensures user.Some? && requiredRole.GetOr("") == "" ==> r
    ensures user.Some? && requiredRole.GetOr("") != "" ==> (r <==> user.value.role == requiredRole.value)
  {
    if user.None? then false
    else if requiredRole.None? || requiredRole.value == "" then true
    else user.value.role == requiredRole.value
  }

  /** Access to a specific role implies access with no role required. */
  lemma CanAccessMonotone(user: Option<User>, role: string)
    requires CanAccess(user, Some(role))
    ensures CanAccess(user, None)
  {
  }

  /** At most one non-empty role admits a given user. */
  lemma CanAccessOneRole(user: Option<User>, r1: string, r2: string)
    requires r1 != "" && r2 != "" && CanAccess(user, Some(r1)) && CanAccess(user, Some(r2))
    ensures r1 == r2
  {
  }

  class AuthProvider {
    var user: Option<User>
    var loading: bool
    /** `localStorage`. */
    var storage: map<string, string>
    /** The targets passed to `router.push`, in order. */
    var navigations: seq<string>
    /** The API calls issued, in order. */
    var calls: seq<Call>

    /** Mounting the provider: no user yet, loading, and the session query issued. */
    constructor (initialStorage: map<string, string>)
      ensures user.None? && loading
      ensures storage == initialStorage && navigations == []
      ensures calls == [CurrentUserCall()]
    {
      user := None;
      loading := true;
      storage := initialStorage;
      navigations := [];
      calls := [CurrentUserCall()];
    }

    /** `isAuthenticated`: `!!user`. */
    function IsAuthenticated(): (r: bool)
      reads this
      ensures r <==> user.Some?
    {
      user.Some?
    }

    /** The truthiness of the context value's entry under `key`: a key the
        value does not have reads `undefined`, which is falsy; `user` is truthy
        when someone is signed in; `loading` and `isAuthenticated` are the
        flags; the four functions are always truthy. */
    function ContextFlag(key: string): (r: bool)
      reads this
      ensures key !in ContextKeys ==> !r
      ensures key == "user" ==> (r <==> user.Some?)
      ensures key == "loading" ==> (r <==> loading)
      ensures key == "isAuthenticated" ==> (r <==> user.Some?)
      ensures key in {"login", "register", "logout", "canAccess"} ==> r
    {
      if key !in ContextKeys then false
      else if key == "user" then user.Some?
      else if key == "loading" then loading
      else if key == "isAuthenticated" then IsAuthenticated()
      else true
    }

    /** `initAuth` settles: the fetched user, or none when the query failed;
        loading ends either way. */
    method SettleInit(outcome: Result<Option<User>, CallError>)
      modifies this
      ensures user == (if outcome.Ok? then outcome.value else None)
      ensures !loading
      ensures storage == old(storage) && navigations == old(navigations) && calls == old(calls)
    {
      match outcome {
        case Ok(u) => user := u;
        case Err(_) => user := None;
      }
      loading := false;
    }

    /** `login` up to its `await`: loading, and the login request issued. */
    method StartLogin(email: string, password: string)
      modifies this
      ensures loading
      ensures calls == old(calls) + [LoginCall(email, password)]
      ensures user == old(user) && storage == old(storage) && navigations == old(navigations)
    {
      loading := true;
      calls := calls + [LoginCall(email, password)];
    }

    /** `login` settles. On success the token is stored under "token" (the
        text "undefined" when the body has none); then the user is taken from
        `data.data` and the body is returned, or, when the body has no `data`,
        the read throws and the user is unchanged. On failure the error
        propagates and nothing but `loading` changes. */
    method SettleLogin(outcome: Result<LoginData, CallError>) returns (r: Result<LoginData, CallError>)
      modifies this
      ensures outcome.Ok? && outcome.value.data.Some? ==> r == outcome
      ensures outcome.Ok? && outcome.value.data.None? ==> r == Err(MissingDataError)
      ensures outcome.Err? ==> r == outcome
      ensures !loading
      ensures outcome.Ok? ==> storage == old(storage)["token" := Text(outcome.value.token)]
      ensures outcome.Ok? && outcome.value.data.Some? ==> user == outcome.value.data.value.user
      ensures !(outcome.Ok? && outcome.value.data.Some?) ==> user == old(user)
      ensures outcome.Err? ==> storage == old(storage)
      ensures navigations == old(navigations) && calls == old(calls)
    {
      r := outcome;
      if outcome.Ok? {
        storage := storage["token" := Text(outcome.value.token)];
        if outcome.value.data.Some? {
          user := outcome.value.data.value.user;
        } else {
          r := Err(MissingDataError);
        }
      }
      loading := false;
    }

    /** `register` up to its `await`: the signup request carries the password twice. */
    method StartRegister(email: string, password: string, name: string)
      modifies this
      ensures loading
      ensures calls == old(calls) + [SignupCall(RegisterBody(email, password, name))]
      ensures user == old(user) && storage == old(storage) && navigations == old(navigations)
    {
      loading := true;
      calls := calls + [SignupCall(RegisterBody(email, password, name))];
    }

    /** `register` settles: the outcome is passed on, the user is never changed. */
    method SettleRegister(outcome: Result<Json, CallError>) returns (r: Result<Json, CallError>)
      modifies this
      ensures r == outcome
      ensures !loading
      ensures user == old(user) && storage == old(storage)
      ensures navigations == old(navigations) && calls == old(calls)
    {
      loading := false;
      r := outcome;
    }

    /** `logout`: the user is cleared and "/login" pushed at once; the server call
        is fire-and-forget, so its outcome changes nothing, and the stored token stays. */
    method Logout()
      modifies this
      ensures user.None?
      ensures navigations == old(navigations) + ["/login"]
      ensures calls == old(calls) + [LogoutCall()]
      ensures storage == old(storage) && loading == old(loading)
    {
      user := None;
      navigations := navigations + ["/login"];
      calls := calls + [LogoutCall()];
    }
  }

  /** Since logout keeps the token, the logout request (not an auth endpoint)
      still carries it, and so does any later request on a non-auth endpoint. */
  lemma LogoutRequestCarriesStoredToken(storage: map<string, string>, baseUrl: string)
    requires "token" in storage && storage["token"] != ""
    ensures var r := Prepare(baseUrl, LogoutCall().endpoint, LogoutCall().options, StoredToken(storage, true));
            "Authorization" in r.config.headers && r.config.headers["Authorization"] == "Bearer " + storage["token"]
  {
    LogoutCarriesToken(baseUrl, storage["token"]);
  }

  /** A whole login: whatever the outcome, loading is false afterwards, and the
      user changes only when the login succeeded with a `data` part. */
  method LoginOnce(p: AuthProvider, email: string, password: string, outcome: Result<LoginData, CallError>)
      returns (r: Result<LoginData, CallError>)
    modifies p
    ensures r.Ok? <==> outcome.Ok? && outcome.value.data.Some?
    ensures r.Ok? ==> r == outcome
    ensures !p.loading
    ensures p.user == (if r.Ok? then outcome.value.data.value.user else old(p.user))
    ensures p.IsAuthenticated() <==> (if r.Ok? then outcome.value.data.value.user.Some? else old(p.user).Some?)
    ensures p.calls == old(p.calls) + [LoginCall(email, password)]
  {
    p.StartLogin(email, password);
    r := p.SettleLogin(outcome);
  }
}
