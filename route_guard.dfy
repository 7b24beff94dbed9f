/** The route guard of app/_component/protectedRoutes.js: what it renders
    and which redirects its effect pushes, from the loading flag, the user
    and the optional list of allowed roles. */
module RouteGuard {
  import opened JsValues
  import Auth

  datatype Render = Spinner | Nothing | Children

  /** `!allowedRoles || allowedRoles.includes(role)`: an absent list admits every
      role, a given one (even empty, which is truthy) only its members. */
  predicate Admits(allowedRoles: Option<seq<string>>, role: string)
  {
    allowedRoles.None? || role in allowedRoles.value
  }

  /** The render: spinner while loading, nothing without a user or for a
      rejected role, the children otherwise. */
  function Decide(isLoading: bool, user: Option<Auth.User>, allowedRoles: Option<seq<string>>): (r: Render)
    ensures r == Spinner <==> isLoading
    ensures r == Children <==> !isLoading && user.Some? && Admits(allowedRoles, user.value.role)
  {
    if isLoading then Spinner
    else if user.None? then Nothing
    else if !Admits(allowedRoles, user.value.role) then Nothing
    else Children
  }

  /** The pushes of one effect run: the two `if`s in sequence. */
  function Redirects(isLoading: bool, user: Option<Auth.User>, allowedRoles: Option<seq<string>>): (pushes: seq<string>)
    ensures |pushes| <= 1
    ensures isLoading ==> pushes == []
    ensures !isLoading && user.None? ==> pushes == ["/login"]
    ensures !isLoading && user.Some? && !Admits(allowedRoles, user.value.role) ==>
              pushes == [if user.value.role == "admin" then "/admin" else "/search"]
    ensures user.Some? && Admits(allowedRoles, user.value.role) ==> pushes == []
  {
    (if !isLoading && user.None? then ["/login"] else [])
    + (if !isLoading && user.Some? && !Admits(allowedRoles, user.value.role)
       then [if user.value.role == "admin" then "/admin" else "/search"] else [])
  }

  /** A redirect is pushed exactly when the guard renders nothing. */
  lemma RedirectIffNothing(isLoading: bool, user: Option<Auth.User>, allowedRoles: Option<seq<string>>)
    ensures Redirects(isLoading, user, allowedRoles) != [] <==> Decide(isLoading, user, allowedRoles) == Nothing
  {
  }

  /** An admin sent away is sent to "/admin", anyone else to "/search";
      neither target is "/login", so a logged-in user is never sent to log in. */
  lemma RejectedRoleTarget(user: Auth.User, allowedRoles: seq<string>)
    requires user.role !in allowedRoles
    ensures Redirects(false, Some(user), Some(allowedRoles)) == [if user.role == "admin" then "/admin" else "/search"]
    ensures "/login" !in Redirects(false, Some(user), Some(allowedRoles))
  {
  }

  /** An empty role list rejects every logged-in user. */
  lemma EmptyRolesRejectAll(user: Auth.User)
    ensures Decide(false, Some(user), Some([])) == Nothing
    ensures Redirects(false, Some(user), Some([])) != []
  {
  }

  /** A single-role guard admits exactly the users `canAccess(role)` accepts. */
  lemma GuardAgreesWithCanAccess(user: Option<Auth.User>, role: string)
    requires role != ""
    ensures Decide(false, user, Some([role])) == Children <==> Auth.CanAccess(user, Some(role))
    ensures Decide(false, user, None) == Children <==> Auth.CanAccess(user, None)
  {
  }

  /** The guard as wired destructures `isLoading` from the auth context,
      whose value has no such key (it is called `loading`), so the flag is
      `undefined` whatever the provider's state. */
  function WiredIsLoading(provider: Auth.AuthProvider): (r: bool)
    reads provider
    ensures !r
  {
    provider.ContextFlag("isLoading")
  }

  /** The guard as wired: the session's own loading flag never reaches it. */
  function AsWiredRedirects(provider: Auth.AuthProvider, allowedRoles: Option<seq<string>>): (pushes: seq<string>)
    reads provider
    ensures provider.user.None? ==> pushes == ["/login"]
    ensures !provider.loading ==> pushes == Redirects(provider.loading, provider.user, allowedRoles)
  {
    Redirects(WiredIsLoading(provider), provider.user, allowedRoles)
  }

  /** The guard reading the provider's `loading`, as evidently intended. */
  function CorrectedRedirects(provider: Auth.AuthProvider, allowedRoles: Option<seq<string>>): (pushes: seq<string>)
    reads provider
    ensures provider.loading ==> pushes == []
  {
    Redirects(provider.loading, provider.user, allowedRoles)
  }

  function CorrectedRender(provider: Auth.AuthProvider, allowedRoles: Option<seq<string>>): (r: Render)
    reads provider
    ensures provider.loading ==> r == Spinner
  {
    Decide(provider.loading, provider.user, allowedRoles)
  }

  /** As wired, a freshly mounted provider (session query still pending) has the
      guard push "/login" at once, even for a visitor whose session is valid. */
  method AsWiredRedirectsBeforeSessionKnown(storage: map<string, string>, allowedRoles: Option<seq<string>>)
      returns (pushes: seq<string>, render: Render)
    ensures pushes == ["/login"] && render == Nothing
  {
    var p := new Auth.AuthProvider(storage);
    pushes := AsWiredRedirects(p, allowedRoles);
    render := Decide(WiredIsLoading(p), p.user, allowedRoles);
  }

  /** Reading `loading`, the guard shows the spinner and waits until the session is known. */
  method CorrectedWaitsForSession(storage: map<string, string>, allowedRoles: Option<seq<string>>)
      returns (pushes: seq<string>, render: Render)
    ensures pushes == [] && render == Spinner
  {
    var p := new Auth.AuthProvider(storage);
    pushes := CorrectedRedirects(p, allowedRoles);
    render := CorrectedRender(p, allowedRoles);
  }

  /** Once the session is known, both wirings agree. */
  lemma WiringsAgreeAfterInit(provider: Auth.AuthProvider, allowedRoles: Option<seq<string>>)
    requires !provider.loading
    ensures AsWiredRedirects(provider, allowedRoles) == CorrectedRedirects(provider, allowedRoles)
  {
  }
}
