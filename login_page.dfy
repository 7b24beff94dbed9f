/** The login page, app/login/page.js: what it renders for each session state,
    the redirect of an already signed-in visitor by role, and `handleSubmit`. */
module LoginPage {
  import opened JsValues
  import opened JsStrings
  import ApiService
  import Auth

  const SuccessMessage := "Login successful!"
  const FallbackMessage := "Invalid email or password"

  /** What the page shows: the session check, the redirect notice, or the form. */
  datatype View = Checking | Redirecting | Form

  function ViewFor(loading: bool, user: Option<Auth.User>): (v: View)
    ensures v == Checking <==> loading
    ensures v == Form <==> !loading && user.None?
  {
    if loading then Checking
    else if user.Some? then Redirecting
    else Form
  }

  /** The effect's push: none while the session is loading or absent; "/admin"
      for an administrator, "/search" for anyone else. */
  function EffectTarget(loading: bool, user: Option<Auth.User>): (t: Option<string>)
    ensures t.Some? <==> !loading && user.Some?
    ensures t.Some? ==> (t.value == "/admin" <==> user.value.role == "admin")
    ensures t.Some? ==> t.value in {"/admin", "/search"}
  {
    if loading || user.None? then None
    else if user.value.role == "admin" then Some("/admin")
    else Some("/search")
  }

  /** The page redirects exactly when it shows the redirect notice. */
  lemma RedirectsIffNotice(loading: bool, user: Option<Auth.User>)
    ensures EffectTarget(loading, user).Some? <==> ViewFor(loading, user) == Redirecting
  {
  }

  /** `err.message || "Invalid email or password"`. */
  function FailureMessage(err: ApiService.CallError): (m: string)
    ensures m != ""
    ensures ApiService.ErrorMessage(err) != "" ==> m == ApiService.ErrorMessage(err)
    ensures ApiService.ErrorMessage(err) == "" ==> m == FallbackMessage
  {
    OrElse(ApiService.ErrorMessage(err), FallbackMessage)
  }

  class LoginForm {
    var error: string
    var notices: seq<(string, string)>
    var navigations: seq<string>

    constructor ()
      ensures error == "" && notices == [] && navigations == []
    {
      error := "";
      notices := [];
      navigations := [];
    }

    /** `handleSubmit`: clears the error, calls `login` on the provider with
        `outcome` as the call's result, then either thanks the user and pushes
        "/search" whatever the role, or shows the failure message. */
    method Submit(auth: Auth.AuthProvider, email: string, password: string,
                  outcome: Result<Auth.LoginData, ApiService.CallError>)
      modifies this, auth
      ensures auth.calls == old(auth.calls) + [ApiService.LoginCall(email, password)] && !auth.loading
      ensures outcome.Ok? ==> auth.storage == old(auth.storage)["token" := Text(outcome.value.token)]
      ensures outcome.Ok? && outcome.value.data.Some? ==>
                auth.user == outcome.value.data.value.user && error == "" &&
                navigations == old(navigations) + ["/search"] &&
                notices == old(notices) + [(SuccessMessage, "success")]
      ensures outcome.Ok? && outcome.value.data.None? ==>
                auth.user == old(auth.user) && error == FailureMessage(Auth.MissingDataError) &&
                navigations == old(navigations) &&
                notices == old(notices) + [(FailureMessage(Auth.MissingDataError), "error")]
      ensures outcome.Err? ==> auth.user == old(auth.user) && auth.storage == old(auth.storage)
      ensures outcome.Err? ==> error == FailureMessage(outcome.error) && navigations == old(navigations) &&
                               notices == old(notices) + [(FailureMessage(outcome.error), "error")]
      ensures auth.navigations == old(auth.navigations)
    {
      error := "";
      auth.StartLogin(email, password);
      var r := auth.SettleLogin(outcome);
      if r.Ok? {
        notices := notices + [(SuccessMessage, "success")];
        navigations := navigations + ["/search"];
      } else {
        var msg := FailureMessage(r.error);
        error := msg;
        notices := notices + [(msg, "error")];
      }
    }

    /** The effect on the session state: pushes `EffectTarget`, if any. */
    method RunEffect(auth: Auth.AuthProvider)
      modifies this
      ensures navigations == old(navigations) + (var t := EffectTarget(auth.loading, auth.user); if t.Some? then [t.value] else [])
      ensures error == old(error) && notices == old(notices)
    {
      var t := EffectTarget(auth.loading, auth.user);
      if t.Some? {
        navigations := navigations + [t.value];
      }
    }
  }

  /** An administrator who signs in is first sent to "/search" by the handler,
      then to "/admin" by the effect that sees the new session: the last push wins. */
  method AdminSignIn(auth: Auth.AuthProvider, email: string, password: string, data: Auth.LoginData)
    returns (form: LoginForm)
    requires data.data.Some? && data.data.value.user.Some? && data.data.value.user.value.role == "admin"
    modifies auth
    ensures form.navigations == ["/search", "/admin"]
    ensures form.error == ""
  {
    form := new LoginForm();
    form.Submit(auth, email, password, Ok(data));
    form.RunEffect(auth);
  }

  /** A failed sign-in keeps the visitor on the form with a message, and pushes nothing. */
  method FailedSignIn(auth: Auth.AuthProvider, email: string, password: string, err: ApiService.CallError)
    returns (form: LoginForm)
    requires !auth.loading && auth.user.None?
    modifies auth
    ensures form.navigations == [] && form.error != ""
    ensures ViewFor(auth.loading, auth.user) == Form
  {
    form := new LoginForm();
    form.Submit(auth, email, password, Err(err));
    form.RunEffect(auth);
  }
}
