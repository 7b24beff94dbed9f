/** The registration page, app/register/page.js: the validation order of
    `handleSubmit`, its outcome, and the countdown that leads back to the
    login page. The interval and the 100 ms delay are explicit events. */
module RegisterPage {
  import opened JsValues
  import opened JsStrings
  import ApiService
  import Auth

  const MismatchMessage := "Passwords do not match"
  const TooShortMessage := "Password must be at least 8 characters"
  const FallbackMessage := "Registration failed. Please try again."
  const SuccessMessage := "Registration successful! Redirecting to login..."

  /** The form checks: a mismatch first, then the length. `None` means the form may be sent. */
  function Validate(password: string, confirmPassword: string): (e: Option<string>)
    ensures password != confirmPassword ==> e == Some(MismatchMessage)
    ensures password == confirmPassword && |password| < 8 ==> e == Some(TooShortMessage)
    ensures e.None? <==> password == confirmPassword && |password| >= 8
  {
    if password != confirmPassword then Some(MismatchMessage)
    else if |password| < 8 then Some(TooShortMessage)
    else None
  }

  /** A mismatch is reported even when the password is also too short. */
  lemma MismatchTakesPrecedence(password: string, confirmPassword: string)
    requires password != confirmPassword && |password| < 8
    ensures Validate(password, confirmPassword) == Some(MismatchMessage)
  {
  }

  /** `err.message || err.error?.message || "Registration failed. Please try again."`. */
  function FailureMessage(err: ApiService.CallError): (m: string)
    ensures m != ""
    ensures ApiService.ErrorMessage(err) != "" ==> m == ApiService.ErrorMessage(err)
    ensures ApiService.ErrorMessage(err) == "" && ApiService.NestedErrorMessage(err).GetOr("") != "" ==>
              m == ApiService.NestedErrorMessage(err).value
    ensures ApiService.ErrorMessage(err) == "" && ApiService.NestedErrorMessage(err).GetOr("") == "" ==>
              m == FallbackMessage
  {
    OrElse(ApiService.ErrorMessage(err), OptOrElse(ApiService.NestedErrorMessage(err), FallbackMessage))
  }

  /** A rejected HTTP response always shows its own message: the fallbacks are
      reached only by errors without a message. */
  lemma HttpFailureShowsOwnMessage(resp: ApiService.HttpResponse)
    requires !resp.ok
    ensures FailureMessage(ApiService.HttpFailure(ApiService.Rejection(resp).value)) == ApiService.Rejection(resp).value.message
  {
    ApiService.RejectionMessageNonEmpty(resp);
  }

  /** The countdown after one tick: one less, or 0 once that would reach 0. */
  function NextCount(prev: int): (next: int)
    ensures next >= 0
    ensures prev - 1 > 0 ==> next == prev - 1
    ensures prev - 1 <= 0 ==> next == 0
  {
    if prev - 1 <= 0 then 0 else prev - 1
  }

  /** The tick that stops the interval and schedules the redirect. */
  predicate StopsAt(prev: int)
  {
    prev - 1 <= 0
  }

  /** The value after `k` ticks, were the interval to keep running. */
  function CountAfter(start: int, k: nat): int
  {
    if k == 0 then start else NextCount(CountAfter(start, k - 1))
  }

  /** From a non-negative start, `k` ticks give `max(start - k, 0)`. */
  lemma {:induction false} CountAfterValue(start: nat, k: nat)
    ensures CountAfter(start, k) == if k < start then start - k else 0
  {
    if k > 0 {
      CountAfterValue(start, k - 1);
    }
  }

  /** From 5 the interval runs four silent ticks and stops on the fifth. */
  lemma FiveTicksToRedirect()
    ensures forall k :: 0 <= k < 4 ==> !StopsAt(CountAfter(5, k))
    ensures StopsAt(CountAfter(5, 4)) && NextCount(CountAfter(5, 4)) == 0
  {
    forall k | 0 <= k < 4 ensures !StopsAt(CountAfter(5, k)) {
      CountAfterValue(5, k);
    }
    CountAfterValue(5, 4);
  }

  class RegisterForm {
    var error: string
    var success: bool
    var countdown: int
    /** The interval is set. */
    var ticking: bool
    /** The `setTimeout` that pushes "/login" is pending. */
    var redirectPending: bool
    var notices: seq<(string, string)>
    var navigations: seq<string>

    /** The countdown never goes negative, and only runs after a success. */
    predicate Valid()
      reads this
    {
      countdown >= 0 && (ticking ==> success) && (redirectPending ==> success)
    }

    constructor ()
      ensures Valid()
      ensures error == "" && !success && countdown == 5 && !ticking && !redirectPending
      ensures notices == [] && navigations == []
    {
      error := "";
      success := false;
      countdown := 5;
      ticking := false;
      redirectPending := false;
      notices := [];
      navigations := [];
    }

    /** `handleSubmit`. A form failing validation shows its message and calls
        nothing; a valid one calls `register` on the provider with `outcome` as
        the call's result, then shows success or the failure message. */
    method Submit(auth: Auth.AuthProvider, name: string, email: string, password: string,
                  confirmPassword: string, outcome: Result<ApiService.Json, ApiService.CallError>)
      requires Valid()
      modifies this, auth
      ensures Valid()
      ensures Validate(password, confirmPassword).Some? ==>
                error == Validate(password, confirmPassword).value && success == old(success) &&
                auth.calls == old(auth.calls) && auth.loading == old(auth.loading) &&
                notices == old(notices) + [(Validate(password, confirmPassword).value, "error")]
      ensures Validate(password, confirmPassword).None? ==>
                auth.calls == old(auth.calls) + [ApiService.SignupCall(Auth.RegisterBody(email, password, name))] &&
                !auth.loading
      ensures Validate(password, confirmPassword).None? && outcome.Ok? ==>
                success && error == "" && notices == old(notices) + [(SuccessMessage, "success")]
      ensures Validate(password, confirmPassword).None? && outcome.Err? ==>
                error == FailureMessage(outcome.error) && success == old(success) &&
                notices == old(notices) + [(FailureMessage(outcome.error), "error")]
      ensures auth.user == old(auth.user) && auth.storage == old(auth.storage)
      ensures auth.navigations == old(auth.navigations)
      ensures countdown == old(countdown) && ticking == old(ticking) && redirectPending == old(redirectPending)
      ensures navigations == old(navigations)
    {
      error := "";
      var invalid := Validate(password, confirmPassword);
      if invalid.Some? {
        error := invalid.value;
        notices := notices + [(invalid.value, "error")];
        return;
      }
      auth.StartRegister(email, password, name);
      var r := auth.SettleRegister(outcome);
      if r.Ok? {
        success := true;
        notices := notices + [(SuccessMessage, "success")];
      } else {
        var msg := FailureMessage(r.error);
        error := msg;
        notices := notices + [(msg, "error")];
      }
    }

    /** The effect on `success`: it sets the interval only after a success. */
    method RunEffect()
      requires Valid()
      modifies this
      ensures Valid()
      ensures ticking == (old(ticking) || success)
      ensures countdown == old(countdown) && success == old(success) && redirectPending == old(redirectPending)
      ensures error == old(error) && notices == old(notices) && navigations == old(navigations)
    {
      if success {
        ticking := true;
      }
    }

    /** One interval tick; nothing happens once the interval is cleared. */
    method Tick()
      requires Valid()
      modifies this
      ensures Valid()
      ensures old(ticking) ==> countdown == NextCount(old(countdown))
      ensures old(ticking) ==> (ticking <==> !StopsAt(old(countdown)))
      ensures old(ticking) ==> (redirectPending <==> old(redirectPending) || StopsAt(old(countdown)))
      ensures !old(ticking) ==> countdown == old(countdown) && !ticking && redirectPending == old(redirectPending)
      ensures success == old(success) && error == old(error) && notices == old(notices) && navigations == old(navigations)
    {
      if ticking {
        var next := countdown - 1;
        if next <= 0 {
          ticking := false;
          redirectPending := true;
          countdown := 0;
        } else {
          countdown := next;
        }
      }
    }

    /** The 100 ms timeout fires: "/login" is pushed. */
    method FireRedirect()
      requires Valid()
      modifies this
      ensures Valid()
      ensures navigations == old(navigations) + (if old(redirectPending) then ["/login"] else [])
      ensures navigations != old(navigations) ==> success
      ensures !redirectPending
      ensures countdown == old(countdown) && ticking == old(ticking) && success == old(success)
      ensures error == old(error) && notices == old(notices)
    {
      if redirectPending {
        navigations := navigations + ["/login"];
        redirectPending := false;
      }
    }
  }

  /** A successful registration: the toast, then five ticks of the countdown,
      then the timeout, and the visitor is sent to "/login" exactly once. */
  method RegisterThenRedirect(auth: Auth.AuthProvider, name: string, email: string, password: string,
                              data: ApiService.Json)
      returns (form: RegisterForm)
    requires Validate(password, password).None?
    modifies auth
    ensures form.success && form.error == ""
    ensures form.notices == [(SuccessMessage, "success")]
    ensures form.countdown == 0 && !form.ticking && !form.redirectPending
    ensures form.navigations == ["/login"]
  {
    form := new RegisterForm();
    form.Submit(auth, name, email, password, password, Ok(data));
    form.RunEffect();
    form.Tick();
    form.Tick();
    form.Tick();
    form.Tick();
    assert form.navigations == [] && !form.redirectPending;
    form.Tick();
    form.FireRedirect();
  }
}
