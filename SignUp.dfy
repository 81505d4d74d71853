/** The sign-up form: four fields that must all be filled in, the password
    typed twice, and the submitted account details. */
module SignUp {
  import opened Common

  const MismatchMessage := "Passwords do not match."

  /** What the form hands to its submit callback. */
  datatype Credentials = Credentials(name: string, email: string, password: string)

  /** `canSubmit`: every field holds more than whitespace and no request is
      under way. */
  predicate CanSubmit(name: string, email: string, password: string, confirm: string, loading: bool) {
    !JsBlank(name) && !JsBlank(email) && !JsBlank(password) && !JsBlank(confirm) && !loading
  }

  /** The outcome of a click on "Create account" past its guard: the
      credentials to submit and the form's own error. */
  function SubmitOutcome(name: string, email: string, password: string, confirm: string): (r: (Option<Credentials>, string))
    ensures r.0.Some? <==> password == confirm
    ensures r.0.Some? ==> r.0.value == Credentials(JsTrim(name), JsTrim(email), password) && r.1 == ""
    ensures r.0.None? ==> r.1 == MismatchMessage
  {
    if password != confirm then (None, MismatchMessage)
    else (Some(Credentials(JsTrim(name), JsTrim(email), password)), "")
  }

  /** `handleSubmit`: nothing unless the form can be submitted (the form's
      error stays as it was); past the guard, the outcome above. */
  function HandleSubmit(name: string, email: string, password: string, confirm: string, loading: bool,
                        localError: string): (r: (Option<Credentials>, string))
    ensures !CanSubmit(name, email, password, confirm, loading) ==> r == (None, localError)
    ensures CanSubmit(name, email, password, confirm, loading) ==> r == SubmitOutcome(name, email, password, confirm)
    ensures r.0.Some? ==> password == confirm && r.1 == "" && CanSubmit(name, email, password, confirm, loading)
  {
    if !CanSubmit(name, email, password, confirm, loading) then (None, localError)
    else SubmitOutcome(name, email, password, confirm)
  }

  /** `localError || error`: the form's own error wins over the page's. */
  function ErrorText(localError: string, error: string): (r: string)
    ensures localError != "" ==> r == localError
    ensures localError == "" ==> r == error
  {
    if localError != "" then localError else error
  }

  /** Submitted credentials always carry a password that was confirmed
      exactly, spaces included, and a trimmed name and email that are not
      empty. */
  lemma SubmittedIsConfirmed(name: string, email: string, password: string, confirm: string, loading: bool)
    requires CanSubmit(name, email, password, confirm, loading)
    ensures var r := SubmitOutcome(name, email, password, confirm);
            r.0.Some? ==> r.0.value.password == confirm && r.0.value.name != "" && r.0.value.email != ""
  {
  }

  /** The form's state (`loading` and `error` are the page's props). */
  class Form {
    var name: string
    var email: string
    var password: string
    var confirm: string
    var localError: string

    constructor()
      ensures name == "" && email == "" && password == "" && confirm == "" && localError == ""
    {
      name := "";
      email := "";
      password := "";
      confirm := "";
      localError := "";
    }

    /** Typing in the four fields. */
    method SetFields(n: string, e: string, p: string, c: string)
      modifies this
      ensures name == n && email == e && password == p && confirm == c && localError == old(localError)
    {
      name, email, password, confirm := n, e, p, c;
    }

    /** `handleSubmit`. */
    method Submit(loading: bool) returns (submitted: Option<Credentials>)
      modifies this
      ensures name == old(name) && email == old(email) && password == old(password) && confirm == old(confirm)
      ensures (submitted, localError) == HandleSubmit(name, email, password, confirm, loading, old(localError))
    {
      submitted, localError := HandleSubmit(name, email, password, confirm, loading, localError).0,
                               HandleSubmit(name, email, password, confirm, loading, localError).1;
    }
  }

  /** After a rejected confirmation the form shows its own message, whatever
      the page's error. */
  lemma MismatchShown(name: string, email: string, password: string, confirm: string, error: string)
    requires password != confirm
    ensures ErrorText(SubmitOutcome(name, email, password, confirm).1, error) == MismatchMessage
  {
  }
}
