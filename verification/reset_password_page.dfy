/** The reset-password page: the link's token and email, the two password
    fields and the submit step. */
module ResetPasswordPage {

  import opened Wrappers

  /** The link's query parameters, each possibly absent. */
  datatype LinkParams = LinkParams(token: Option<string>, email: Option<string>)

  /** `searchParams.get(name) || ''`. */
  function Param(p: Option<string>): (r: string)
    ensures p.None? ==> r == ""
    ensures p.Some? ==> r == p.value
  {
    p.GetOr("")
  }

  /** The invalid-link view replaces the form when either value is empty. */
  function InvalidLink(p: LinkParams): (b: bool)
    ensures b <==> Param(p.token) == "" || Param(p.email) == ""
    ensures p.token.None? || p.email.None? ==> b
  {
    Param(p.token) == "" || Param(p.email) == ""
  }

  datatype Field = Password | Confirmation

  datatype ResetForm = ResetForm(password: string, confirmation: string, error: string,
                                 message: string, loading: bool)

  const InitialForm := ResetForm("", "", "", "", false)

  /** `handleChange`: the edited field takes the value and the error is cleared. */
  function Change(f: ResetForm, field: Field, value: string): (r: ResetForm)
    ensures r.error == ""
    ensures field == Password ==> r.password == value && r.confirmation == f.confirmation
    ensures field == Confirmation ==> r.confirmation == value && r.password == f.password
    ensures r.message == f.message && r.loading == f.loading
  {
    match field
    case Password => f.(password := value, error := "")
    case Confirmation => f.(confirmation := value, error := "")
  }

  /** The body of the reset request. */
  datatype ResetRequest = ResetRequest(token: string, email: string, password: string, confirmation: string)

  /** What the server answers, each with an optional `message`. */
  datatype ResetResponse = Succeeded(message: Option<string>) | Failed(message: Option<string>)

  const MismatchError := "Passwords do not match."
  const SuccessFallback := "Password has been reset successfully."
  const FailureFallback := "Failed to reset password. The link may be invalid or expired."

  /** `x || fallback` for an optional server message. */
  function OrFallback(m: Option<string>, fallback: string): (r: string)
    ensures m.Some? && m.value != "" ==> r == m.value
    ensures m.None? || m.value == "" ==> r == fallback
  {
    if m.Some? && m.value != "" then m.value else fallback
  }

  datatype SubmitStep = SubmitStep(form: ResetForm, request: Option<ResetRequest>, redirectToLogin: bool)

  /** `handleSubmit`: mismatched passwords set the error and send nothing;
      otherwise the request is sent with the link's token and email, and the
      answer sets the message (then a redirect to the login page) or the error. */
  function Submit(f: ResetForm, link: LinkParams, response: ResetResponse): (r: SubmitStep)
    ensures r.request.None? <==> f.password != f.confirmation
    ensures r.request.None? ==> r.form == f.(error := MismatchError) && !r.redirectToLogin
    ensures r.request.Some? ==>
              r.request.value == ResetRequest(Param(link.token), Param(link.email), f.password, f.confirmation)
    ensures r.request.Some? && response.Succeeded? ==>
              r.form.message == OrFallback(response.message, SuccessFallback) && r.form.error == ""
              && r.redirectToLogin
    ensures r.request.Some? && response.Failed? ==>
              r.form.error == OrFallback(response.message, FailureFallback) && !r.redirectToLogin
    ensures r.request.Some? ==> !r.form.loading
    ensures r.form.password == f.password && r.form.confirmation == f.confirmation
  {
    if f.password != f.confirmation then SubmitStep(f.(error := MismatchError), None, false)
    else
      var request := ResetRequest(Param(link.token), Param(link.email), f.password, f.confirmation);
      match response
      case Succeeded(m) =>
        SubmitStep(f.(error := "", loading := false, message := OrFallback(m, SuccessFallback)), Some(request), true)
      case Failed(m) =>
        SubmitStep(f.(error := OrFallback(m, FailureFallback), loading := false), Some(request), false)
  }

  /** Every request sent carries matching passwords, and from the form view
      (a valid link) a non-empty token and email. */
  lemma SentRequestsAreWellFormed(f: ResetForm, link: LinkParams, response: ResetResponse)
    requires Submit(f, link, response).request.Some?
    ensures var q := Submit(f, link, response).request.value; q.password == q.confirmation
    ensures !InvalidLink(link) ==>
              var q := Submit(f, link, response).request.value; q.token != "" && q.email != ""
  {
  }

  /** After a mismatch, editing either field clears the error again. */
  lemma MismatchClearedByEditing(f: ResetForm, link: LinkParams, response: ResetResponse, field: Field, value: string)
    requires f.password != f.confirmation
    ensures Submit(f, link, response).form.error == MismatchError
    ensures Change(Submit(f, link, response).form, field, value).error == ""
  {
  }
}
