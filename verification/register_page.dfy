/**
 * The registration form: the password check that guards account creation,
 * the mapping of provider error codes to messages, the busy flag and the
 * redirect to the login page.
 */
module RegisterPage {
  import opened Optional

  const MISMATCH := "Passwörter stimmen nicht überein."
  const EMAIL_IN_USE := "Diese E-Mail-Adresse wird bereits verwendet."
  const WEAK_PASSWORD := "Das Passwort ist zu schwach (mindestens 6 Zeichen benötigt)."
  const GENERIC_FAILURE := "Registrierung fehlgeschlagen. Bitte versuchen Sie es erneut."

  const EMAIL_IN_USE_CODE := "auth/email-already-in-use"
  const WEAK_PASSWORD_CODE := "auth/weak-password"

  const LOGIN_ROUTE := "/login"

  /** The form's React state, plus the route the page navigated to, if any. */
  datatype Form = Form(
    email: string,
    password: string,
    confirmPassword: string,
    error: Option<string>,
    loading: bool,
    navigatedTo: Option<string>)

  /** How account creation settles: a new account, or a rejection with the provider's error code. */
  datatype AuthOutcome = Created | Rejected(code: string)

  /** The credentials handed to account creation. */
  datatype Credentials = Credentials(email: string, password: string)

  /** The form after one submission, and the provider call it made, if any. */
  datatype Submission = Submission(form: Form, call: Option<Credentials>)

  /** The user-facing message for a provider error code. */
  function ErrorMessage(code: string): (message: string)
    ensures message == EMAIL_IN_USE <==> code == EMAIL_IN_USE_CODE
    ensures message == WEAK_PASSWORD <==> code == WEAK_PASSWORD_CODE
    ensures message == GENERIC_FAILURE <==> code != EMAIL_IN_USE_CODE && code != WEAK_PASSWORD_CODE
  {
    if code == EMAIL_IN_USE_CODE then EMAIL_IN_USE
    else if code == WEAK_PASSWORD_CODE then WEAK_PASSWORD
    else GENERIC_FAILURE
  }

  /** Every code maps to one of exactly three messages, and each of the three is reachable. */
  lemma ErrorMessageRange()
    ensures forall code :: ErrorMessage(code) in {EMAIL_IN_USE, WEAK_PASSWORD, GENERIC_FAILURE}
    ensures ErrorMessage(EMAIL_IN_USE_CODE) == EMAIL_IN_USE
    ensures ErrorMessage(WEAK_PASSWORD_CODE) == WEAK_PASSWORD
    ensures ErrorMessage("auth/network-request-failed") == GENERIC_FAILURE
  {
  }

  /** The inline hint under the confirmation field. */
  predicate MismatchHint(password: string, confirmPassword: string) {
    password != confirmPassword && confirmPassword != ""
  }

  /**
   * The synchronous part of `handleSubmit`: the old error is cleared and the
   * passwords compared. A mismatch ends the submission with its message and no
   * provider call; otherwise the form turns busy and the call is made.
   */
  function Begin(f: Form): (s: Submission)
    ensures f.password != f.confirmPassword <==> s.call.None?
    ensures s.call.None? ==> s.form == f.(error := Some(MISMATCH))
    ensures s.call.Some? ==> s.call.value == Credentials(f.email, f.password)
    ensures s.call.Some? ==> s.form.loading && s.form.error.None? && s.form.navigatedTo == f.navigatedTo
    ensures s.call.Some? ==> s.form == f.(error := None, loading := true)
  {
    if f.password != f.confirmPassword then Submission(f.(error := Some(MISMATCH)), None)
    else Submission(f.(error := None, loading := true), Some(Credentials(f.email, f.password)))
  }

  /** The part of `handleSubmit` after the provider call settles. */
  function Finish(f: Form, outcome: AuthOutcome): (g: Form)
    ensures !g.loading
    ensures outcome.Created? ==> g.navigatedTo == Some(LOGIN_ROUTE) && g.error == f.error
    ensures outcome.Rejected? ==> g.navigatedTo == f.navigatedTo && g.error == Some(ErrorMessage(outcome.code))
    ensures g.email == f.email && g.password == f.password && g.confirmPassword == f.confirmPassword
  {
    match outcome
    case Created => f.(navigatedTo := Some(LOGIN_ROUTE), loading := false)
    case Rejected(code) => f.(error := Some(ErrorMessage(code)), loading := false)
  }

  /** One whole submission; `outcome` is used only if the provider is called. */
  function Submit(f: Form, outcome: AuthOutcome): (s: Submission)
    ensures f.password != f.confirmPassword ==> s == Submission(f.(error := Some(MISMATCH)), None)
    ensures f.password != f.confirmPassword ==>
      && s.call.None?
      && s.form.error == Some(MISMATCH)
      && s.form.loading == f.loading
      && s.form.navigatedTo == f.navigatedTo
    ensures f.password == f.confirmPassword ==>
      && s.call == Some(Credentials(f.email, f.password))
      && !s.form.loading
      && (outcome.Created? ==> s.form.navigatedTo == Some(LOGIN_ROUTE) && s.form.error.None?)
      && (outcome.Rejected? ==> s.form.navigatedTo == f.navigatedTo && s.form.error == Some(ErrorMessage(outcome.code)))
      && s.form.email == f.email && s.form.password == f.password && s.form.confirmPassword == f.confirmPassword
    ensures s.form == f.(error := s.form.error, loading := s.form.loading, navigatedTo := s.form.navigatedTo)
  {
    var begun := Begin(f);
    if begun.call.None? then begun
    else Submission(Finish(begun.form, outcome), begun.call)
  }

  /** A submission from an idle form never leaves it busy, whatever happens. */
  lemma SubmitEndsIdle(f: Form, outcome: AuthOutcome)
    requires !f.loading
    ensures !Submit(f, outcome).form.loading
  {
  }

  /** The error a submission leaves behind never depends on the error shown before it. */
  lemma SubmitClearsPreviousError(f: Form, outcome: AuthOutcome, previous: Option<string>)
    ensures Submit(f.(error := previous), outcome).form.error == Submit(f, outcome).form.error
    ensures Submit(f.(error := previous), outcome).call == Submit(f, outcome).call
  {
  }

  /**
   * The inline hint is shown only for submissions the check blocks; the check
   * also blocks an empty confirmation of a non-empty password, where no hint
   * is shown.
   */
  lemma HintAgreesWithCheck(f: Form, outcome: AuthOutcome)
    ensures MismatchHint(f.password, f.confirmPassword) ==> Submit(f, outcome).call.None?
    ensures !MismatchHint(f.password, f.confirmPassword) && f.confirmPassword != "" ==> Submit(f, outcome).call.Some?
    ensures f.confirmPassword == "" && f.password != "" ==>
      !MismatchHint(f.password, f.confirmPassword) && Submit(f, outcome).call.None?
  {
  }
}
