/**
 * The reset-password form: the two passwords must match before any request
 * is made; the outcome fills either the success message or the error, and
 * only a success schedules the move to the login page.
 */
module ResetPassword {
  import opened Wrappers
  import App

  const MismatchError := "Passwords do not match"
  const GenericError := "An error occurred. Please try again."

  datatype Request = PutPassword(resetToken: string, password: string)

  /**
   * `scheduled` lists the navigations queued by a timer; `message` and
   * `error` are shown when non-empty.
   */
  datatype FormState = FormState(
    resetToken: string, password: string, confirmPassword: string,
    message: string, error: string, sent: seq<Request>, scheduled: seq<App.Path>)

  /** The form for the token taken from the path `/reset-password/:resetToken`. */
  function Initial(resetToken: string): FormState {
    FormState(resetToken, "", "", "", "", [], [])
  }

  function Edited(s: FormState, password: string, confirmPassword: string): FormState {
    s.(password := password, confirmPassword := confirmPassword)
  }

  /** `handleSubmit` up to the awaited request, or to the early return on a mismatch. */
  function SubmitStarted(s: FormState): FormState {
    var cleared := s.(message := "", error := "");
    if s.password != s.confirmPassword then cleared.(error := MismatchError)
    else cleared.(sent := s.sent + [PutPassword(s.resetToken, s.password)])
  }

  /** The try/catch once the request settles; a body without `data` shows no message. */
  function SubmitSettled(s: FormState, outcome: Outcome<Option<string>>): FormState {
    match outcome
    case Success(data) => s.(message := data.GetOr(""), scheduled := s.scheduled + [App.LoginPath])
    case Failure(serverMessage) => s.(error := OrElse(serverMessage, GenericError))
  }

  /** Mismatched passwords: the mismatch error, no message, no request. */
  lemma MismatchMakesNoRequest(s: FormState)
    requires s.password != s.confirmPassword
    ensures SubmitStarted(s).error == MismatchError && SubmitStarted(s).message == ""
    ensures SubmitStarted(s).sent == s.sent && SubmitStarted(s).scheduled == s.scheduled
  {
  }

  /** Matching passwords: both notices cleared and the password sent for the path's token. */
  lemma MatchSendsRequest(s: FormState)
    requires s.password == s.confirmPassword
    ensures SubmitStarted(s).error == "" && SubmitStarted(s).message == ""
    ensures SubmitStarted(s).sent == s.sent + [PutPassword(s.resetToken, s.password)]
  {
  }

  /**
   * A submission with matching passwords: success shows the response's text
   * and no error and schedules the move to login; failure shows an error and
   * no message and schedules nothing.
   */
  lemma SubmitCycle(s: FormState, outcome: Outcome<Option<string>>)
    requires s.password == s.confirmPassword
    ensures var r := SubmitSettled(SubmitStarted(s), outcome);
      && (r.error == "" <==> outcome.Success?)
      && (outcome.Success? ==> r.message == outcome.body.GetOr(""))
      && (outcome.Failure? ==> r.message == "" && r.error == OrElse(outcome.serverMessage, GenericError))
      && (outcome.Success? ==> r.scheduled == s.scheduled + [App.LoginPath])
      && (outcome.Failure? ==> r.scheduled == s.scheduled)
  {
  }

  /** The login redirect is scheduled only by a successful request. */
  lemma RedirectOnlyOnSuccess(s: FormState, outcome: Outcome<Option<string>>)
    ensures |SubmitSettled(s, outcome).scheduled| > |s.scheduled| <==> outcome.Success?
    ensures |SubmitStarted(s).scheduled| == |s.scheduled|
  {
  }

  class ResetPasswordForm {
    const resetToken: string
    var password: string
    var confirmPassword: string
    var message: string
    var error: string
    var sent: seq<Request>
    var scheduled: seq<App.Path>

    function State(): FormState
      reads this
    {
      FormState(resetToken, password, confirmPassword, message, error, sent, scheduled)
    }

    constructor (resetToken: string)
      ensures State() == Initial(resetToken)
    {
      this.resetToken := resetToken;
      password := "";
      confirmPassword := "";
      message := "";
      error := "";
      sent := [];
      scheduled := [];
    }

    method Edit(newPassword: string, newConfirmation: string)
      modifies this
      ensures State() == Edited(old(State()), newPassword, newConfirmation)
    {
      password := newPassword;
      confirmPassword := newConfirmation;
    }

    /** `requested` says whether the request went out. */
    method HandleSubmit() returns (requested: bool)
      modifies this
      ensures State() == SubmitStarted(old(State()))
      ensures requested <==> old(password) == old(confirmPassword)
    {
      message := "";
      error := "";
      if password != confirmPassword {
        error := MismatchError;
        return false;
      }
      sent := sent + [PutPassword(resetToken, password)];
      requested := true;
    }

    method OnSettled(outcome: Outcome<Option<string>>)
      modifies this
      ensures State() == SubmitSettled(old(State()), outcome)
    {
      match outcome {
        case Success(data) =>
          message := data.GetOr("");
          scheduled := scheduled + [App.LoginPath];
        case Failure(serverMessage) =>
          error := OrElse(serverMessage, GenericError);
      }
    }
  }
}
