/**
 * The forgot-password form: one request per submission, and a notice that
 * reports its outcome, flagged as an error exactly when the request failed.
 */
module ForgotPassword {
  import opened Wrappers

  const LinkSentMessage := "Password reset link has been sent to your email. Please check your inbox."
  const DefaultSentMessage := "Email sent successfully"
  const GenericError := "An error occurred. Please try again."

  datatype Request = SendResetLink(email: string)

  /** The success body `{ success, data }`; `success` is taken at its truthiness. */
  datatype Response = Response(success: bool, data: Option<string>)

  /** The message shown under the heading and whether it is styled as an error. */
  datatype Notice = Notice(text: string, isError: bool)

  /** The notice for a settled request. */
  function NoticeFor(outcome: Outcome<Response>): (n: Notice)
    ensures n.isError <==> outcome.Failure?
    ensures n.text != ""
    ensures outcome.Success? && outcome.body.success ==> n.text == LinkSentMessage
    ensures outcome.Success? && !outcome.body.success ==> n.text == OrElse(outcome.body.data, DefaultSentMessage)
    ensures outcome.Failure? ==> n.text == OrElse(outcome.serverMessage, GenericError)
  {
    match outcome
    case Success(response) =>
      if response.success then Notice(LinkSentMessage, false)
      else Notice(OrElse(response.data, DefaultSentMessage), false)
    case Failure(serverMessage) =>
      Notice(OrElse(serverMessage, GenericError), true)
  }

  datatype FormState = FormState(email: string, message: string, isError: bool, loading: bool, sent: seq<Request>)

  function Initial(): FormState {
    FormState("", "", false, false, [])
  }

  function Edited(s: FormState, email: string): FormState {
    s.(email := email)
  }

  /** `handleSubmit` up to the awaited request. */
  function SubmitStarted(s: FormState): FormState {
    s.(loading := true, message := "", sent := s.sent + [SendResetLink(s.email)])
  }

  /** The try/catch/finally once the request settles. */
  function SubmitSettled(s: FormState, outcome: Outcome<Response>): FormState {
    var n := NoticeFor(outcome);
    s.(message := n.text, isError := n.isError, loading := false)
  }

  /** While the request is out, the button is disabled and no message is shown. */
  lemma WhileSending(s: FormState)
    ensures SubmitStarted(s).loading && SubmitStarted(s).message == ""
    ensures SubmitStarted(s).sent == s.sent + [SendResetLink(s.email)]
    ensures SubmitStarted(s).email == s.email
  {
  }

  /** After a submission settles: loading is off, a message is shown, and it is an error iff the request failed. */
  lemma SubmitCycle(s: FormState, outcome: Outcome<Response>)
    ensures var r := SubmitSettled(SubmitStarted(s), outcome);
      && !r.loading
      && r.message != ""
      && (r.isError <==> outcome.Failure?)
      && r.sent == s.sent + [SendResetLink(s.email)]
      && r.email == s.email
  {
  }

  class ForgotPasswordForm {
    var email: string
    var message: string
    var isError: bool
    var loading: bool
    var sent: seq<Request>

    function State(): FormState
      reads this
    {
      FormState(email, message, isError, loading, sent)
    }

    constructor ()
      ensures State() == Initial()
    {
      email := "";
      message := "";
      isError := false;
      loading := false;
      sent := [];
    }

    method Edit(newEmail: string)
      modifies this
      ensures State() == Edited(old(State()), newEmail)
    {
      email := newEmail;
    }

    method HandleSubmit()
      modifies this
      ensures State() == SubmitStarted(old(State()))
    {
      loading := true;
      message := "";
      sent := sent + [SendResetLink(email)];
    }

    method OnSettled(outcome: Outcome<Response>)
      modifies this
      ensures State() == SubmitSettled(old(State()), outcome)
    {
      match outcome {
        case Success(response) =>
          if response.success {
            message := LinkSentMessage;
            isError := false;
          } else {
            message := OrElse(response.data, DefaultSentMessage);
            isError := false;
          }
        case Failure(serverMessage) =>
          message := OrElse(serverMessage, GenericError);
          isError := true;
      }
      loading := false;
    }
  }
}
