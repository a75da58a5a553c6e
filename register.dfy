/**
 * The registration form (src/Components/Register.tsx): a local match check,
 * then one request whose outcome picks the message and the navigation.
 */
module Register {
  import opened Common
  import opened Gateway

  const Mismatch := "❌ Passwords do not match!"
  const Registered := "✅ Registered successfully!"
  const CannotConnect := "❌ Cannot connect to server"
  const AfterSuccessPath := "/login"

  /** The request body `{ username, email, password }`. */
  datatype RegisterRequest = RegisterRequest(username: string, email: string, password: string)

  /** How a `message` field prints inside a template literal: a missing one as "undefined", `null` as "null". */
  function TemplateText(v: JsonText): (s: string)
    ensures v.Text? ==> s == v.text
    ensures v.Absent? ==> s == "undefined"
    ensures v.Null? ==> s == "null"
  {
    match v
    case Text(t) => t
    case Absent => "undefined"
    case Null => "null"
  }

  /** The message after the request settles, and where the form navigates. */
  function Settled(outcome: AxiosOutcome): (r: (string, Option<string>))
    ensures r.1.Some? <==> outcome.Resolved?
    ensures outcome.Resolved? ==> r == (Registered, Some(AfterSuccessPath))
    ensures outcome.Rejected? ==> r.0 == "❌ " + TemplateText(outcome.message)
    ensures outcome.NoResponse? ==> r.0 == CannotConnect
  {
    match outcome
    case Resolved => (Registered, Some(AfterSuccessPath))
    case Rejected(message) => ("❌ " + TemplateText(message), None)
    case NoResponse(_) => (CannotConnect, None)
  }

  /** A server rejection message is shown behind the cross, verbatim. */
  lemma RejectionShownVerbatim(message: string)
    ensures Settled(Rejected(Text(message))).0[2..] == message
  {
  }

  /** A missing and a `null` message are shown differently, as the words "undefined" and "null". */
  lemma MissingAndNullMessages()
    ensures Settled(Rejected(Absent)).0 == "❌ undefined"
    ensures Settled(Rejected(Null)).0 == "❌ null"
  {
  }

  class RegisterForm {
    var username: string
    var email: string
    var password: string
    var confirmPassword: string
    var message: string

    constructor ()
      ensures username == email == password == confirmPassword == message == ""
    {
      username, email, password, confirmPassword, message := "", "", "", "", "";
    }

    /** The four `onChange` handlers: each sets its own field and nothing else. */
    method EditUsername(value: string)
      modifies this
      ensures username == value
      ensures email == old(email) && password == old(password) && confirmPassword == old(confirmPassword)
      ensures message == old(message)
    {
      username := value;
    }

    method EditEmail(value: string)
      modifies this
      ensures email == value
      ensures username == old(username) && password == old(password) && confirmPassword == old(confirmPassword)
      ensures message == old(message)
    {
      email := value;
    }

    method EditPassword(value: string)
      modifies this
      ensures password == value
      ensures username == old(username) && email == old(email) && confirmPassword == old(confirmPassword)
      ensures message == old(message)
    {
      password := value;
    }

    method EditConfirm(value: string)
      modifies this
      ensures confirmPassword == value
      ensures username == old(username) && email == old(email) && password == old(password)
      ensures message == old(message)
    {
      confirmPassword := value;
    }

    /**
     * `handleRegister`, given the outcome the request would have: different
     * passwords stop it with the mismatch message; otherwise the entered
     * fields are sent and the outcome decides the message and navigation.
     */
    method HandleRegister(outcome: AxiosOutcome) returns (sent: Option<RegisterRequest>, navigateTo: Option<string>)
      modifies this`message
      ensures sent.Some? <==> old(password) == old(confirmPassword)
      ensures sent.None? ==> message == Mismatch && navigateTo == None
      ensures sent.Some? ==> sent.value == RegisterRequest(username, email, password)
      ensures sent.Some? ==> (message, navigateTo) == Settled(outcome)
    {
      if password != confirmPassword {
        message := Mismatch;
        sent, navigateTo := None, None;
        return;
      }
      sent := Some(RegisterRequest(username, email, password));
      var settled := Settled(outcome);
      message, navigateTo := settled.0, settled.1;
    }
  }
}
