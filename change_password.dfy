/**
 * The change-password form (src/ChangePassword.tsx): three local checks in a
 * fixed order, then one request whose outcome decides the messages shown.
 */
module ChangePassword {
  import opened Common
  import opened Gateway
  import opened Storage

  const NotLoggedIn := "❌ User not logged in."
  const Mismatch := "❌ New password and confirm password do not match."
  const TooShort := "❌ Password must be at least 6 characters."
  const Changed := "✅ Password changed successfully!"
  const GenericFailure := "❌ Failed to change password"
  const MinLength := 6
  const AfterSuccessPath := "/profile"

  /** The request body `{ currentPassword, newPassword }`, sent for one user. */
  datatype PasswordRequest = PasswordRequest(userId: string, currentPassword: string, newPassword: string)

  /** The local checks either let the request go or stop with one message. */
  datatype Decision = Send(request: PasswordRequest) | Refuse(error: string)

  /** The checks of `handleSubmit`: logged in, then matching, then long enough. */
  function Validate(userId: Option<string>, current: string, newPassword: string, confirm: string): (d: Decision)
    ensures d.Send? <==> Present(userId) && newPassword == confirm && |newPassword| >= MinLength
    ensures d.Send? ==> d.request == PasswordRequest(userId.value, current, newPassword)
    ensures !Present(userId) ==> d == Refuse(NotLoggedIn)
    ensures Present(userId) && newPassword != confirm ==> d == Refuse(Mismatch)
    ensures Present(userId) && newPassword == confirm && |newPassword| < MinLength ==> d == Refuse(TooShort)
  {
    if !Present(userId) then Refuse(NotLoggedIn)
    else if newPassword != confirm then Refuse(Mismatch)
    else if |newPassword| < MinLength then Refuse(TooShort)
    else Send(PasswordRequest(userId.value, current, newPassword))
  }

  /**
   * Only the first failing check speaks: a missing user hides every other
   * problem, and for any user a mismatch hides a short password.
   */
  lemma FirstFailureWins(current: string, newPassword: string, confirm: string)
    ensures Validate(None, current, newPassword, confirm) == Refuse(NotLoggedIn)
    ensures Validate(Some(""), current, newPassword, confirm) == Refuse(NotLoggedIn)
    ensures forall u: string :: u != "" && newPassword != confirm ==>
              Validate(Some(u), current, newPassword, confirm) == Refuse(Mismatch)
  {
  }

  /** The error of a rejected request: the server's message when truthy, else the generic one. */
  function FailureMessage(outcome: AxiosOutcome): (m: string)
    requires !outcome.Resolved?
    ensures m != ""
    ensures outcome.Rejected? && Present(outcome.message.AsOption()) ==> m == outcome.message.text
    ensures outcome.Rejected? && !Present(outcome.message.AsOption()) ==> m == GenericFailure
    ensures outcome.NoResponse? ==> m == GenericFailure
  {
    match outcome
    case Rejected(message) => OrElse(message.AsOption(), GenericFailure)
    case NoResponse(_) => GenericFailure
  }

  /** A missing, `null` or empty server message all fall back to the generic text. */
  lemma FalsyMessagesAlike()
    ensures FailureMessage(Rejected(Absent)) == FailureMessage(Rejected(Null))
            == FailureMessage(Rejected(Text(""))) == GenericFailure
  {
  }

  class ChangePasswordForm {
    var currentPassword: string
    var newPassword: string
    var confirmPassword: string
    var error: string
    var success: string
    const userId: Option<string>

    /** At most one of the two messages is shown. */
    ghost predicate Valid()
      reads this
    {
      error == "" || success == ""
    }

    constructor (store: Store)
      ensures Valid()
      ensures userId == store.GetItem("userId")
      ensures currentPassword == newPassword == confirmPassword == error == success == ""
    {
      userId := store.GetItem("userId");
      currentPassword, newPassword, confirmPassword := "", "", "";
      error, success := "", "";
    }

    method EditCurrent(value: string)
      requires Valid()
      modifies this
      ensures Valid()
      ensures currentPassword == value
      ensures newPassword == old(newPassword) && confirmPassword == old(confirmPassword)
      ensures error == old(error) && success == old(success)
    {
      currentPassword := value;
    }

    method EditNew(value: string)
      requires Valid()
      modifies this
      ensures Valid()
      ensures newPassword == value
      ensures currentPassword == old(currentPassword) && confirmPassword == old(confirmPassword)
      ensures error == old(error) && success == old(success)
    {
      newPassword := value;
    }

    method EditConfirm(value: string)
      requires Valid()
      modifies this
      ensures Valid()
      ensures confirmPassword == value
      ensures currentPassword == old(currentPassword) && newPassword == old(newPassword)
      ensures error == old(error) && success == old(success)
    {
      confirmPassword := value;
    }

    /**
     * `handleSubmit`, given the outcome the request would have. Both messages
     * are cleared first; a failed check sets its error and sends nothing; a
     * sent request either succeeds (message set, fields emptied, navigation to
     * the profile) or fails (error set, fields kept).
     */
    method Submit(outcome: AxiosOutcome) returns (sent: Option<PasswordRequest>, navigateTo: Option<string>)
      modifies this
      ensures Valid()
      ensures var d := Validate(userId, old(currentPassword), old(newPassword), old(confirmPassword));
              sent == (if d.Send? then Some(d.request) else None)
      ensures sent.None? ==>
                && error == Validate(userId, old(currentPassword), old(newPassword), old(confirmPassword)).error
                && success == "" && navigateTo == None
                && currentPassword == old(currentPassword) && newPassword == old(newPassword)
                && confirmPassword == old(confirmPassword)
      ensures sent.Some? && outcome.Resolved? ==>
                && success == Changed && error == ""
                && currentPassword == newPassword == confirmPassword == ""
                && navigateTo == Some(AfterSuccessPath)
      ensures sent.Some? && !outcome.Resolved? ==>
                && error == FailureMessage(outcome) && success == "" && navigateTo == None
                && currentPassword == old(currentPassword) && newPassword == old(newPassword)
                && confirmPassword == old(confirmPassword)
    {
      error := "";
      success := "";
      navigateTo := None;
      var decision := Validate(userId, currentPassword, newPassword, confirmPassword);
      if decision.Refuse? {
        error := decision.error;
        sent := None;
        return;
      }
      sent := Some(decision.request);
      if outcome.Resolved? {
        success := Changed;
        currentPassword := "";
        newPassword := "";
        confirmPassword := "";
        navigateTo := Some(AfterSuccessPath);
      } else {
        error := FailureMessage(outcome);
      }
    }
  }
}
