/** The reset-password page: the check that the recovery link still has a session, and the form that
    validates the new password (the two entries must match, then it must be long enough) before
    asking the auth service to update it. The auth service is a parameter: its answer is given to
    the handler. */
module ResetPassword {
  import opened JsText

  const LinkExpired: string := "El enlace ha expirado o es inválido. Por favor solicita uno nuevo."
  const PasswordsDiffer: string := "Las contraseñas no coinciden"
  const PasswordTooShort: string := "La contraseña debe tener al menos 6 caracteres"
  const SomethingFailed: string := "Ocurrió un error"

  /** The fewest characters a new password may have. */
  const MinPasswordLength: nat := 6

  /** What the form makes of the two entries, in the order it checks them. */
  datatype Verdict = Mismatch | TooShort | Accepted

  /** The entries are compared first, so a short password that does not match its confirmation is
      reported as a mismatch; a matching one is accepted exactly when it is long enough. */
  function Validate(password: string, confirmation: string): (v: Verdict)
    ensures v == Mismatch <==> password != confirmation
    ensures v == TooShort <==> password == confirmation && |password| < MinPasswordLength
    ensures v == Accepted <==> password == confirmation && |password| >= MinPasswordLength
  {
    if password != confirmation then Mismatch
    else if |password| < MinPasswordLength then TooShort
    else Accepted
  }

  /** The message the form shows for a rejected entry. */
  function VerdictMessage(v: Verdict): (r: Option<string>)
    ensures r.None? <==> v == Accepted
  {
    match v
    case Mismatch => Some(PasswordsDiffer)
    case TooShort => Some(PasswordTooShort)
    case Accepted => None
  }

  /** What the update throws: an `Error` carrying its message, or any other value. */
  datatype Failure = ErrorObject(message: string) | OtherValue

  /** `err instanceof Error ? err.message : 'Ocurrió un error'` */
  function FailureMessage(f: Failure): (r: string)
    ensures f.ErrorObject? ==> r == f.message
    ensures f.OtherValue? ==> r == SomethingFailed
  {
    match f
    case ErrorObject(message) => message
    case OtherValue => SomethingFailed
  }

  /** The page's state. */
  class ResetPasswordPage {
    var password: string
    var confirmPassword: string
    var loading: bool
    var error: Option<string>
    var success: bool

    constructor ()
      ensures password == "" && confirmPassword == ""
      ensures !loading && error == None && !success
    {
      password := "";
      confirmPassword := "";
      loading := false;
      error := None;
      success := false;
    }

    /** The two inputs' change handlers. */
    method Enter(newPassword: string, newConfirmation: string)
      modifies this
      ensures password == newPassword && confirmPassword == newConfirmation
      ensures loading == old(loading) && error == old(error) && success == old(success)
    {
      password := newPassword;
      confirmPassword := newConfirmation;
    }

    /** The mount effect: without a session the link is reported as expired; with one nothing changes. */
    method CheckSession(hasSession: bool)
      modifies this
      ensures !hasSession ==> error == Some(LinkExpired)
      ensures hasSession ==> error == old(error)
      ensures password == old(password) && confirmPassword == old(confirmPassword)
      ensures loading == old(loading) && success == old(success)
    {
      if !hasSession {
        error := Some(LinkExpired);
      }
    }

    /** `handleResetPassword`. A rejected entry sets its message and asks for nothing. An accepted one
        clears the message and sends the password to the auth service, whose answer is `outcome` (no
        failure, or what it threw): success is set only when nothing was thrown, the thrown message
        is shown otherwise, and loading ends in either case. `sent` is the password sent. */
    method HandleResetPassword(outcome: Option<Failure>) returns (sent: Option<string>)
      modifies this
      ensures var v := Validate(old(password), old(confirmPassword));
        (sent.Some? <==> v == Accepted) &&
        (v != Accepted ==> error == VerdictMessage(v) && loading == old(loading) && success == old(success))
      ensures sent.Some? ==> sent.value == old(password) && |sent.value| >= MinPasswordLength
      ensures sent.Some? ==> !loading
      ensures sent.Some? && outcome.None? ==> success && error == None
      ensures sent.Some? && outcome.Some? ==> success == old(success) && error == Some(FailureMessage(outcome.value))
      ensures password == old(password) && confirmPassword == old(confirmPassword)
    {
      if password != confirmPassword {
        error := Some(PasswordsDiffer);
        return None;
      }
      if |password| < MinPasswordLength {
        error := Some(PasswordTooShort);
        return None;
      }
      loading := true;
      error := None;
      sent := Some(password);
      if outcome.None? {
        success := true;
      } else {
        error := Some(FailureMessage(outcome.value));
      }
      loading := false;
    }
  }

  /** A short password that does not match its confirmation gets the mismatch message, not the
      length one. */
  lemma MismatchReportedFirst(password: string, confirmation: string)
    requires password != confirmation && |password| < MinPasswordLength
    ensures VerdictMessage(Validate(password, confirmation)) == Some(PasswordsDiffer)
  {
  }
}
