/** The sign-up form: the password-confirmation check, the message shown for each auth error
    code, and the form's state after a submission. */
module SignUpForm {
  import opened Wrappers
  import opened AuthOutcomes

  const PasswordMismatch := "Passwords do not match."
  const EmailInUse := "Email is already in use."
  const WeakPassword := "Password must be at least 6 characters."
  const AccountCreated := "Account created successfully. You can now log in."

  /** The `switch` on the rejected account creation's error code. */
  function ErrorMessage(code: string): (msg: string)
    ensures msg in {EmailInUse, InvalidEmail, WeakPassword, UnexpectedError}
    ensures msg == EmailInUse <==> code == "auth/email-already-in-use"
    ensures msg == InvalidEmail <==> code == "auth/invalid-email"
    ensures msg == WeakPassword <==> code == "auth/weak-password"
  {
    match code
    case "auth/email-already-in-use" => EmailInUse
    case "auth/invalid-email" => InvalidEmail
    case "auth/weak-password" => WeakPassword
    case _ => UnexpectedError
  }

  /** No auth error is reported with the mismatch message, so the two failures stay distinguishable. */
  lemma MismatchIsNotAnAuthError(code: string)
    ensures ErrorMessage(code) != PasswordMismatch
  {
  }

  /** The form's state. */
  class SignUp {
    var email: string
    var password: string
    var confirmPassword: string
    var error: Option<string>
    var success: Option<string>

    /** The form never shows an error and a success message together. */
    ghost predicate Exclusive()
      reads this
    {
      error.None? || success.None?
    }

    constructor ()
      ensures email == "" && password == "" && confirmPassword == "" && error == None && success == None
      ensures Exclusive()
    {
      email := "";
      password := "";
      confirmPassword := "";
      error := None;
      success := None;
    }

    /** `handleSubmit`: both messages are cleared; with differing passwords the mismatch is reported
        and no account creation is attempted (`attempted`); otherwise `outcome` is the creation's
        result. */
    method HandleSubmit(outcome: AuthOutcome) returns (attempted: bool)
      modifies this
      ensures attempted <==> old(password) == old(confirmPassword)
      ensures !attempted ==> error == Some(PasswordMismatch) && success == None
      ensures attempted && outcome.Resolved? ==>
        success == Some(AccountCreated) && error == None && email == "" && password == "" && confirmPassword == ""
      ensures attempted && outcome.Rejected? ==> error == Some(ErrorMessage(outcome.code)) && success == None
      ensures !(attempted && outcome.Resolved?) ==>
        email == old(email) && password == old(password) && confirmPassword == old(confirmPassword)
      ensures Exclusive()
    {
      error := None;
      success := None;
      if password != confirmPassword {
        error := Some(PasswordMismatch);
        return false;
      }
      attempted := true;
      match outcome {
        case Resolved =>
          success := Some(AccountCreated);
          email := "";
          password := "";
          confirmPassword := "";
        case Rejected(code) =>
          error := Some(ErrorMessage(code));
      }
    }
  }
}
