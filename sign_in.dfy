/** The sign-in form: the message shown for each auth error code, where on the form it appears,
    and the error and loading flags around a submission. */
module SignInForm {
  import opened Wrappers
  import opened AuthOutcomes
  import Text

  const UserNotFound := "No user found with this email."
  const WrongPassword := "Incorrect password."

  /** The `switch` on the rejected sign-in's error code. */
  function ErrorMessage(code: string): (msg: string)
    ensures msg in {UserNotFound, WrongPassword, InvalidEmail, UnexpectedError}
    ensures msg == UserNotFound <==> code == "auth/user-not-found"
    ensures msg == WrongPassword <==> code == "auth/wrong-password"
    ensures msg == InvalidEmail <==> code == "auth/invalid-email"
  {
    match code
    case "auth/user-not-found" => UserNotFound
    case "auth/wrong-password" => WrongPassword
    case "auth/invalid-email" => InvalidEmail
    case _ => UnexpectedError
  }

  /** The error is shown under the email field. */
  predicate ShownAtEmail(error: Option<string>)
    ensures ShownAtEmail(error) ==> IsSet(error) && |error.value| >= |"email"|
  {
    IsSet(error) && Text.Includes(error.value, "email")
  }

  /** The error is shown under the password field. */
  predicate ShownAtPassword(error: Option<string>)
    ensures ShownAtPassword(error) ==> IsSet(error) && |error.value| >= |"password"|
  {
    IsSet(error) && Text.Includes(error.value, "password")
  }

  /** The error is shown as a general message below both fields: the fallback for every error that
      neither field shows. */
  predicate ShownGeneral(error: Option<string>)
    ensures ShownGeneral(error) <==> IsSet(error) && !ShownAtEmail(error) && !ShownAtPassword(error)
  {
    IsSet(error) && !Text.Includes(error.value, "email") && !Text.Includes(error.value, "password")
  }

  /** Where each message goes: the two email messages under the email field, the password message
      under the password field, the fallback in the general slot. */
  lemma UserNotFoundAtEmail()
    ensures ShownAtEmail(Some(UserNotFound)) && !ShownAtPassword(Some(UserNotFound))
  {
    assert Text.OccursAt(UserNotFound, "email", 24);
    assert UserNotFound == "No user found " + "with this email.";
    Text.MissingCharNotIncluded(UserNotFound, "password", 'p');
  }

  lemma InvalidEmailAtEmail()
    ensures ShownAtEmail(Some(InvalidEmail)) && !ShownAtPassword(Some(InvalidEmail))
  {
    assert Text.OccursAt(InvalidEmail, "email", 8);
    Text.MissingCharNotIncluded(InvalidEmail, "password", 'p');
  }

  lemma WrongPasswordAtPassword()
    ensures ShownAtPassword(Some(WrongPassword)) && !ShownAtEmail(Some(WrongPassword))
  {
    assert Text.OccursAt(WrongPassword, "password", 10);
    Text.MissingCharNotIncluded(WrongPassword, "email", 'm');
  }

  /** The fallback message has neither an 'm' nor a 'w'. */
  lemma UnexpectedErrorLacksM()
    ensures 'm' !in UnexpectedError
  {
    var head, tail := "An unexpected error ", "occurred. Please try again.";
    assert UnexpectedError == head + tail;
  }

  lemma UnexpectedErrorLacksW()
    ensures 'w' !in UnexpectedError
  {
    var head, tail := "An unexpected error ", "occurred. Please try again.";
    assert UnexpectedError == head + tail;
  }

  lemma UnexpectedErrorGeneral()
    ensures ShownGeneral(Some(UnexpectedError))
  {
    UnexpectedErrorLacksM();
    UnexpectedErrorLacksW();
    Text.MissingCharNotIncluded(UnexpectedError, "email", 'm');
    Text.MissingCharNotIncluded(UnexpectedError, "password", 'w');
  }

  /** Every message the mapping produces is shown in exactly one of the three slots. */
  lemma ExactlyOneSlot(code: string)
    ensures var e := Some(ErrorMessage(code));
      (ShownAtEmail(e) && !ShownAtPassword(e) && !ShownGeneral(e)) ||
      (!ShownAtEmail(e) && ShownAtPassword(e) && !ShownGeneral(e)) ||
      (!ShownAtEmail(e) && !ShownAtPassword(e) && ShownGeneral(e))
  {
    var msg := ErrorMessage(code);
    if msg == UserNotFound {
      UserNotFoundAtEmail();
    } else if msg == WrongPassword {
      WrongPasswordAtPassword();
    } else if msg == InvalidEmail {
      InvalidEmailAtEmail();
    } else {
      UnexpectedErrorGeneral();
    }
  }

  /** The form's state. `redirected` records the navigation to the dashboard. */
  class SignIn {
    var email: string
    var password: string
    var error: Option<string>
    var isLoading: bool
    var redirected: bool

    constructor ()
      ensures email == "" && password == "" && error == None && !isLoading && !redirected
    {
      email := "";
      password := "";
      error := None;
      isLoading := false;
      redirected := false;
    }

    /** `handleSubmit` up to the auth call: the error is cleared and the form is loading. */
    method BeginSubmit()
      modifies this`error, this`isLoading
      ensures error == None && isLoading
    {
      error := None;
      isLoading := true;
    }

    /** `handleSubmit` after the auth call settles: on success go to the dashboard, on failure
        show the code's message; loading ends either way. */
    method FinishSubmit(outcome: AuthOutcome)
      modifies this`error, this`isLoading, this`redirected
      ensures !isLoading
      ensures outcome.Resolved? ==> error == old(error) && redirected
      ensures outcome.Rejected? ==> error == Some(ErrorMessage(outcome.code)) && redirected == old(redirected)
    {
      match outcome {
        case Resolved =>
          redirected := true;
        case Rejected(code) =>
          error := Some(ErrorMessage(code));
      }
      isLoading := false;
    }

    /** A whole submission: a successful one leaves no error, a failed one exactly one message. */
    method HandleSubmit(outcome: AuthOutcome)
      modifies this`error, this`isLoading, this`redirected
      ensures !isLoading && email == old(email) && password == old(password)
      ensures outcome.Resolved? ==> error == None && redirected
      ensures outcome.Rejected? ==> error == Some(ErrorMessage(outcome.code)) && redirected == old(redirected)
    {
      BeginSubmit();
      FinishSubmit(outcome);
    }
  }
}
