/** src/components/Login.tsx: the sign-in handler and the password-reset
    handler of the login form. Browser storage is a map; `onLogin` calls
    are counted. */
module Login {
  import opened Common

  const RegisteredEmail := "nazmunnaharhira6@gmail.com"
  const DemoPassword := "123456"
  const MinPasswordLength := 6

  const InvalidCredentialsMessage := "Invalid email or password. Please try again."
  const EmailNotFoundMessage := "Email not found. Please check your email address."
  const PasswordMismatchMessage := "Passwords do not match. Please try again."
  const PasswordTooShortMessage := "Password must be at least 6 characters long."

  const IsAuthenticatedKey := "isAuthenticated"
  const UserEmailKey := "userEmail"
  const UserPasswordKey := "userPassword"

  /** The credential check of `handleSubmit`: a comparison with two
      literals, which reads nothing stored. */
  predicate Accepts(email: string, password: string)
  {
    email == RegisteredEmail && password == DemoPassword
  }

  /** The message of the first reset check that fails, if any. The length
      is JavaScript's `.length`, in UTF-16 code units. */
  function ResetProblem(resetEmail: string, resetPassword: string, confirmPassword: string): (problem: Option<string>)
    ensures problem == Some(EmailNotFoundMessage) <==> resetEmail != RegisteredEmail
    ensures problem == Some(PasswordMismatchMessage)
            <==> resetEmail == RegisteredEmail && resetPassword != confirmPassword
    ensures problem == Some(PasswordTooShortMessage)
            <==> resetEmail == RegisteredEmail && resetPassword == confirmPassword && Utf16Length(resetPassword) < MinPasswordLength
    ensures problem.None?
            <==> resetEmail == RegisteredEmail && resetPassword == confirmPassword && Utf16Length(resetPassword) >= MinPasswordLength
  {
    if resetEmail != RegisteredEmail then Some(EmailNotFoundMessage)
    else if resetPassword != confirmPassword then Some(PasswordMismatchMessage)
    else if Utf16Length(resetPassword) < MinPasswordLength then Some(PasswordTooShortMessage)
    else None
  }

  class LoginForm {
    var email: string
    var password: string
    var error: string
    var loading: bool
    var resetEmail: string
    var resetPassword: string
    var confirmPassword: string
    var resetError: string
    var resetSuccess: bool
    var storage: map<string, string>
    var loginCalls: nat

    constructor (storage: map<string, string>)
      ensures email == "" && password == "" && error == "" && !loading
      ensures resetEmail == "" && resetPassword == "" && confirmPassword == ""
      ensures resetError == "" && !resetSuccess
      ensures this.storage == storage && loginCalls == 0
    {
      email, password, error, loading := "", "", "", false;
      resetEmail, resetPassword, confirmPassword := "", "", "";
      resetError, resetSuccess := "", false;
      this.storage := storage;
      loginCalls := 0;
    }

    /** `handleSubmit`. */
    method HandleSubmit()
      modifies this
      ensures email == old(email) && password == old(password)
      ensures resetEmail == old(resetEmail) && resetPassword == old(resetPassword)
      ensures confirmPassword == old(confirmPassword) && resetError == old(resetError) && resetSuccess == old(resetSuccess)
      ensures !loading
      ensures Accepts(email, password) ==>
        && error == ""
        && storage == old(storage)[IsAuthenticatedKey := "true"][UserEmailKey := email]
        && loginCalls == old(loginCalls) + 1
      ensures !Accepts(email, password) ==>
        && error == InvalidCredentialsMessage
        && storage == old(storage)
        && loginCalls == old(loginCalls)
    {
      error := "";
      loading := true;
      if Accepts(email, password) {
        storage := storage[IsAuthenticatedKey := "true"];
        storage := storage[UserEmailKey := email];
        loginCalls := loginCalls + 1;
      } else {
        error := InvalidCredentialsMessage;
      }
      loading := false;
    }

    /** `handleResetPassword`. */
    method HandleResetPassword()
      modifies this
      ensures email == old(email) && password == old(password) && error == old(error) && loading == old(loading)
      ensures resetEmail == old(resetEmail) && resetPassword == old(resetPassword)
      ensures confirmPassword == old(confirmPassword) && loginCalls == old(loginCalls)
      ensures var problem := ResetProblem(resetEmail, resetPassword, confirmPassword);
        if problem.Some? then
          && resetError == problem.value
          && storage == old(storage)
          && resetSuccess == old(resetSuccess)
        else
          && resetError == ""
          && storage == old(storage)[UserPasswordKey := resetPassword]
          && resetSuccess
    {
      resetError := "";
      if resetEmail != RegisteredEmail {
        resetError := EmailNotFoundMessage;
        return;
      }
      if resetPassword != confirmPassword {
        resetError := PasswordMismatchMessage;
        return;
      }
      if Utf16Length(resetPassword) < MinPasswordLength {
        resetError := PasswordTooShortMessage;
        return;
      }
      storage := storage[UserPasswordKey := resetPassword];
      resetSuccess := true;
    }
  }

  /** A successful sign-in's two writes, as one merge of two entries. */
  lemma SignInWritesBothKeys(m: map<string, string>)
    ensures m[IsAuthenticatedKey := "true"][UserEmailKey := RegisteredEmail]
         == m + map[IsAuthenticatedKey := "true", UserEmailKey := RegisteredEmail]
  {
  }

  /** Resetting the password and then signing in with the new one: the
      reset stores the new password when it is long enough, yet sign-in
      still accepts exactly the built-in password. */
  method SignInAfterReset(storage: map<string, string>, newPassword: string)
    returns (accepted: bool, stored: map<string, string>)
    ensures accepted <==> newPassword == DemoPassword
    ensures stored ==
      (if Utf16Length(newPassword) >= MinPasswordLength then storage[UserPasswordKey := newPassword] else storage)
      + (if accepted then map[IsAuthenticatedKey := "true", UserEmailKey := RegisteredEmail] else map[])
  {
    var form := new LoginForm(storage);
    form.resetEmail := RegisteredEmail;
    form.resetPassword := newPassword;
    form.confirmPassword := newPassword;
    ghost var long := Utf16Length(newPassword) >= MinPasswordLength;
    assert ResetProblem(RegisteredEmail, newPassword, newPassword).None? <==> long;
    form.HandleResetPassword();
    ghost var afterReset := if long then storage[UserPasswordKey := newPassword] else storage;
    assert form.storage == afterReset;
    form.email := RegisteredEmail;
    form.password := newPassword;
    assert Accepts(RegisteredEmail, newPassword) <==> newPassword == DemoPassword;
    form.HandleSubmit();
    assert form.loginCalls == 1 <==> newPassword == DemoPassword;
    accepted := form.loginCalls == 1;
    if accepted {
      assert |newPassword| == 6 && long;
      SignInWritesBothKeys(afterReset);
    }
    stored := form.storage;
  }

  /** Three emoji make a password long enough: each is two UTF-16 code
      units, so `.length` is 6 although there are only three characters. */
  lemma ThreeEmojiPasswordIsLongEnough()
    ensures ResetProblem(RegisteredEmail, "\U{1F600}\U{1F600}\U{1F600}", "\U{1F600}\U{1F600}\U{1F600}").None?
  {
    var p := "\U{1F600}\U{1F600}\U{1F600}";
    assert p[0] == p[1] == p[2] == '\U{1F600}';
  }
}
