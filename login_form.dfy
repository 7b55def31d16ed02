/**
  The login page's client-side checks: a username that is not blank, then a password that is not
  empty; `handleSubmit` calls `login` only when both pass.
*/
module LoginForm {
  import opened Common
  import opened JsString
  import opened Validators

  /**
    `validateForm`: 'Username is required' for a blank username, else 'Password is required' for an
    empty password. It agrees with the server's `loginValidation` exactly, on the verdict and on the
    first message; a whitespace-only password passes both.
  */
  function ValidateLogin(username: string, password: string): (r: FormResult)
    ensures r.valid <==> LoginErrors(username, password) == []
    ensures !r.valid ==> r.localError == Text(LoginErrors(username, password)[0])
    ensures r.valid ==> r.localError == ""
  {
    TrimEmptyIffBlank(username);
    Outcome(
      if Trim(username) == "" then Some(UsernameRequired)
      else if password == "" then Some(PasswordRequired)
      else None)
  }

  /** `handleSubmit`: the arguments `login` is called with, or nothing when validation fails. */
  function LoginSubmission(username: string, password: string): (call: Option<(string, string)>)
    ensures call.Some? <==> ValidateLogin(username, password).valid
    ensures call.Some? ==> call.value == (username, password)
  {
    if ValidateLogin(username, password).valid then Some((username, password)) else None
  }
}
