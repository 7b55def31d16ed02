/**
  The registration page's client-side checks: `validateForm` runs its checks in a fixed order and
  reports the first one that fails; `handleSubmit` calls `register` only when every check passes.
  Lengths here are JavaScript `.length`, in UTF-16 code units.
*/
module RegisterForm {
  import opened Common
  import opened JsString
  import opened Validators

  /** The username checks of `validateForm` that fail, in the order the form runs them. */
  function UsernameFailures(username: string): (r: seq<Failure>)
    ensures UsernameRequired in r <==> IsBlank(username)
    ensures UsernameLength in r <==> !(3 <= Utf16Length(username) <= 20)
    ensures UsernameChars in r <==> !IsWordString(username)
    ensures forall i :: 0 <= i < |r| ==> r[i] in {UsernameRequired, UsernameLength, UsernameChars}
  {
    FailIf(IsBlank(username), UsernameRequired)
    + FailIf(Utf16Length(username) < 3 || Utf16Length(username) > 20, UsernameLength)
    + FailIf(!IsWordString(username), UsernameChars)
  }

  /** The password checks of `validateForm` that fail, in order; the password is never trimmed. */
  function PasswordFailures(password: string, confirm: string): (r: seq<Failure>)
    ensures PasswordRequired in r <==> |password| == 0
    ensures PasswordLength in r <==> Utf16Length(password) < 6
    ensures PasswordDigit in r <==> !HasDigit(password)
    ensures PasswordLetter in r <==> !HasLetter(password)
    ensures PasswordMismatch in r <==> password != confirm
    ensures forall f :: f in r ==> f.PasswordRequired? || f.PasswordLength? || f.PasswordDigit? || f.PasswordLetter? || f.PasswordMismatch?
  {
    FailIf(|password| == 0, PasswordRequired)
    + FailIf(Utf16Length(password) < 6, PasswordLength)
    + FailIf(!HasDigit(password), PasswordDigit)
    + FailIf(!HasLetter(password), PasswordLetter)
    + FailIf(password != confirm, PasswordMismatch)
  }

  /** Every check of the form that fails, username checks first. */
  function Failures(username: string, password: string, confirm: string): seq<Failure>
  {
    UsernameFailures(username) + PasswordFailures(password, confirm)
  }

  /**
    `validateForm`: the early returns of the form, one check after the other (`!username.trim()` holds
    exactly for a blank username, by `TrimEmptyIffBlank`). It reports exactly the
    first failing check, and clears `localError` and succeeds when none fails.
  */
  function ValidateRegister(username: string, password: string, confirm: string): (r: FormResult)
    ensures r.valid <==> Failures(username, password, confirm) == []
    ensures r.localError == (if r.valid then "" else Text(Failures(username, password, confirm)[0]))
  {
    var first :=
      if IsBlank(username) then Some(UsernameRequired)
      else if Utf16Length(username) < 3 || Utf16Length(username) > 20 then Some(UsernameLength)
      else if !IsWordString(username) then Some(UsernameChars)
      else if |password| == 0 then Some(PasswordRequired)
      else if Utf16Length(password) < 6 then Some(PasswordLength)
      else if !HasDigit(password) then Some(PasswordDigit)
      else if !HasLetter(password) then Some(PasswordLetter)
      else if password != confirm then Some(PasswordMismatch)
      else None;
    Outcome(first)
  }

  /** `handleSubmit`: the arguments `register` is called with, or nothing when validation fails. */
  function RegisterSubmission(username: string, password: string, confirm: string): (call: Option<(string, string)>)
    ensures call.Some? <==> Failures(username, password, confirm) == []
    ensures call.Some? ==> call.value == (username, password)
  {
    if ValidateRegister(username, password, confirm).valid then Some((username, password)) else None
  }

  /** What a form that passes every check holds: a word-character username of 3 to 20 units, and a matching password of at least 6 units with a digit and a letter. */
  lemma {:induction false} FormAccepted(username: string, password: string, confirm: string)
    requires Failures(username, password, confirm) == []
    ensures IsWordString(username) && 3 <= Utf16Length(username) <= 20
    ensures Utf16Length(password) >= 6 && HasDigit(password) && HasLetter(password) && password == confirm
  {
    assert UsernameFailures(username) == [] && PasswordFailures(password, confirm) == [];
  }

  /** A form that passes on the client also passes the server's username length and character rules. */
  lemma {:induction false} ClientAcceptsServerUsername(username: string, password: string, confirm: string, taken: set<string>)
    requires Failures(username, password, confirm) == []
    ensures UsernameLength !in RegisterErrors(username, password, taken)
    ensures UsernameChars !in RegisterErrors(username, password, taken)
  {
    FormAccepted(username, password, confirm);
    var ue := UsernameErrors(username, taken);
    var pe := PasswordErrors(password);
    assert Trim(username) == username by { TrimOfWordString(username); }
    assert UsernameLength !in ue && UsernameChars !in ue by { WordStringLengths(username); }
    assert UsernameLength !in pe && UsernameChars !in pe;
    assert RegisterErrors(username, password, taken) == ue + pe;
  }

  /**
    For a password without astral characters or variation selectors, the two sides agree: the server
    then refuses a client-accepted form only because the username is taken.
  */
  lemma {:induction false} ClientAcceptsServerAgrees(username: string, password: string, confirm: string, taken: set<string>)
    requires Failures(username, password, confirm) == []
    requires forall i :: 0 <= i < |password| ==> password[i] as int <= 0xFFFF && !IsVariationSelector(password[i])
    ensures RegisterErrors(username, password, taken) == (if ToLowerAscii(username) in taken then [UsernameTaken] else [])
  {
    FormAccepted(username, password, confirm);
    var ue := UsernameErrors(username, taken);
    var pe := PasswordErrors(password);
    assert Trim(username) == username by { TrimOfWordString(username); }
    assert pe == [] by {
      ValidatorLengthPlain(password);
      Utf16LengthOfBmp(password);
    }
    assert ue == FailIf(ToLowerAscii(username) in taken, UsernameTaken) by {
      WordStringLengths(username);
    }
    assert RegisterErrors(username, password, taken) == ue + pe;
  }

  /**
    Whatever the server accepts, the client accepts too when the username carries no surrounding
    whitespace (the server trims it, the client does not) and the confirmation matches.
  */
  lemma {:induction false} ServerAcceptsClientAccepts(username: string, password: string, taken: set<string>)
    requires RegisterErrors(username, password, taken) == []
    requires Trim(username) == username
    ensures Failures(username, password, password) == []
  {
    assert UsernameFailures(username) == [] by {
      WordStringLengths(username);
      TrimEmptyIffBlank(username);
    }
    assert PasswordFailures(password, password) == [];
    assert Failures(username, password, password) == UsernameFailures(username) + PasswordFailures(password, password);
  }

  /** Two astral characters and two ASCII ones: six UTF-16 code units, four for `isLength`. */
  lemma {:induction false} AstralLengths(p: string)
    requires p == "\U{1F600}\U{1F600}a1"
    ensures Utf16Length(p) == 6 && ValidatorLength(p) == 4
    ensures HasDigit(p) && HasLetter(p)
  {
    assert p[1..] == "\U{1F600}a1" && p[2..] == "a1" && p[3..] == "1" && p[4..] == "";
    assert p[1..][1..] == p[2..] && p[2..][1..] == p[3..] && p[3..][1..] == p[4..];
    assert Utf16Length(p[3..]) == 1 && Utf16Length(p[2..]) == 2 && Utf16Length(p[1..]) == 4;
    assert ValidatorLength(p[3..]) == 1 && ValidatorLength(p[2..]) == 2 && ValidatorLength(p[1..]) == 3;
    assert IsAsciiDigit(p[3]) && IsAsciiLetter(p[2]);
  }

  /** The username "alice" passes every username check of the form. */
  lemma {:induction false} AliceAccepted()
    ensures UsernameFailures("alice") == []
  {
    assert IsWordString("alice");
    assert !IsBlank("alice") by { assert !IsJsWhitespace("alice"[0]); }
    Utf16LengthOfBmp("alice");
  }

  /**
    An astral character counts twice in `.length` and once in `isLength`: the password
    "😀😀a1" passes the form (length 6) yet fails the server's six-character rule (length 4).
  */
  lemma {:induction false} AstralPasswordDisagreement()
    ensures Failures("alice", "\U{1F600}\U{1F600}a1", "\U{1F600}\U{1F600}a1") == []
    ensures PasswordLength in RegisterErrors("alice", "\U{1F600}\U{1F600}a1", {})
  {
    var p := "\U{1F600}\U{1F600}a1";
    AstralLengths(p);
    AliceAccepted();
    assert PasswordFailures(p, p) == [];
    assert Failures("alice", p, p) == UsernameFailures("alice") + PasswordFailures(p, p);
    assert PasswordLength in PasswordErrors(p);
    assert RegisterErrors("alice", p, {}) == UsernameErrors(Trim("alice"), {}) + PasswordErrors(p);
  }
}
