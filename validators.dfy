/**
  The express-validator rule chains of the REST endpoints. A chain runs every one of its validators
  (none of them bails), so each rule set yields the ordered list of the rules that fail, empty when
  the request is valid. A missing body field reads as the empty string.
*/
module Validators {
  import opened Common
  import opened JsString

  /** The failures the server rules and the client forms report; `Text` gives the message each carries. */
  datatype Failure =
    | UsernameRequired | UsernameLength | UsernameChars | UsernameTaken
    | PasswordRequired | PasswordLength | PasswordDigit | PasswordLetter | PasswordMismatch
    | ContentRequired | ContentTooLong

  function Text(f: Failure): (s: string)
    ensures |s| > 0
  {
    match f
    case UsernameRequired => "Username is required"
    case UsernameLength => "Username must be between 3 and 20 characters"
    case UsernameChars => "Username can only contain letters, numbers, and underscores"
    case UsernameTaken => "Username already exists"
    case PasswordRequired => "Password is required"
    case PasswordLength => "Password must be at least 6 characters"
    case PasswordDigit => "Password must contain at least one number"
    case PasswordLetter => "Password must contain at least one letter"
    case PasswordMismatch => "Passwords do not match"
    case ContentRequired => "Message content is required"
    case ContentTooLong => "Message cannot exceed 2000 characters"
  }

  /** The failure list of one check: `[f]` when the check fails, empty otherwise. */
  function FailIf(bad: bool, f: Failure): (r: seq<Failure>)
    ensures forall g :: g in r <==> bad && g == f
  {
    if bad then [f] else []
  }

  /** What a client form's `validateForm` leaves behind: its return value and the `localError` it set. */
  datatype FormResult = FormResult(valid: bool, localError: string)

  /** The result of a form whose first failing check is `first`, or that passed every check. */
  function Outcome(first: Option<Failure>): (r: FormResult)
    ensures r.valid <==> first.None?
    ensures r.valid <==> r.localError == ""
  {
    match first
    case None => FormResult(true, "")
    case Some(f) => FormResult(false, Text(f))
  }

  /** A variation selector (U+FE0E or U+FE0F), which `isLength` does not count. */
  predicate IsVariationSelector(c: char) { c == '\U{FE0E}' || c == '\U{FE0F}' }

  /** The length `isLength` measures: code points, a surrogate pair counting once, variation selectors not at all. */
  function ValidatorLength(s: string): (n: nat)
    ensures n <= |s|
  {
    if s == [] then 0 else (if IsVariationSelector(s[0]) then 0 else 1) + ValidatorLength(s[1..])
  }

  /** Without variation selectors, `isLength` counts every character. */
  lemma {:induction false} ValidatorLengthPlain(s: string)
    requires forall i :: 0 <= i < |s| ==> !IsVariationSelector(s[i])
    ensures ValidatorLength(s) == |s|
  {
    if s != [] {
      ValidatorLengthPlain(s[1..]);
    }
  }

  /** On a word string (ASCII only) `isLength` and JavaScript's `.length` both count the characters. */
  lemma {:induction false} WordStringLengths(s: string)
    requires IsWordString(s)
    ensures ValidatorLength(s) == Utf16Length(s) == |s|
  {
    ValidatorLengthPlain(s);
    Utf16LengthOfBmp(s);
  }

  /** The username chain of `registerValidation`, applied to the already trimmed username `u`. */
  function UsernameErrors(u: string, taken: set<string>): (r: seq<Failure>)
    ensures UsernameLength in r <==> !(3 <= ValidatorLength(u) <= 20)
    ensures UsernameChars in r <==> !IsWordString(u)
    ensures UsernameTaken in r <==> ToLowerAscii(u) in taken
    ensures forall i :: 0 <= i < |r| ==> r[i] in {UsernameLength, UsernameChars, UsernameTaken}
  {
    FailIf(!(3 <= ValidatorLength(u) <= 20), UsernameLength)
    + FailIf(!IsWordString(u), UsernameChars)
    + FailIf(ToLowerAscii(u) in taken, UsernameTaken)
  }

  /** The password chain of `registerValidation`; the password is not trimmed. */
  function PasswordErrors(p: string): (r: seq<Failure>)
    ensures PasswordLength in r <==> ValidatorLength(p) < 6
    ensures PasswordDigit in r <==> !HasDigit(p)
    ensures PasswordLetter in r <==> !HasLetter(p)
    ensures forall i :: 0 <= i < |r| ==> r[i] in {PasswordLength, PasswordDigit, PasswordLetter}
  {
    FailIf(ValidatorLength(p) < 6, PasswordLength)
    + FailIf(!HasDigit(p), PasswordDigit)
    + FailIf(!HasLetter(p), PasswordLetter)
  }

  /**
    `registerValidation`: the username is trimmed, then must be 3 to 20 long, made of word characters
    and, lower-cased, not already taken; the password must be at least 6 long and contain a digit and
    a letter. `taken` holds the usernames of the stored users. Username failures come first.
  */
  function RegisterErrors(username: string, password: string, taken: set<string>): (r: seq<Failure>)
    ensures r == [] <==>
      && 3 <= ValidatorLength(Trim(username)) <= 20 && IsWordString(Trim(username))
      && ToLowerAscii(Trim(username)) !in taken
      && ValidatorLength(password) >= 6 && HasDigit(password) && HasLetter(password)
  {
    var ue := UsernameErrors(Trim(username), taken);
    var pe := PasswordErrors(password);
    assert ue == [] <==> UsernameLength !in ue && UsernameChars !in ue && UsernameTaken !in ue;
    assert pe == [] <==> PasswordLength !in pe && PasswordDigit !in pe && PasswordLetter !in pe;
    ue + pe
  }

  /** `loginValidation`: a username that is non-empty once trimmed and a non-empty (untrimmed) password. */
  function LoginErrors(username: string, password: string): (r: seq<Failure>)
    ensures UsernameRequired in r <==> IsBlank(username)
    ensures PasswordRequired in r <==> password == ""
    ensures forall i :: 0 <= i < |r| ==> r[i] in {UsernameRequired, PasswordRequired}
    ensures r != [] ==> r[0] == (if IsBlank(username) then UsernameRequired else PasswordRequired)
  {
    TrimEmptyIffBlank(username);
    (if Trim(username) == "" then [UsernameRequired] else [])
    + (if password == "" then [PasswordRequired] else [])
  }

  /** `messageValidation`: content that is non-empty once trimmed and at most 2000 long. */
  function MessageErrors(content: string): (r: seq<Failure>)
    ensures ContentRequired in r <==> IsBlank(content)
    ensures ContentTooLong in r <==> ValidatorLength(Trim(content)) > 2000
    ensures forall i :: 0 <= i < |r| ==> r[i] in {ContentRequired, ContentTooLong}
  {
    TrimEmptyIffBlank(content);
    (if Trim(content) == "" then [ContentRequired] else [])
    + (if ValidatorLength(Trim(content)) <= 2000 then [] else [ContentTooLong])
  }
}
