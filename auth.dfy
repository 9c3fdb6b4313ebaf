/**
 * Password rules applied at registration. The checks run in a fixed order
 * and the first one that fails rejects the password with HTTP status 400 and
 * its own message.
 */
module Auth {
  import opened Strs

  datatype Verdict = Accepted | Rejected(status: int, detail: string)

  const MinLength: nat := 8
  const BadRequest: int := 400

  const TooShort: string := "Password must be at least 8 characters."
  const NoUppercase: string := "Password must include an uppercase letter."
  const NoLowercase: string := "Password must include a lowercase letter."
  const NoNumber: string := "Password must include a number."
  const NoSpecial: string := "Password must include a special character."

  /** `re.search(r"[A-Z]", pw)`. */
  predicate HasUpper(pw: string) { exists i :: 0 <= i < |pw| && IsUpper(pw[i]) }
  /** `re.search(r"[a-z]", pw)`. */
  predicate HasLower(pw: string) { exists i :: 0 <= i < |pw| && IsLowerLetter(pw[i]) }
  /** `re.search(r"\d", pw)`, on ASCII digits. */
  predicate HasDigit(pw: string) { exists i :: 0 <= i < |pw| && IsDigit(pw[i]) }
  /** `re.search(r"[^A-Za-z0-9]", pw)`: any character that is not an ASCII letter or digit. */
  predicate HasSpecial(pw: string) { exists i :: 0 <= i < |pw| && !IsAlnum(pw[i]) }

  /** `validate_password`: returns normally (accepted) or raises a 400 error with the first failing rule's message. */
  function ValidatePassword(pw: string): (v: Verdict)
    ensures v.Rejected? ==> v.status == BadRequest
    ensures v == Accepted <==>
      |pw| >= MinLength && HasUpper(pw) && HasLower(pw) && HasDigit(pw) && HasSpecial(pw)
  {
    if |pw| < MinLength then Rejected(BadRequest, TooShort)
    else if !HasUpper(pw) then Rejected(BadRequest, NoUppercase)
    else if !HasLower(pw) then Rejected(BadRequest, NoLowercase)
    else if !HasDigit(pw) then Rejected(BadRequest, NoNumber)
    else if !HasSpecial(pw) then Rejected(BadRequest, NoSpecial)
    else Accepted
  }

  /** The messages of every rule the password breaks, in rule order. */
  function Failures(pw: string): (msgs: seq<string>)
    ensures |msgs| <= 5
  {
    (if |pw| < MinLength then [TooShort] else [])
    + (if HasUpper(pw) then [] else [NoUppercase])
    + (if HasLower(pw) then [] else [NoLowercase])
    + (if HasDigit(pw) then [] else [NoNumber])
    + (if HasSpecial(pw) then [] else [NoSpecial])
  }

  /** The reported message is the first of all the broken rules; a password breaking none is accepted. */
  lemma FirstFailureReported(pw: string)
    ensures Failures(pw) == [] ==> ValidatePassword(pw) == Accepted
    ensures Failures(pw) != [] ==> ValidatePassword(pw) == Rejected(BadRequest, Failures(pw)[0])
  {
  }

  /** A short password is reported as too short, whatever else is wrong with it. */
  lemma LengthCheckedFirst(pw: string)
    requires |pw| < MinLength
    ensures ValidatePassword(pw) == Rejected(BadRequest, TooShort)
  {
  }

  /** Fixing a later rule never changes the message while an earlier rule is still broken. */
  lemma EarlierRuleWins(pw: string, other: string)
    requires |pw| >= MinLength <==> |other| >= MinLength
    requires HasUpper(pw) <==> HasUpper(other)
    requires ValidatePassword(pw).Rejected? && ValidatePassword(pw).detail in {TooShort, NoUppercase}
    ensures ValidatePassword(other) == ValidatePassword(pw)
  {
  }
}
