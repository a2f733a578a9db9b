/** The two validators of `app/core/security.py`: password strength and the
    startup check of the JWT signing key. */
module Security {

  const MinPasswordLength: nat := 8
  const MinSecretKeyLength: nat := 32
  /** The example value shipped in the configuration template. */
  const DefaultSecretKey: string := "your_secret_key_here_generate_a_strong_random_key"

  /** The character classes, restricted to ASCII. */
  predicate IsUpper(c: char) { 'A' <= c <= 'Z' }
  predicate IsLower(c: char) { 'a' <= c <= 'z' }
  predicate IsDigit(c: char) { '0' <= c <= '9' }

  /** `any(p(c) for c in s)`. */
  function AnyChar(s: string, p: char -> bool): (b: bool)
    ensures b <==> exists i :: 0 <= i < |s| && p(s[i])
    decreases |s|
  {
    if s == [] then false
    else if p(s[0]) then true
    else
      var b := AnyChar(s[1..], p);
      assert forall i :: 1 <= i < |s| ==> s[i] == s[1..][i - 1];
      b
  }

  /** `validate_password_strength`: at least eight characters, with an
      upper-case letter, a lower-case letter and a digit among them. */
  function ValidatePasswordStrength(password: string): (ok: bool)
    ensures ok <==>
      && |password| >= MinPasswordLength
      && (exists i :: 0 <= i < |password| && IsUpper(password[i]))
      && (exists i :: 0 <= i < |password| && IsLower(password[i]))
      && (exists i :: 0 <= i < |password| && IsDigit(password[i]))
  {
    if |password| < MinPasswordLength then false
    else AnyChar(password, IsUpper) && AnyChar(password, IsLower) && AnyChar(password, IsDigit)
  }

  /** Lengthening a strong password keeps it strong. */
  lemma StrongPasswordExtends(password: string, suffix: string)
    requires ValidatePasswordStrength(password)
    ensures ValidatePasswordStrength(password + suffix)
  {
    var p := password + suffix;
    var u :| 0 <= u < |password| && IsUpper(password[u]);
    var l :| 0 <= l < |password| && IsLower(password[l]);
    var d :| 0 <= d < |password| && IsDigit(password[d]);
    assert IsUpper(p[u]) && IsLower(p[l]) && IsDigit(p[d]);
  }

  /** Seven characters are never enough, whatever they are. */
  lemma ShortPasswordRejected(password: string)
    requires |password| < MinPasswordLength
    ensures !ValidatePasswordStrength(password)
  {
  }

  /** `validate_secret_key`: keys shorter than 32 characters and the
      template's example key are rejected. */
  function ValidateSecretKey(secretKey: string): (ok: bool)
    ensures ok <==> |secretKey| >= MinSecretKeyLength && secretKey != DefaultSecretKey
  {
    if |secretKey| < MinSecretKeyLength then false
    else if secretKey == DefaultSecretKey then false
    else true
  }

  /** The example key is long enough to pass the length test, so it is the
      second test that rejects it. */
  lemma DefaultKeyRejectedByValue()
    ensures |DefaultSecretKey| >= MinSecretKeyLength
    ensures !ValidateSecretKey(DefaultSecretKey)
  {
  }
}
