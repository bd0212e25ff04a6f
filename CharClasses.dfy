/**
 The character classes the password meter works with: the four alphabets the
 generator draws from (the ASCII constants of Python's `string` module plus
 the fixed special set) and the per-character tests the strength check applies.
 */
module CharClasses {

  /** `string.ascii_lowercase` */
  const Lowercase: string := "abcdefghijklmnopqrstuvwxyz"
  /** `string.ascii_uppercase` */
  const Uppercase: string := "ABCDEFGHIJKLMNOPQRSTUVWXYZ"
  /** `string.digits` */
  const Digits: string := "0123456789"
  /** The special characters both the strength check and the generator use. */
  const Special: string := "!@#$%^&*"
  /** `string.ascii_letters`: the lower-case letters followed by the upper-case ones. */
  const Letters: string := Lowercase + Uppercase

  /** `str.isupper` on one character, restricted to ASCII. */
  predicate IsUpper(c: char) { 'A' <= c <= 'Z' }
  /** `str.islower` on one character, restricted to ASCII. */
  predicate IsLower(c: char) { 'a' <= c <= 'z' }
  /** `str.isdigit` on one character, restricted to ASCII. */
  predicate IsDigit(c: char) { '0' <= c <= '9' }
  /** Membership in the special set, as `c in "!@#$%^&*"`. */
  predicate IsSpecial(c: char) { c in Special }

  /** Python's `any(p(c) for c in s)`, scanning from the front. */
  function Any(s: string, p: char -> bool): (r: bool)
    ensures r <==> exists i :: 0 <= i < |s| && p(s[i])
  {
    if s == [] then false
    else if p(s[0]) then true
    else
      var r := Any(s[1..], p);
      assert forall i :: 1 <= i < |s| ==> s[i] == s[1..][i - 1];
      r
  }

  /** Every character of each generator alphabet passes the matching test of the strength check. */
  lemma AlphabetsAgreeWithTests(c: char)
    ensures c in Lowercase ==> IsLower(c)
    ensures c in Uppercase ==> IsUpper(c)
    ensures c in Digits ==> IsDigit(c)
    ensures c in Special ==> IsSpecial(c)
  {
  }
}
