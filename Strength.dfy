/**
 Strength scoring: five independent criteria over a password, a score that
 counts how many of them hold, and the three-way label for a score.
 */
module Strength {
  import opened CharClasses

  /** The criteria dictionary, its entries in the source's insertion order. */
  datatype Criteria = Criteria(
    length: bool,
    uppercase: bool,
    lowercase: bool,
    digits: bool,
    special: bool)
  {
    /** `criteria.values()` */
    function Values(): (vs: seq<bool>)
      ensures |vs| == 5
    {
      [length, uppercase, lowercase, digits, special]
    }
  }

  const Strong: string := "\U{1F7E2} Strong"
  const Moderate: string := "\U{1F7E1} Moderate"
  const Weak: string := "\U{1F534} Weak"

  /** Python's `sum` over booleans: the number of `True` entries. */
  function CountTrue(bs: seq<bool>): (n: nat)
    ensures n == multiset(bs)[true]
    ensures n <= |bs|
    ensures n == |bs| <==> forall i :: 0 <= i < |bs| ==> bs[i]
    ensures n == 0 <==> forall i :: 0 <= i < |bs| ==> !bs[i]
  {
    if bs == [] then 0
    else
      var n := (if bs[0] then 1 else 0) + CountTrue(bs[1..]);
      assert bs == [bs[0]] + bs[1..];
      assert forall i :: 1 <= i < |bs| ==> bs[i] == bs[1..][i - 1];
      n
  }

  /**
   `check_strength`: each criterion is decided on its own over the whole
   password, and the score is the number of criteria that hold.
   */
  function CheckStrength(password: string): (result: (int, Criteria))
    ensures result.1.length <==> |password| >= 8
    ensures result.1.uppercase <==> exists i :: 0 <= i < |password| && IsUpper(password[i])
    ensures result.1.lowercase <==> exists i :: 0 <= i < |password| && IsLower(password[i])
    ensures result.1.digits <==> exists i :: 0 <= i < |password| && IsDigit(password[i])
    ensures result.1.special <==> exists i :: 0 <= i < |password| && password[i] in Special
    ensures result.0 == multiset(result.1.Values())[true]
    ensures 0 <= result.0 <= 5
  {
    var criteria := Criteria(
      |password| >= 8,
      Any(password, IsUpper),
      Any(password, IsLower),
      Any(password, IsDigit),
      Any(password, IsSpecial));
    (CountTrue(criteria.Values()), criteria)
  }

  /** `get_strength_label`: 5 is strong, from 3 up (other than 5) moderate, below 3 weak. */
  function StrengthLabel(score: int): (tag: string)
    ensures tag == Strong <==> score == 5
    ensures tag == Moderate <==> score >= 3 && score != 5
    ensures tag == Weak <==> score < 3
  {
    if score == 5 then Strong
    else if score >= 3 then Moderate
    else Weak
  }

  /** A password is labelled strong exactly when it meets all five criteria. */
  lemma {:induction false} StrongIffAllCriteria(password: string)
    ensures var r := CheckStrength(password);
      StrengthLabel(r.0) == Strong <==>
        r.1.length && r.1.uppercase && r.1.lowercase && r.1.digits && r.1.special
  {
    var r := CheckStrength(password);
    assert r.0 == CountTrue(r.1.Values());
  }

  /** A password is labelled moderate exactly when it meets three or four criteria. */
  lemma ModerateIffThreeOrFour(password: string)
    ensures var r := CheckStrength(password);
      StrengthLabel(r.0) == Moderate <==> r.0 == 3 || r.0 == 4
  {
  }

  /** A password is labelled weak exactly when it fails at least three criteria. */
  lemma {:induction false} WeakIffThreeFail(password: string)
    ensures var r := CheckStrength(password);
      StrengthLabel(r.0) == Weak <==> CountTrue(Negated(r.1.Values())) >= 3
  {
    var r := CheckStrength(password);
    assert r.0 == CountTrue(r.1.Values());
    CountNegated(r.1.Values());
  }

  /** Every entry flipped, in the same order. */
  function Negated(bs: seq<bool>): (ns: seq<bool>)
    ensures |ns| == |bs|
    ensures forall i :: 0 <= i < |bs| ==> ns[i] == !bs[i]
  {
    seq(|bs|, i requires 0 <= i < |bs| => !bs[i])
  }

  /** Counting the entries that hold and those that fail accounts for every entry. */
  lemma {:induction false} CountNegated(bs: seq<bool>)
    ensures CountTrue(Negated(bs)) == |bs| - CountTrue(bs)
  {
    if bs != [] {
      CountNegated(bs[1..]);
      assert Negated(bs)[1..] == Negated(bs[1..]);
    }
  }

  /** The empty password meets no criterion, scores 0 and is weak. */
  lemma EmptyPasswordIsWeak()
    ensures CheckStrength("") == (0, Criteria(false, false, false, false, false))
    ensures StrengthLabel(CheckStrength("").0) == Weak
  {
  }

  /**
   A password of at least eight characters holding an upper-case letter, a
   lower-case letter, a digit and a special character scores 5 and is strong.
   */
  lemma AllClassesIsStrong(password: string, u: nat, l: nat, d: nat, x: nat)
    requires |password| >= 8
    requires u < |password| && IsUpper(password[u])
    requires l < |password| && IsLower(password[l])
    requires d < |password| && IsDigit(password[d])
    requires x < |password| && password[x] in Special
    ensures CheckStrength(password).0 == 5
    ensures StrengthLabel(CheckStrength(password).0) == Strong
  {
    StrongIffAllCriteria(password);
  }

  /** A password shorter than eight characters is never strong. */
  lemma ShortIsNotStrong(password: string)
    requires |password| < 8
    ensures StrengthLabel(CheckStrength(password).0) != Strong
  {
    StrongIffAllCriteria(password);
  }
}
