/**
 Random password generation. `random.choice` is modelled as the choice of an
 arbitrary element of a non-empty string and `random.shuffle` as the
 Fisher-Yates exchange of arbitrary positions, so every property below holds
 for every outcome of the random draws.
 */
module Generator {
  import opened CharClasses
  import opened Strength

  /** `random.choice(s)`: some character of `s`. */
  method Choice(s: string) returns (c: char)
    requires s != []
    ensures c in s
  {
    var i :| 0 <= i < |s|;
    c := s[i];
  }

  /**
   `random.shuffle`: walks down from the last position, exchanging each
   position with an arbitrary one at or before it. The result is a
   permutation of the input.
   */
  method Shuffle(s: seq<char>) returns (t: seq<char>)
    ensures |t| == |s|
    ensures multiset(t) == multiset(s)
  {
    t := s;
    var i := |t|;
    while i > 1
      invariant 0 <= i <= |t| == |s|
      invariant multiset(t) == multiset(s)
    {
      var j :| 0 <= j < i;
      t := t[i - 1 := t[j]][j := t[i - 1]];
      i := i - 1;
    }
  }

  /** The four class switches of `generate_password`. */
  datatype Flags = Flags(upper: bool, lower: bool, digits: bool, special: bool)
  {
    /** No class is enabled, so the generator falls back to every class. */
    predicate NoneEnabled() { !upper && !lower && !digits && !special }

    /** The number of enabled classes, each of which seeds one character. */
    function EnabledCount(): (n: nat)
      ensures n <= 4
      ensures n == 0 <==> NoneEnabled()
    {
      (if lower then 1 else 0) + (if upper then 1 else 0)
      + (if digits then 1 else 0) + (if special then 1 else 0)
    }

    /**
     The characters the generator may emit: those of the enabled classes, or
     all letters, digits and specials when no class is enabled.
     */
    predicate Allowed(c: char)
    {
      if NoneEnabled() then c in Letters || c in Digits || c in Special
      else
        (lower && c in Lowercase) || (upper && c in Uppercase)
        || (digits && c in Digits) || (special && c in Special)
    }

    /** Every enabled class has a character in `s`. */
    predicate Represented(s: seq<char>)
    {
      (lower ==> Contains(s, Lowercase)) && (upper ==> Contains(s, Uppercase))
      && (digits ==> Contains(s, Digits)) && (special ==> Contains(s, Special))
    }
  }

  /** Some character of `s` belongs to the alphabet `cls`. */
  predicate Contains(s: seq<char>, cls: string)
  {
    exists i :: 0 <= i < |s| && s[i] in cls
  }

  /** Appending a character keeps every class represented and adds the character's own. */
  lemma ContainsAppend(s: seq<char>, c: char, cls: string)
    ensures Contains(s + [c], cls) <==> Contains(s, cls) || c in cls
  {
    var t := s + [c];
    if Contains(s, cls) {
      var i :| 0 <= i < |s| && s[i] in cls;
      assert t[i] == s[i];
    }
    if c in cls {
      assert t[|s|] == c;
    }
    if Contains(t, cls) && !(c in cls) {
      var i :| 0 <= i < |t| && t[i] in cls;
      assert i < |s| && s[i] == t[i];
    }
  }

  /** A permutation keeps every class that was represented. */
  lemma PermutationKeepsClass(s: seq<char>, t: seq<char>, cls: string)
    requires multiset(s) == multiset(t)
    requires Contains(s, cls)
    ensures Contains(t, cls)
  {
    var i :| 0 <= i < |s| && s[i] in cls;
    assert s[i] in multiset(s);
    assert s[i] in t;
    var k :| 0 <= k < |t| && t[k] == s[i];
  }

  /** Appending to a string keeps every class it already represents. */
  lemma RepresentedAppend(flags: Flags, s: seq<char>, c: char)
    requires flags.Represented(s)
    ensures flags.Represented(s + [c])
  {
    ContainsAppend(s, c, Lowercase);
    ContainsAppend(s, c, Uppercase);
    ContainsAppend(s, c, Digits);
    ContainsAppend(s, c, Special);
  }

  /** A permutation keeps every class that was represented. */
  lemma RepresentedPermutation(flags: Flags, s: seq<char>, t: seq<char>)
    requires multiset(s) == multiset(t)
    requires flags.Represented(s)
    ensures flags.Represented(t)
  {
    if flags.lower { PermutationKeepsClass(s, t, Lowercase); }
    if flags.upper { PermutationKeepsClass(s, t, Uppercase); }
    if flags.digits { PermutationKeepsClass(s, t, Digits); }
    if flags.special { PermutationKeepsClass(s, t, Special); }
  }

  /** The pool `chars` of `generate_password`: exactly the allowed characters, never empty. */
  method CharPool(flags: Flags) returns (chars: string)
    ensures chars != []
    ensures forall c :: c in chars <==> flags.Allowed(c)
  {
    chars := "";
    if flags.lower { chars := chars + Lowercase; }
    if flags.upper { chars := chars + Uppercase; }
    if flags.digits { chars := chars + Digits; }
    if flags.special { chars := chars + Special; }
    if chars == [] {
      chars := Letters + Digits + Special;
    }
  }

  /** The seeding step: one character from each enabled class, in class order. */
  method Seed(flags: Flags) returns (password: seq<char>)
    ensures |password| == flags.EnabledCount()
    ensures forall i :: 0 <= i < |password| ==> flags.Allowed(password[i])
    ensures flags.Represented(password)
  {
    password := [];
    if flags.lower {
      var c := Choice(Lowercase);
      ContainsAppend(password, c, Lowercase);
      password := password + [c];
    }
    if flags.upper {
      var c := Choice(Uppercase);
      ContainsAppend(password, c, Lowercase);
      ContainsAppend(password, c, Uppercase);
      password := password + [c];
    }
    if flags.digits {
      var c := Choice(Digits);
      ContainsAppend(password, c, Lowercase);
      ContainsAppend(password, c, Uppercase);
      ContainsAppend(password, c, Digits);
      password := password + [c];
    }
    if flags.special {
      var c := Choice(Special);
      ContainsAppend(password, c, Lowercase);
      ContainsAppend(password, c, Uppercase);
      ContainsAppend(password, c, Digits);
      ContainsAppend(password, c, Special);
      password := password + [c];
    }
  }

  /**
   `generate_password`: exactly `length` characters, each from the allowed
   pool; when `length` leaves room for the seeds, every enabled class shows up.
   */
  method GeneratePassword(length: nat, includeUpper: bool, includeLower: bool, includeDigits: bool, includeSpecial: bool)
    returns (generated: string)
    ensures |generated| == length
    ensures forall i :: 0 <= i < |generated| ==>
      Flags(includeUpper, includeLower, includeDigits, includeSpecial).Allowed(generated[i])
    ensures length >= Flags(includeUpper, includeLower, includeDigits, includeSpecial).EnabledCount() ==>
      Flags(includeUpper, includeLower, includeDigits, includeSpecial).Represented(generated)
  {
    var flags := Flags(includeUpper, includeLower, includeDigits, includeSpecial);
    var chars := CharPool(flags);
    var password := Seed(flags);
    ghost var seeds := |password|;

    while |password| < length
      invariant |password| <= if length < seeds then seeds else length
      invariant forall i :: 0 <= i < |password| ==> flags.Allowed(password[i])
      invariant flags.Represented(password)
    {
      var c := Choice(chars);
      RepresentedAppend(flags, password, c);
      password := password + [c];
    }

    var shuffled := Shuffle(password);
    forall i | 0 <= i < |shuffled|
      ensures flags.Allowed(shuffled[i])
    {
      assert shuffled[i] in multiset(password);
      var k :| 0 <= k < |password| && password[k] == shuffled[i];
    }
    generated := shuffled[..length];
    if length >= seeds {
      assert generated == shuffled;
      RepresentedPermutation(flags, password, shuffled);
    }
  }

  /**
   A password of at least eight characters that represents all four classes,
   as `generate_password` returns with every flag set, is labelled strong.
   */
  lemma AllClassesGeneratedIsStrong(generated: string)
    requires |generated| >= 8
    requires Flags(true, true, true, true).Represented(generated)
    ensures StrengthLabel(CheckStrength(generated).0) == Strong
  {
    var u :| 0 <= u < |generated| && generated[u] in Uppercase;
    var l :| 0 <= l < |generated| && generated[l] in Lowercase;
    var d :| 0 <= d < |generated| && generated[d] in Digits;
    var x :| 0 <= x < |generated| && generated[x] in Special;
    AlphabetsAgreeWithTests(generated[u]);
    AlphabetsAgreeWithTests(generated[l]);
    AlphabetsAgreeWithTests(generated[d]);
    AllClassesIsStrong(generated, u, l, d, x);
  }
}
