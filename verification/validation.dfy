/**
 The field validators of the sign-in form. Lengths are taken as the number of
 characters of the string.
 */
module Validation {

  /** `needle` occurs in `s` starting at position `i`. */
  ghost predicate OccursAt(s: string, needle: string, i: int)
  {
    0 <= i && i + |needle| <= |s| && s[i..i + |needle|] == needle
  }

  /**
   `containsString`: whether `needle` occurs somewhere in `s`. An empty needle
   is never found.
   */
  function ContainsString(s: string, needle: string): (r: bool)
    ensures r <==> |needle| > 0 && exists i :: OccursAt(s, needle, i)
    decreases |s|
  {
    if |needle| == 0 || |s| < |needle| then
      false
    else if s[..|needle|] == needle then
      assert OccursAt(s, needle, 0);
      true
    else
      ShiftOccurrence(s, needle);
      ContainsString(s[1..], needle)
  }

  /** Occurrences in `s[1..]` are the occurrences in `s` past position 0, shifted by one. */
  lemma ShiftOccurrence(s: string, needle: string)
    requires |s| > 0
    requires !OccursAt(s, needle, 0)
    ensures (exists i :: OccursAt(s, needle, i)) <==> (exists j :: OccursAt(s[1..], needle, j))
  {
    if i :| OccursAt(s, needle, i) {
      assert i > 0;
      assert s[1..][i - 1..i - 1 + |needle|] == s[i..i + |needle|];
      assert OccursAt(s[1..], needle, i - 1);
    }
    if j :| OccursAt(s[1..], needle, j) {
      assert s[j + 1..j + 1 + |needle|] == s[1..][j..j + |needle|];
      assert OccursAt(s, needle, j + 1);
    }
  }

  /** Searching for a one-character needle is testing membership of that character. */
  lemma ContainsChar(s: string, c: char)
    ensures ContainsString(s, [c]) <==> c in s
  {
    if c in s {
      var i :| 0 <= i < |s| && s[i] == c;
      assert OccursAt(s, [c], i);
    }
    if ContainsString(s, [c]) {
      var i :| OccursAt(s, [c], i);
      assert s[i] == s[i..i + 1][0];
    }
  }

  /** An email is valid exactly when it is longer than three characters and has an '@'. */
  function IsValidEmail(email: string): (r: bool)
    ensures r <==> |email| > 3 && '@' in email
  {
    ContainsChar(email, '@');
    |email| > 3 && ContainsString(email, "@")
  }

  predicate IsValidPhone(phone: string)
  {
    |phone| > 5
  }

  predicate IsValidPassword(password: string)
  {
    |password| > 3
  }

  /**
   The phone and password validators look at the length only: two strings of
   the same length are both valid or both invalid.
   */
  lemma LengthOnlyValidators(s: string, t: string)
    requires |s| == |t|
    ensures IsValidPhone(s) <==> IsValidPhone(t)
    ensures IsValidPassword(s) <==> IsValidPassword(t)
  {
  }

  /** Every string of length at most three fails all three validators. */
  lemma ShortInputsInvalid(s: string)
    requires |s| <= 3
    ensures !IsValidEmail(s) && !IsValidPhone(s) && !IsValidPassword(s)
  {
  }
}
