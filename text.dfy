/** Character-level checks and the input normaliser used by the registration forms. */
module Text {

  /** `\d` in a JavaScript regular expression: an ASCII decimal digit. */
  predicate IsDigit(c: char) {
    '0' <= c <= '9'
  }

  /** The Aadhaar format test `/^\d{12}$/`: the whole string is exactly twelve ASCII digits. */
  predicate IsTwelveDigits(s: string) {
    |s| == 12 && forall i :: 0 <= i < |s| ==> IsDigit(s[i])
  }

  predicate IsLowerAscii(c: char) {
    'a' <= c <= 'z'
  }

  /** No ASCII lower-case letter occurs in `s`. */
  predicate IsUpperAscii(s: string) {
    forall i :: 0 <= i < |s| ==> !IsLowerAscii(s[i])
  }

  /** Upper-cases one ASCII letter and leaves every other character alone. */
  function UpperChar(c: char): (u: char)
    ensures !IsLowerAscii(u)
    ensures IsLowerAscii(c) ==> 'A' <= u <= 'Z' && u as int - 'A' as int == c as int - 'a' as int
    ensures !IsLowerAscii(c) ==> u == c
  {
    if IsLowerAscii(c) then (c as int - 'a' as int + 'A' as int) as char else c
  }

  /** The PAN field's `toUpperCase()`, restricted to ASCII letters. */
  function ToUpperAscii(s: string): (r: string)
    ensures |r| == |s|
    ensures forall i :: 0 <= i < |s| ==> r[i] == UpperChar(s[i])
    ensures IsUpperAscii(r)
  {
    if s == [] then [] else [UpperChar(s[0])] + ToUpperAscii(s[1..])
  }

  /** A string already in upper case is left as it is, so normalising twice is normalising once. */
  lemma UpperFixesUpper(s: string)
    requires IsUpperAscii(s)
    ensures ToUpperAscii(s) == s
  {
  }

  lemma ToUpperIdempotent(s: string)
    ensures ToUpperAscii(ToUpperAscii(s)) == ToUpperAscii(s)
  {
    UpperFixesUpper(ToUpperAscii(s));
  }

  /** The examples of the format rule: a twelve-digit string passes, a short one and one holding a letter fail. */
  lemma TwelveDigitExamples()
    ensures IsTwelveDigits("381467472016")
    ensures !IsTwelveDigits("12345")
    ensures !IsTwelveDigits("12a456789012")
  {
    assert !IsDigit("12a456789012"[2]);
  }

  /** The pattern is anchored at both ends: a valid number with anything added before or after no longer passes. */
  lemma TwelveDigitsIsAnchored(s: string, extra: string)
    requires IsTwelveDigits(s) && extra != []
    ensures !IsTwelveDigits(s + extra) && !IsTwelveDigits(extra + s)
  {
  }
}
