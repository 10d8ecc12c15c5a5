/**
 * Lower-casing as used by the optional-boolean rule, which compares
 * `value.toLowerCase()` with the literal "true". Only the ASCII letters are
 * folded; see README.md for why that is exact for this comparison.
 */
module AsciiCase {

  predicate IsAsciiUpper(c: char) {
    'A' <= c <= 'Z'
  }

  /** The lower-case form of one character: 'A'..'Z' become 'a'..'z', everything else is kept. */
  function LowerChar(c: char): (r: char)
    ensures !IsAsciiUpper(r)
    ensures !IsAsciiUpper(c) ==> r == c
    ensures IsAsciiUpper(c) ==> r as int - c as int == 'a' as int - 'A' as int
  {
    if IsAsciiUpper(c) then (c as int + ('a' as int - 'A' as int)) as char else c
  }

  /** `toLowerCase` restricted to ASCII: the same length, folded character by character. */
  function ToLower(s: string): (r: string)
    ensures |r| == |s|
    ensures forall i :: 0 <= i < |s| ==> r[i] == LowerChar(s[i])
  {
    if s == [] then [] else [LowerChar(s[0])] + ToLower(s[1..])
  }

  /** Reference definition: `s` spells "true" with each letter in either case. */
  predicate IsTrueIgnoringCase(s: string) {
    && |s| == 4
    && (s[0] == 't' || s[0] == 'T')
    && (s[1] == 'r' || s[1] == 'R')
    && (s[2] == 'u' || s[2] == 'U')
    && (s[3] == 'e' || s[3] == 'E')
  }

  /** Lower-casing gives exactly "true" iff the string is "true" in some mix of cases. */
  lemma ToLowerIsTrueIff(s: string)
    ensures ToLower(s) == "true" <==> IsTrueIgnoringCase(s)
  {
  }
}
