/** The two string operations the variant naming rule relies on, over the
    ASCII letters: lower-casing a whole string and capitalising its first
    character. Every other character is left as it is. */
module AsciiCase {

  predicate IsUpper(c: char) {
    'A' <= c <= 'Z'
  }

  predicate IsLower(c: char) {
    'a' <= c <= 'z'
  }

  /** An ASCII letter of either case. */
  predicate IsLetter(c: char) {
    IsUpper(c) || IsLower(c)
  }

  /** The lower-case form of one character. */
  function LowerChar(c: char): (r: char)
    ensures IsUpper(c) ==> IsLower(r) && r as int - c as int == 'a' as int - 'A' as int
    ensures !IsUpper(c) ==> r == c
    ensures !IsUpper(r)
  {
    if IsUpper(c) then (c as int + ('a' as int - 'A' as int)) as char else c
  }

  /** The title-case form of one character; for ASCII it is the upper case. */
  function TitleChar(c: char): (r: char)
    ensures IsLower(c) ==> IsUpper(r) && c as int - r as int == 'a' as int - 'A' as int
    ensures !IsLower(c) ==> r == c
    ensures !IsLower(r)
  {
    if IsLower(c) then (c as int - ('a' as int - 'A' as int)) as char else c
  }

  /** A string with no upper-case letter. */
  predicate IsLowerCase(s: string) {
    forall i :: 0 <= i < |s| ==> !IsUpper(s[i])
  }

  /** Lower-cases every character of `s`: each upper-case letter becomes its
      lower-case partner, every other character stays, and the length is
      kept. */
  function ToLowerCase(s: string): (r: string)
    ensures |r| == |s|
    ensures IsLowerCase(r)
    ensures forall i :: 0 <= i < |s| && IsUpper(s[i]) ==>
              IsLower(r[i]) && r[i] as int - s[i] as int == 'a' as int - 'A' as int
    ensures forall i :: 0 <= i < |s| && !IsUpper(s[i]) ==> r[i] == s[i]
  {
    seq(|s|, i requires 0 <= i < |s| => LowerChar(s[i]))
  }

  /** Replaces the first character of `s` by its title case and keeps the
      rest; the empty string is returned unchanged. */
  function Capitalize(s: string): (r: string)
    ensures |r| == |s|
    ensures |s| > 0 && IsLower(s[0]) ==> IsUpper(r[0]) && s[0] as int - r[0] as int == 'a' as int - 'A' as int
    ensures |s| > 0 && !IsLower(s[0]) ==> r[0] == s[0]
    ensures forall i :: 1 <= i < |s| ==> r[i] == s[i]
  {
    seq(|s|, i requires 0 <= i < |s| => if i == 0 then TitleChar(s[0]) else s[i])
  }

  /** Lower-casing yields a lower-case string and is idempotent. */
  lemma LowerCaseIsIdempotent(s: string)
    ensures IsLowerCase(ToLowerCase(s))
    ensures ToLowerCase(ToLowerCase(s)) == ToLowerCase(s)
  {
  }

  /** Capitalising never changes what a string lower-cases to: the lower-case
      form of `Capitalize(s)` is that of `s`. */
  lemma CapitalizeKeepsLowerCase(s: string)
    ensures ToLowerCase(Capitalize(s)) == ToLowerCase(s)
  {
  }
}
