/**
 * Letter case on ASCII characters, as `toUpperCase` and `toLowerCase` treat them;
 * every other character is left alone.
 */
module Ascii {

  function Upper(c: char): char {
    if 'a' <= c <= 'z' then (c as int - 32) as char else c
  }

  function Lower(c: char): char {
    if 'A' <= c <= 'Z' then (c as int + 32) as char else c
  }

  /** `s.toLowerCase()`: every character lower-cased, in place. */
  function LowerStr(s: string): (r: string)
    ensures |r| == |s|
    ensures forall i :: 0 <= i < |s| ==> r[i] == Lower(s[i])
  {
    if s == [] then [] else [Lower(s[0])] + LowerStr(s[1..])
  }

  /** Upper-casing a letter does not depend on the case it had. */
  lemma UpperOfLower(c: char)
    ensures Upper(Lower(c)) == Upper(c)
    ensures Lower(Upper(c)) == Lower(c)
    ensures Upper(Upper(c)) == Upper(c) && Lower(Lower(c)) == Lower(c)
  {
  }
}
