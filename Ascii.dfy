/**
 Room codes: `String.prototype.toUpperCase` restricted to ASCII, and the shape
 of the codes that `generateRoomCode` produces.
 */
module Ascii {

  function UpperChar(ch: char): char {
    if 'a' <= ch <= 'z' then (ch as int - 32) as char else ch
  }

  function LowerChar(ch: char): char {
    if 'A' <= ch <= 'Z' then (ch as int + 32) as char else ch
  }

  /** `s.toUpperCase()`: each letter a-z becomes A-Z, every other character stays. */
  function Upper(s: string): (r: string)
    ensures |r| == |s|
    ensures forall i :: 0 <= i < |s| ==> r[i] == UpperChar(s[i])
  {
    if s == [] then [] else [UpperChar(s[0])] + Upper(s[1..])
  }

  /** `s.toLowerCase()`, used to state that lookups ignore case. */
  function Lower(s: string): (r: string)
    ensures |r| == |s|
    ensures forall i :: 0 <= i < |s| ==> r[i] == LowerChar(s[i])
  {
    if s == [] then [] else [LowerChar(s[0])] + Lower(s[1..])
  }

  predicate IsCodeChar(ch: char) {
    '0' <= ch <= '9' || 'A' <= ch <= 'Z'
  }

  /**
   What `Math.random().toString(36).substring(2, 8).toUpperCase()` can
   return: at most six characters, each a digit or an upper-case letter
   (fewer than six when the base-36 fraction is short).
   */
  predicate IsGeneratedCode(s: string): (b: bool)
    ensures b ==> |s| <= 6 && Upper(s) == s
  {
    |s| <= 6 && forall i :: 0 <= i < |s| ==> IsCodeChar(s[i])
  }

  /** Upper-casing twice is upper-casing once, so the client's and the
      coordinator's `toUpperCase` calls compose to one. */
  lemma UpperIdempotent(s: string)
    ensures Upper(Upper(s)) == Upper(s)
  {
  }

  /** Two codes that differ only in the case of their letters upper-case to the same key. */
  lemma UpperIgnoresCase(s: string)
    ensures Upper(Lower(s)) == Upper(s)
  {
  }

  /** A generated code is its own upper-case form, and so is its lower-case variant's. */
  lemma GeneratedCodeIsUpper(s: string)
    requires IsGeneratedCode(s)
    ensures Upper(s) == s
    ensures Upper(Lower(s)) == s
  {
    UpperIgnoresCase(s);
  }
}
