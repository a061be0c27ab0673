/** Shared vocabulary of the storefront model: optional values (JavaScript's
    `undefined`) and the lower-casing used for case-insensitive comparisons. */
module Common {

  /** A value that may be absent, as an `undefined` property is in the source. */
  datatype Option<T> = None | Some(value: T)

  /** `String.prototype.toLowerCase` on one character, restricted to ASCII letters. */
  function LowerChar(c: char): char
  {
    if 'A' <= c <= 'Z' then (c as int + 32) as char else c
  }

  /** `toLowerCase` on a whole string: the same length, every character lowered. */
  function Lower(s: string): (r: string)
    ensures |r| == |s|
    ensures forall i :: 0 <= i < |s| ==> r[i] == LowerChar(s[i])
  {
    if s == [] then [] else [LowerChar(s[0])] + Lower(s[1..])
  }

}
