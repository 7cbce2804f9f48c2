/** The JavaScript string operations the pages apply to form input. */
module Text {

  predicate IsLowerAscii(c: char) { 'a' <= c <= 'z' }

  /** `toUpperCase` on one character: ASCII letters are raised, the rest kept. */
  function ToUpperChar(c: char): char
  {
    if IsLowerAscii(c) then (c as int - 32) as char else c
  }

  /** `s.toUpperCase()`, character by character. */
  function ToUpperCase(s: string): (r: string)
    ensures |r| == |s|
    ensures forall i :: 0 <= i < |s| ==> r[i] == ToUpperChar(s[i])
  {
    if s == [] then [] else [ToUpperChar(s[0])] + ToUpperCase(s[1..])
  }

  predicate HasNoLowerCase(s: string) { forall i :: 0 <= i < |s| ==> !IsLowerAscii(s[i]) }

  /** Upper-casing leaves no lower-case letter and changes nothing a second time. */
  lemma ToUpperCaseNormalises(s: string)
    ensures HasNoLowerCase(ToUpperCase(s))
    ensures ToUpperCase(ToUpperCase(s)) == ToUpperCase(s)
  {
  }

  /** `s.slice(0, n)` for a non-negative `n`. */
  function Prefix(s: string, n: nat): (r: string)
    ensures |r| == if n < |s| then n else |s|
    ensures r == s[..|r|]
  {
    if n < |s| then s[..n] else s
  }

  /**
   * The value an `<input maxLength={maxLength}>` whose `onChange` upper-cases
   * `e.target.value` stores: the browser keeps at most `maxLength` typed
   * characters, and the handler upper-cases them.
   */
  function CodeFieldValue(typed: string, maxLength: nat): (r: string)
    ensures |r| == if |typed| < maxLength then |typed| else maxLength
    ensures HasNoLowerCase(r)
    ensures forall i :: 0 <= i < |r| ==> r[i] == ToUpperChar(typed[i])
  {
    ToUpperCase(Prefix(typed, maxLength))
  }

  /** Feeding a stored code back through the input changes nothing. */
  lemma CodeFieldValueStable(typed: string, maxLength: nat)
    ensures CodeFieldValue(CodeFieldValue(typed, maxLength), maxLength) == CodeFieldValue(typed, maxLength)
  {
    ToUpperCaseNormalises(Prefix(typed, maxLength));
  }
}
