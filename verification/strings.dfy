/** String helpers shared by the SHA matcher, the WIP check and the comment texts. */
module Strings {

  /** `p` is a prefix of `s` (Python's `s[:len(p)] == p` with `len(p) <= len(s)`). */
  predicate IsPrefix(p: string, s: string) {
    |p| <= |s| && p == s[..|p|]
  }

  /** ASCII upper-casing of one character, as `str.upper` does on ASCII text. */
  function UpperChar(c: char): char {
    if 'a' <= c <= 'z' then (c as int - 'a' as int + 'A' as int) as char else c
  }

  function Upper(s: string): (r: string)
    ensures |r| == |s|
    ensures forall i :: 0 <= i < |s| ==> r[i] == UpperChar(s[i])
  {
    seq(|s|, i requires 0 <= i < |s| => UpperChar(s[i]))
  }

  /** Upper-casing twice is upper-casing once. */
  lemma UpperIdempotent(s: string)
    ensures Upper(Upper(s)) == Upper(s)
  {
  }

  /** Does `s` start with one of `markers`? (the first match ends the search) */
  function StartsWithAny(s: string, markers: seq<string>): (r: bool)
    ensures r <==> exists i :: 0 <= i < |markers| && IsPrefix(markers[i], s)
  {
    if markers == [] then false
    else IsPrefix(markers[0], s) || StartsWithAny(s, markers[1..])
  }

  /** Python's `sep.join(parts)`. */
  function Join(parts: seq<string>, sep: string): string {
    if parts == [] then ""
    else if |parts| == 1 then parts[0]
    else parts[0] + sep + Join(parts[1..], sep)
  }
}
