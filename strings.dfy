/** The two helpers of Go's strings package that the core uses. */
module Strings {

  /** Index of the first occurrence of `c` in `s`, or |s| when absent. */
  function IndexOf(s: string, c: char): (i: nat)
    ensures i <= |s|
    ensures i < |s| ==> s[i] == c
    ensures forall j :: 0 <= j < i ==> s[j] != c
  {
    if |s| == 0 then 0
    else if s[0] == c then 0
    else 1 + IndexOf(s[1..], c)
  }

  /** strings.Cut(s, sep) for a one-character separator: the text before the
      first `sep`, the text after it, and whether `sep` occurred at all.
      Without `sep` the result is (s, "", false). */
  function Cut(s: string, sep: char): (r: (string, string, bool))
    ensures r.2 <==> sep in s
    ensures sep !in r.0
    ensures r.2 ==> r.0 + [sep] + r.1 == s
    ensures !r.2 ==> r.0 == s && r.1 == ""
  {
    var i := IndexOf(s, sep);
    if i == |s| then (s, "", false)
    else
      assert s == s[..i] + [sep] + s[i + 1..];
      (s[..i], s[i + 1..], true)
  }

  function LowerChar(c: char): char {
    if 'A' <= c <= 'Z' then (c as int - 'A' as int + 'a' as int) as char else c
  }

  /** strings.ToLower restricted to ASCII letters. */
  function Lower(s: string): (r: string)
    ensures |r| == |s|
    ensures forall i :: 0 <= i < |s| ==> r[i] == LowerChar(s[i])
    ensures forall i :: 0 <= i < |r| ==> !('A' <= r[i] <= 'Z')
  {
    if s == [] then [] else [LowerChar(s[0])] + Lower(s[1..])
  }

  /** Lower-casing twice is the same as once. */
  lemma {:induction false} LowerIdempotent(s: string)
    ensures Lower(Lower(s)) == Lower(s)
  {
    if s != [] {
      LowerIdempotent(s[1..]);
      assert Lower(s)[1..] == Lower(s[1..]);
    }
  }
}
