/** The two string operations the coordinator applies to bus data. */
module Text {

  /** topic.split("/")[-1]: the text after the last '/', or all of s when it has none. */
  function LastSegment(s: string): (r: string)
    ensures '/' !in r
    ensures |r| <= |s| && r == s[|s| - |r|..]
    ensures |r| < |s| ==> s[|s| - |r| - 1] == '/'
    decreases |s|
  {
    if |s| == 0 || s[|s| - 1] == '/' then ""
    else LastSegment(s[..|s| - 1]) + [s[|s| - 1]]
  }

  /** A topic whose segments are joined by '/' dispatches on its final segment. */
  lemma {:induction false} LastSegmentAfterSlash(prefix: string, w: string)
    requires '/' !in w
    ensures LastSegment(prefix + "/" + w) == w
  {
    var s := prefix + "/" + w;
    var r := LastSegment(s);
    assert s[|prefix|] == '/';
    assert s[|s| - |w|..] == w;
  }

  /** A topic without any '/' is its own last segment. */
  lemma LastSegmentOfPlain(s: string)
    requires '/' !in s
    ensures LastSegment(s) == s
  {
  }

  /** str.upper() on one character, for the ASCII letters. */
  function UpperChar(c: char): char {
    if 'a' <= c <= 'z' then (c as int - 32) as char else c
  }

  /** str.upper(), for the ASCII letters. */
  function Upper(s: string): (r: string)
    ensures |r| == |s|
    ensures forall i :: 0 <= i < |s| ==> r[i] == UpperChar(s[i])
  {
    seq(|s|, i requires 0 <= i < |s| => UpperChar(s[i]))
  }

  predicate NoLower(s: string) {
    forall i :: 0 <= i < |s| ==> !('a' <= s[i] <= 'z')
  }

  /** Upper leaves no lower-case letter, and changes nothing that has none. */
  lemma UpperIsUpperCase(s: string)
    ensures NoLower(Upper(s))
    ensures NoLower(s) ==> Upper(s) == s
    ensures Upper(Upper(s)) == Upper(s)
  {
  }
}
