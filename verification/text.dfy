/** The string operations the loop detector relies on: ASCII lower-casing
    (standing in for Python's `str.lower`) and substring search (Python's
    `needle in haystack`). */
module Text {

  predicate IsUpper(c: char) {
    'A' <= c <= 'Z'
  }

  function LowerChar(c: char): (r: char)
    ensures !IsUpper(r)
    ensures IsUpper(c) ==> r as int == c as int + 32
    ensures !IsUpper(c) ==> r == c
  {
    if IsUpper(c) then (c as int + 32) as char else c
  }

  function Lower(s: string): (r: string)
    ensures |r| == |s|
    ensures forall i :: 0 <= i < |s| ==> r[i] == LowerChar(s[i])
  {
    seq(|s|, i requires 0 <= i < |s| => LowerChar(s[i]))
  }

  predicate IsPrefix(prefix: string, s: string) {
    |prefix| <= |s| && s[..|prefix|] == prefix
  }

  /** `needle in haystack`: the needle starts at the front, or somewhere in the rest. */
  predicate Contains(haystack: string, needle: string)
    decreases |haystack|
  {
    IsPrefix(needle, haystack) || (|haystack| > 0 && Contains(haystack[1..], needle))
  }

  /** Reference meaning of substring: the needle sits at offset `i`. */
  ghost predicate OccursAt(haystack: string, needle: string, i: int) {
    0 <= i && i + |needle| <= |haystack| && haystack[i..i + |needle|] == needle
  }

  /** `Contains` agrees with the positional definition of a substring. */
  lemma {:induction false} ContainsIffOccurs(haystack: string, needle: string)
    ensures Contains(haystack, needle) <==> exists i :: OccursAt(haystack, needle, i)
    decreases |haystack|
  {
    if IsPrefix(needle, haystack) {
      assert OccursAt(haystack, needle, 0);
    } else if |haystack| == 0 {
    } else {
      var tail := haystack[1..];
      ContainsIffOccurs(tail, needle);
      if Contains(tail, needle) {
        var j :| OccursAt(tail, needle, j);
        assert haystack[j + 1..j + 1 + |needle|] == tail[j..j + |needle|];
        assert OccursAt(haystack, needle, j + 1);
      } else {
        forall i | OccursAt(haystack, needle, i) && i > 0
          ensures OccursAt(tail, needle, i - 1)
        {
          assert tail[i - 1..i - 1 + |needle|] == haystack[i..i + |needle|];
        }
      }
    }
  }

  /** `phrase.lower() in msg.lower()`. */
  predicate ContainsIgnoringCase(haystack: string, needle: string) {
    Contains(Lower(haystack), Lower(needle))
  }

  /** An exact occurrence is also an occurrence once both sides are lower-cased. */
  lemma ExactImpliesIgnoringCase(haystack: string, needle: string)
    requires Contains(haystack, needle)
    ensures ContainsIgnoringCase(haystack, needle)
  {
    ContainsIffOccurs(haystack, needle);
    var i :| OccursAt(haystack, needle, i);
    var lh, ln := Lower(haystack), Lower(needle);
    assert lh[i..i + |needle|] == ln by {
      forall k | 0 <= k < |needle|
        ensures lh[i..i + |needle|][k] == ln[k]
      {
        assert haystack[i..i + |needle|][k] == needle[k];
      }
    }
    assert OccursAt(lh, ln, i);
    ContainsIffOccurs(lh, ln);
  }
}
