/** Small facts about strings shared by the message builders and their parsers. */
module Text {

  /** `part` occurs in `s` starting at index `i`. */
  predicate IsAt(s: string, part: string, i: int)
  {
    0 <= i <= |s| - |part| && s[i..i + |part|] == part
  }

  /** `strings.Contains(s, part)`. */
  predicate Contains(s: string, part: string)
  {
    exists i | 0 <= i <= |s| :: IsAt(s, part, i)
  }

  lemma ContainsMiddle(a: string, b: string, c: string)
    ensures Contains(a + b + c, b)
  {
    assert (a + b + c)[|a|..|a| + |b|] == b;
    assert IsAt(a + b + c, b, |a|);
  }

  lemma ContainsTransitive(s: string, mid: string, part: string)
    requires Contains(s, mid) && Contains(mid, part)
    ensures Contains(s, part)
  {
    var i :| 0 <= i <= |s| && IsAt(s, mid, i);
    var j :| 0 <= j <= |mid| && IsAt(mid, part, j);
    assert s[i..i + |mid|] == mid;
    assert mid[j..j + |part|] == part;
    assert s[i + j..i + j + |part|] == part by {
      forall k | 0 <= k < |part|
        ensures s[i + j + k] == part[k]
      {
        assert s[i + j + k] == s[i..i + |mid|][j + k];
      }
    }
    assert IsAt(s, part, i + j);
  }

  /** `strings.LastIndexByte(s, c)`: the index of the last `c` in `s`, or -1. */
  function LastIndexOf(s: string, c: char): (r: int)
    ensures -1 <= r < |s|
    ensures r >= 0 ==> s[r] == c
    ensures forall k :: r < k < |s| ==> s[k] != c
    ensures r == -1 <==> c !in s
  {
    if s == [] then -1
    else if s[|s| - 1] == c then |s| - 1
    else
      var r := LastIndexOf(s[..|s| - 1], c);
      assert s == s[..|s| - 1] + [s[|s| - 1]];
      r
  }

  /** The separator `c` ends the prefix: it is the last `c` when the suffix has none. */
  lemma {:induction false} LastIndexOfJoin(prefix: string, c: char, suffix: string)
    requires c !in suffix
    ensures LastIndexOf(prefix + [c] + suffix, c) == |prefix|
  {
    var s := prefix + [c] + suffix;
    if suffix == [] {
      assert s[|s| - 1] == c;
    } else {
      var last := suffix[|suffix| - 1];
      assert last in suffix;
      assert s[|s| - 1] == last;
      assert s[..|s| - 1] == prefix + [c] + suffix[..|suffix| - 1];
      LastIndexOfJoin(prefix, c, suffix[..|suffix| - 1]);
    }
  }
}
