/** The JavaScript array and string operations the two components rely on. */
module Lists {

  /** No value occurs twice in `s`. */
  predicate NoDuplicates<T(==)>(s: seq<T>)
  {
    forall i, j :: 0 <= i < j < |s| ==> s[i] != s[j]
  }

  /** `Array.prototype.findIndex` with an equality test: the position of the first
      element equal to `x`, or -1 when there is none. */
  function FindIndex<T(==)>(s: seq<T>, x: T): (r: int)
    ensures -1 <= r < |s|
    ensures r == -1 <==> x !in s
    ensures 0 <= r ==> s[r] == x && x !in s[..r]
  {
    if |s| == 0 then -1
    else if s[0] == x then 0
    else
      var k := FindIndex(s[1..], x);
      assert k >= 0 ==> s[..k + 1] == [s[0]] + s[1..][..k];
      if k == -1 then -1 else k + 1
  }

  /** `Array.prototype.splice(start, 1)` for a non-negative `start`: the element at
      `start` is removed when there is one, and nothing happens past the end. */
  function RemoveAt<T>(s: seq<T>, start: nat): (r: seq<T>)
    ensures start < |s| ==> |r| == |s| - 1
    ensures start < |s| ==> forall j :: 0 <= j < start ==> r[j] == s[j]
    ensures start < |s| ==> forall j :: start <= j < |r| ==> r[j] == s[j + 1]
    ensures |s| <= start ==> r == s
  {
    if start < |s| then s[..start] + s[start + 1..] else s
  }

  /** `s[i..]` begins with `pat`. */
  predicate OccursAt<T(==)>(s: seq<T>, pat: seq<T>, i: nat)
  {
    i + |pat| <= |s| && s[i..i + |pat|] == pat
  }

  /** A search for `pat` as a contiguous part of `s` (what a regular expression made of
      literal characters tests). */
  function Contains<T(==)>(s: seq<T>, pat: seq<T>): bool
    decreases |s|
  {
    if |s| < |pat| then false
    else s[..|pat|] == pat || Contains(s[1..], pat)
  }

  /** In a duplicate-free list, `FindIndex` of the element at `i` is `i`. */
  lemma FindIndexOfDistinct<T>(s: seq<T>, i: nat)
    requires NoDuplicates(s) && i < |s|
    ensures FindIndex(s, s[i]) == i
  {
  }

  /** `RemoveAt` takes out exactly one element: putting it back at the same place gives
      the original list. */
  lemma RemoveAtReinsert<T>(s: seq<T>, i: nat)
    requires i < |s|
    ensures var r := RemoveAt(s, i); s == r[..i] + [s[i]] + r[i..]
  {
    var r := RemoveAt(s, i);
    assert r[..i] == s[..i];
    assert r[i..] == s[i + 1..];
  }

  /** `Contains` is the search it claims to be. */
  lemma {:induction false} ContainsMeansOccurs<T>(s: seq<T>, pat: seq<T>)
    ensures Contains(s, pat) <==> exists i: nat :: OccursAt(s, pat, i)
    decreases |s|
  {
    if |s| < |pat| {
      forall i: nat ensures !OccursAt(s, pat, i) { }
    } else if s[..|pat|] == pat {
      assert OccursAt(s, pat, 0);
    } else {
      ContainsMeansOccurs(s[1..], pat);
      forall i: nat | i + |pat| <= |s[1..]|
        ensures OccursAt(s[1..], pat, i) <==> OccursAt(s, pat, i + 1)
      {
        var shifted, original := s[1..][i..i + |pat|], s[i + 1..i + 1 + |pat|];
        forall k | 0 <= k < |pat| ensures shifted[k] == original[k] { }
        assert shifted == original;
      }
      if Contains(s, pat) {
        var i: nat :| OccursAt(s[1..], pat, i);
        assert OccursAt(s, pat, i + 1);
      } else {
        forall i: nat ensures !OccursAt(s, pat, i) {
          if i == 0 {
            assert s[0..|pat|] == s[..|pat|];
          } else {
            assert !OccursAt(s[1..], pat, i - 1);
          }
        }
      }
    }
  }
}
