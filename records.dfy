/**
 * The records both pages receive from the server, and `Array.prototype.filter`
 * over them. The pages only read these snapshots.
 */
module Records {

  /** A jury panel as the jury list returns it. */
  datatype Jury = Jury(id: string, name: string, hasSubmitted: bool, paused: bool)

  /** A team; the pages only count teams. */
  datatype Team = Team(id: string)

  /** `s.filter(p)`: the elements satisfying `p`, each as often as in `s`, in their original order. */
  function Filter(s: seq<Jury>, p: Jury -> bool): (r: seq<Jury>)
    ensures |r| <= |s|
    ensures forall j :: j in r <==> j in s && p(j)
  {
    if s == [] then [] else (if p(s[0]) then [s[0]] else []) + Filter(s[1..], p)
  }

  /** Filtering a concatenation filters each part. */
  lemma {:induction false} FilterAppend(a: seq<Jury>, b: seq<Jury>, p: Jury -> bool)
    ensures Filter(a + b, p) == Filter(a, p) + Filter(b, p)
  {
    if a == [] {
      assert a + b == b;
    } else {
      assert (a + b)[1..] == a[1..] + b;
      FilterAppend(a[1..], b, p);
    }
  }

  /** Two filters whose predicates agree on every jury give the same list. */
  lemma {:induction false} FilterExtensional(s: seq<Jury>, p: Jury -> bool, q: Jury -> bool)
    requires forall j :: p(j) == q(j)
    ensures Filter(s, p) == Filter(s, q)
  {
    if s != [] {
      FilterExtensional(s[1..], p, q);
    }
  }

  /**
   * The filter keeps duplicates: each jury occurs in the result as often as in
   * the input when it satisfies the predicate, and not at all otherwise.
   */
  lemma {:induction false} FilterMultiplicity(s: seq<Jury>, p: Jury -> bool)
    ensures forall j :: multiset(Filter(s, p))[j] == (if p(j) then multiset(s)[j] else 0)
  {
    if s != [] {
      FilterMultiplicity(s[1..], p);
      assert s == [s[0]] + s[1..];
    }
  }

  /** Every element is kept exactly when every element satisfies the predicate. */
  lemma {:induction false} FilterKeepsAll(s: seq<Jury>, p: Jury -> bool)
    ensures |Filter(s, p)| == |s| <==> forall k :: 0 <= k < |s| ==> p(s[k])
  {
    if s != [] {
      var tail := s[1..];
      FilterKeepsAll(tail, p);
      FilterLengthStep(s, p);
      if forall k :: 0 <= k < |s| ==> p(s[k]) {
        forall k | 0 <= k < |tail| ensures p(tail[k]) {
          assert tail[k] == s[k + 1];
        }
      } else {
        var k :| 0 <= k < |s| && !p(s[k]);
        if k > 0 {
          assert tail[k - 1] == s[k];
        }
      }
    }
  }

  /** One step of the filter's length: the head counts once if it passes. */
  lemma FilterLengthStep(s: seq<Jury>, p: Jury -> bool)
    requires s != []
    ensures |Filter(s, p)| == (if p(s[0]) then 1 else 0) + |Filter(s[1..], p)|
  {
  }

  /** Nothing is kept exactly when no element satisfies the predicate. */
  lemma {:induction false} FilterKeepsNone(s: seq<Jury>, p: Jury -> bool)
    ensures |Filter(s, p)| == 0 <==> forall k :: 0 <= k < |s| ==> !p(s[k])
  {
    if s != [] {
      FilterKeepsNone(s[1..], p);
      assert forall k :: 1 <= k < |s| ==> s[k] == s[1..][k - 1];
    }
  }
}
