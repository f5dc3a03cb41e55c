/**
 The merge the aggregating provider performs: starting from an empty mapping,
 `values.update(...)` with each provider's values in registration order, so a key
 takes its value from the last map that holds it.
 */
module Merge {
  import opened ConfigTypes

  /** Reference definition of precedence: the index of the last map in `vs` that
      holds `k`, or -1 when none does. */
  function LastProviding(vs: seq<Values>, k: string): (i: int)
    ensures -1 <= i < |vs|
    ensures i >= 0 ==> k in vs[i]
    ensures forall j :: i < j < |vs| ==> k !in vs[j]
    decreases |vs|
  {
    if |vs| == 0 then -1
    else if k in vs[|vs| - 1] then |vs| - 1
    else LastProviding(vs[..|vs| - 1], k)
  }

  /** The left-to-right `dict.update` fold over `vs`. */
  function MergeAll(vs: seq<Values>): (r: Values)
    ensures |vs| == 0 ==> r == map[]
    ensures |vs| > 0 ==> forall k :: k in vs[|vs| - 1] ==> k in r && r[k] == vs[|vs| - 1][k]
    decreases |vs|
  {
    if |vs| == 0 then map[] else MergeAll(vs[..|vs| - 1]) + vs[|vs| - 1]
  }

  /** One more map is one more `update`. */
  lemma MergeSnoc(vs: seq<Values>, v: Values)
    ensures MergeAll(vs + [v]) == MergeAll(vs) + v
  {
  }

  /** Two updates in a row are one update with the combined mapping. */
  lemma UpdateAssociates(x: Values, y: Values, z: Values)
    ensures (x + y) + z == x + (y + z)
  {
  }

  /** The fold agrees with the reference: a key is merged exactly when some map
      holds it, and its merged value is the one of the last map holding it. */
  lemma {:induction false} MergeMatchesReference(vs: seq<Values>, k: string)
    ensures k in MergeAll(vs) <==> LastProviding(vs, k) >= 0
    ensures k in MergeAll(vs) ==> MergeAll(vs)[k] == vs[LastProviding(vs, k)][k]
    decreases |vs|
  {
    if |vs| > 0 && k !in vs[|vs| - 1] {
      var front := vs[..|vs| - 1];
      MergeMatchesReference(front, k);
      var i := LastProviding(front, k);
      if i >= 0 {
        assert front[i] == vs[i];
      }
    }
  }

  /** Union of keys: a key is in the merge exactly when some map holds it; in
      particular merging nothing gives the empty mapping. */
  lemma {:induction false} MergedKeysAreUnion(vs: seq<Values>, k: string)
    ensures k in MergeAll(vs) <==> exists i :: 0 <= i < |vs| && k in vs[i]
    ensures |vs| == 0 ==> MergeAll(vs) == map[]
  {
    MergeMatchesReference(vs, k);
    if k in MergeAll(vs) {
      var i := LastProviding(vs, k);
      assert 0 <= i < |vs| && k in vs[i];
    }
  }

  /** Later wins: if map `i` holds `k` and no later map does, the merge takes
      the value of `k` from map `i`. */
  lemma {:induction false} LaterMapWins(vs: seq<Values>, i: int, k: string)
    requires 0 <= i < |vs| && k in vs[i]
    requires forall j :: i < j < |vs| ==> k !in vs[j]
    ensures k in MergeAll(vs) && MergeAll(vs)[k] == vs[i][k]
  {
    MergeMatchesReference(vs, k);
  }

  /** Merging in two parts is merging the concatenation: the fold is a monoid
      homomorphism from sequences of maps into `+` on maps. */
  lemma {:induction false} MergeConcat(a: seq<Values>, b: seq<Values>)
    ensures MergeAll(a + b) == MergeAll(a) + MergeAll(b)
    decreases |b|
  {
    if |b| == 0 {
      assert a + b == a;
    } else {
      var b', v := b[..|b| - 1], b[|b| - 1];
      assert b == b' + [v];
      assert a + b == (a + b') + [v];
      MergeSnoc(a + b', v);
      MergeSnoc(b', v);
      MergeConcat(a, b');
      UpdateAssociates(MergeAll(a), MergeAll(b'), v);
    }
  }

  /** Non-interference: appending a map that does not hold `k` leaves `k`
      as it was, present with the same value or absent. */
  lemma AppendKeepsOtherKeys(vs: seq<Values>, v: Values, k: string)
    requires k !in v
    ensures k in MergeAll(vs + [v]) <==> k in MergeAll(vs)
    ensures k in MergeAll(vs) ==> MergeAll(vs + [v])[k] == MergeAll(vs)[k]
  {
  }

  /** Appending a map that holds `k` makes its value the merged one. */
  lemma AppendOverrides(vs: seq<Values>, v: Values, k: string)
    requires k in v
    ensures k in MergeAll(vs + [v]) && MergeAll(vs + [v])[k] == v[k]
  {
  }
}
