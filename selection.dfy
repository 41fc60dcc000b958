/** Product selection with the duplicate policy (src/App.tsx:134-149). */
module Selection {
  import opened Prng

  /** Every index below `n` has been used. */
  ghost predicate Exhausted(n: nat, used: set<nat>) {
    forall x: nat :: x < n ==> x in used
  }

  /** `availableIndices`: the indices below `n` not in `used`, ascending (lines 139-141). */
  function Available(n: nat, used: set<nat>): seq<nat> {
    if n == 0 then []
    else Available(n - 1, used) + (if n - 1 in used then [] else [n - 1])
  }

  /** `availableIndices` lists, in ascending order, exactly the unused indices below `n`. */
  lemma {:induction false} AvailableSpec(n: nat, used: set<nat>)
    ensures var r := Available(n, used);
      && (forall i :: 0 <= i < |r| ==> r[i] < n && r[i] !in used)
      && (forall x: nat :: x < n && x !in used ==> x in r)
      && (forall i, j :: 0 <= i < j < |r| ==> r[i] < r[j])
  {
    if n > 0 {
      AvailableSpec(n - 1, used);
    }
  }

  datatype Pick = Pick(index: nat, used: set<nat>, rng: U32)

  /**
   * One product choice: exactly one draw in every branch; without duplicates
   * the pick avoids the used set unless it covers every index, in which case
   * the set is cleared first and holds only the new pick afterwards.
   */
  function SelectProduct(allowDuplicates: bool, n: nat, used: set<nat>, rng: U32, out: U32 -> U32): (r: Pick)
    requires n > 0
    ensures r.index < n
    ensures r.rng == Advance(rng, 1)
    ensures allowDuplicates ==> r.used == used
    ensures !allowDuplicates && !Exhausted(n, used) ==> r.index !in used && r.used == used + {r.index}
    ensures !allowDuplicates && Exhausted(n, used) ==> r.used == {r.index}
  {
    var next := Advance(rng, 1);
    var u := out(next);
    if allowDuplicates then Pick(FloorScaled(u, n), used, next)
    else
      var availableIndices := Available(n, used);
      if |availableIndices| == 0 then
        AvailableSpec(n, used);
        var cleared: set<nat> := {};
        var productIndex := FloorScaled(u, n);
        Pick(productIndex, cleared + {productIndex}, next)
      else
        var productIndex := availableIndices[FloorScaled(u, |availableIndices|)];
        AvailableSpec(n, used);
        Pick(productIndex, used + {productIndex}, next)
  }

  /** The indices below `n`. */
  function Below(n: nat): (s: set<nat>)
    ensures forall x: nat :: x in s <==> x < n
    ensures |s| == n
  {
    if n == 0 then {} else
      var s := Below(n - 1) + {n - 1};
      assert n - 1 !in Below(n - 1);
      s
  }

  /** A set of indices below `n` is exhausted as soon as it has `n` elements. */
  lemma ExhaustedByCount(n: nat, used: set<nat>)
    requires forall x :: x in used ==> x < n
    ensures Exhausted(n, used) <==> |used| >= n
  {
    var all := Below(n);
    assert used <= all;
    if Exhausted(n, used) {
      assert all <= used;
      assert used == all;
    } else {
      var x: nat :| x < n && x !in used;
      assert used < all;
      SubsetSmaller(used, all);
    }
  }

  lemma SubsetSmaller(a: set<nat>, b: set<nat>)
    requires a < b
    ensures |a| < |b|
  {
    var x :| x in b && x !in a;
    SubsetAtMost(a, b - {x});
  }

  lemma {:induction false} SubsetAtMost(a: set<nat>, b: set<nat>)
    requires a <= b
    ensures |a| <= |b|
    decreases |a|
  {
    if a != {} {
      var y :| y in a;
      SubsetAtMost(a - {y}, b - {y});
    }
  }
}
