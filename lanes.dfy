/** Counting the occupied slots of the sparse lane table. In the source the table is a
    JavaScript array with holes, and `filter(e => e).length` counts the slots holding an enemy;
    here a hole is `null`. */
module Lanes {
  import Config
  import opened Entities

  /** Number of non-empty slots of `s`. */
  function Occupied(s: seq<Enemy?>): (n: nat)
    ensures n <= |s|
    ensures n == 0 <==> forall i :: 0 <= i < |s| ==> s[i] == null
  {
    if s == [] then 0 else Occupied(s[..|s| - 1]) + (if s[|s| - 1] != null then 1 else 0)
  }

  /** Filling one hole adds exactly one to the count. */
  lemma {:induction false} OccupiedFill(s: seq<Enemy?>, i: nat, e: Enemy)
    requires i < |s| && s[i] == null
    ensures Occupied(s[i := e]) == Occupied(s) + 1
    decreases |s|
  {
    var n := |s| - 1;
    if i < n {
      assert s[i := e][..n] == s[..n][i := e];
      OccupiedFill(s[..n], i, e);
    } else {
      assert s[i := e][..n] == s[..n];
    }
  }

  /** A table whose every non-empty slot is also non-empty in `s` counts no more than `s`. */
  lemma {:induction false} OccupiedMonotone(t: seq<Enemy?>, s: seq<Enemy?>)
    requires |t| == |s|
    requires forall i :: 0 <= i < |t| && t[i] != null ==> s[i] != null
    ensures Occupied(t) <= Occupied(s)
    decreases |s|
  {
    if s != [] {
      OccupiedMonotone(t[..|t| - 1], s[..|s| - 1]);
    }
  }

  /** A table that is not full has a hole. */
  lemma {:induction false} HoleExists(s: seq<Enemy?>)
    requires Occupied(s) < |s|
    ensures exists i :: 0 <= i < |s| && s[i] == null
    decreases |s|
  {
    var n := |s| - 1;
    if s[n] != null {
      HoleExists(s[..n]);
      var i :| 0 <= i < n && s[..n][i] == null;
      assert s[i] == null;
    }
  }

  /** Lane alignment (the enemy in slot i sits at x = i * ENEMY_WIDTH) makes the
      enemies of different slots different objects. */
  lemma AlignedLanesDistinct(s: seq<Enemy?>)
    requires forall i :: 0 <= i < |s| && s[i] != null ==> s[i].x == i * Config.ENEMY_WIDTH
    ensures forall i, j :: 0 <= i < j < |s| && s[i] != null ==> s[i] != s[j]
  {
  }
}
