/**
 * Counting over the asteroid slot array: how many slots are live, and the
 * rank of a slot among the free ones. The game's `asteroidCount` is kept
 * equal to `ActiveCount` of the slots, and `SpawnAsteroids` fills free slots
 * in rank order.
 */
module Slots {
  import opened Entities

  /** The number of active slots. */
  function ActiveCount(s: seq<Asteroid>): (n: nat)
    ensures n <= |s|
  {
    if s == [] then 0 else ActiveCount(s[..|s| - 1]) + (if s[|s| - 1].isActive then 1 else 0)
  }

  function FreeCount(s: seq<Asteroid>): nat {
    |s| - ActiveCount(s)
  }

  /** How many free slots lie below slot `i`. */
  function FreeRank(s: seq<Asteroid>, i: int): nat
    requires 0 <= i <= |s|
  {
    FreeCount(s[..i])
  }

  /** Replacing one slot moves the count by the change in that slot's activity. */
  lemma {:induction false} ActiveCountUpdate(s: seq<Asteroid>, i: int, a: Asteroid)
    requires 0 <= i < |s|
    ensures ActiveCount(s[i := a]) == ActiveCount(s) - (if s[i].isActive then 1 else 0) + (if a.isActive then 1 else 0)
    decreases |s|
  {
    var t := s[i := a];
    var n := |s| - 1;
    if i == n {
      assert t[..n] == s[..n];
    } else {
      assert t[..n] == s[..n][i := a];
      ActiveCountUpdate(s[..n], i, a);
    }
  }

  /** The count is zero exactly when every slot is free. */
  lemma {:induction false} ActiveCountZero(s: seq<Asteroid>)
    ensures ActiveCount(s) == 0 <==> forall j :: 0 <= j < |s| ==> !s[j].isActive
    decreases |s|
  {
    if s != [] {
      var n := |s| - 1;
      ActiveCountZero(s[..n]);
      assert forall j :: 0 <= j < n ==> s[..n][j] == s[j];
    }
  }

  lemma FreeRankStep(s: seq<Asteroid>, i: int)
    requires 0 <= i < |s|
    ensures FreeRank(s, i + 1) == FreeRank(s, i) + (if s[i].isActive then 0 else 1)
  {
    assert s[..i + 1][..i] == s[..i];
  }

  lemma {:induction false} FreeRankMonotone(s: seq<Asteroid>, i: int, j: int)
    requires 0 <= i <= j <= |s|
    ensures FreeRank(s, i) <= FreeRank(s, j)
    decreases j - i
  {
    if i < j {
      FreeRankStep(s, j - 1);
      FreeRankMonotone(s, i, j - 1);
    }
  }

  lemma FreeRankWhole(s: seq<Asteroid>)
    ensures FreeRank(s, |s|) == FreeCount(s)
  {
    assert s[..|s|] == s;
  }

  /** With every slot free, slot `i` has rank `i`. */
  lemma FreeRankAllFree(s: seq<Asteroid>, i: int)
    requires forall j :: 0 <= j < |s| ==> !s[j].isActive
    requires 0 <= i <= |s|
    ensures FreeRank(s, i) == i
  {
    ActiveCountZero(s[..i]);
  }

  /** No two slots are free at once. */
  ghost predicate NoTwoFree(s: seq<Asteroid>) {
    forall p, q :: 0 <= p < q < |s| ==> s[p].isActive || s[q].isActive
  }

  /** `k` is the lowest free slot and `l` the next free one above it. */
  ghost predicate SplitSlots(s: seq<Asteroid>, k: int, l: int) {
    && 0 <= k < l < |s|
    && !s[k].isActive && !s[l].isActive
    && (forall i :: 0 <= i < k ==> s[i].isActive)
    && (forall i :: k < i < l ==> s[i].isActive)
  }

  /** Either there is a split pair or there are no two free slots, never both. */
  lemma SplitSlotsExclusive(s: seq<Asteroid>, k: int, l: int)
    requires SplitSlots(s, k, l)
    ensures !NoTwoFree(s)
  {
    assert !(s[k].isActive || s[l].isActive);
  }

  /** The nested first-free search of the split: the lowest free slot and the next free one. */
  method FindFreePair(rocks: array<Asteroid>) returns (k: int, l: int)
    ensures k == -1 <==> NoTwoFree(rocks[..])
    ensures k == -1 ==> l == -1
    ensures k != -1 ==> SplitSlots(rocks[..], k, l)
  {
    k, l := -1, -1;
    var a := 0;
    while a < rocks.Length
      invariant 0 <= a <= rocks.Length
      invariant forall i :: 0 <= i < a ==> rocks[i].isActive
    {
      if !rocks[a].isActive {
        var b := a + 1;
        while b < rocks.Length
          invariant a + 1 <= b <= rocks.Length
          invariant forall i :: a < i < b ==> rocks[i].isActive
        {
          if !rocks[b].isActive {
            k, l := a, b;
            SplitSlotsExclusive(rocks[..], k, l);
            return;
          }
          b := b + 1;
        }
        return;
      }
      a := a + 1;
    }
  }
}
