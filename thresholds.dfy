/**
 * The "largest threshold not above x" search that the panic timer and the
 * delusion slider both run over a table sorted by threshold: a loop from the
 * last entry down to the first that returns the first one whose threshold is
 * at most x, and the first entry when none is.
 */
module Thresholds {

  /** Thresholds strictly increasing, as both tables list them. */
  predicate Ascending(ths: seq<int>) {
    forall i, j :: 0 <= i < j < |ths| ==> ths[i] < ths[j]
  }

  /** The loop's answer when it starts below position `n`: the search of `ths[..n]` from the back. */
  function SearchBelow(ths: seq<int>, x: int, n: nat): (k: nat)
    requires 0 < |ths| && n <= |ths|
    ensures k < |ths|
    ensures (exists j :: 0 <= j < n && ths[j] <= x) ==>
              k < n && ths[k] <= x && forall j :: k < j < n ==> x < ths[j]
    ensures (forall j :: 0 <= j < n ==> x < ths[j]) ==> k == 0
  {
    if n == 0 then 0
    else if x >= ths[n - 1] then n - 1
    else SearchBelow(ths, x, n - 1)
  }

  /** The index the backward search returns over the whole table. */
  function LastAtMost(ths: seq<int>, x: int): nat
    requires 0 < |ths|
  {
    SearchBelow(ths, x, |ths|)
  }

  /**
   * On an ascending table whose first threshold is at most `x`, the search
   * returns the entry with the largest threshold not above `x`.
   */
  lemma LastAtMostIsLargestBelow(ths: seq<int>, x: int)
    requires 0 < |ths| && Ascending(ths) && ths[0] <= x
    ensures ths[LastAtMost(ths, x)] <= x
    ensures forall j :: 0 <= j < |ths| && ths[j] <= x ==> ths[j] <= ths[LastAtMost(ths, x)]
  {
  }

  /**
   * The loop runs out without returning, and the final `return` of the first
   * entry is reached, exactly when `x` is below the first threshold.
   */
  lemma FallbackIffBelowFirst(ths: seq<int>, x: int)
    requires 0 < |ths| && Ascending(ths)
    ensures (forall j :: 0 <= j < |ths| ==> x < ths[j]) <==> x < ths[0]
    ensures x < ths[0] ==> LastAtMost(ths, x) == 0
  {
  }

  /** Raising `x` never moves the answer to an earlier entry. */
  lemma {:induction false} SearchBelowMonotone(ths: seq<int>, x: int, y: int, n: nat)
    requires 0 < |ths| && n <= |ths| && Ascending(ths) && x <= y
    ensures SearchBelow(ths, x, n) <= SearchBelow(ths, y, n)
  {
    if n > 0 && y < ths[n - 1] {
      SearchBelowMonotone(ths, x, y, n - 1);
    }
  }

  lemma LastAtMostMonotone(ths: seq<int>, x: int, y: int)
    requires 0 < |ths| && Ascending(ths) && x <= y
    ensures LastAtMost(ths, x) <= LastAtMost(ths, y)
  {
    SearchBelowMonotone(ths, x, y, |ths|);
  }

  /** The exact threshold of entry `i` selects entry `i`. */
  lemma LastAtMostAtThreshold(ths: seq<int>, i: nat)
    requires i < |ths| && Ascending(ths)
    ensures LastAtMost(ths, ths[i]) == i
  {
  }

  /**
   * The loop itself: `for (let i = ths.length - 1; i >= 0; i--) if (x >= ths[i]) return i;`
   * followed by `return 0`.
   */
  method FindLastAtMost(ths: seq<int>, x: int) returns (k: nat)
    requires 0 < |ths|
    ensures k == LastAtMost(ths, x)
  {
    for i := |ths| downto 0
      invariant forall j :: i <= j < |ths| ==> x < ths[j]
      invariant SearchBelow(ths, x, |ths|) == SearchBelow(ths, x, i)
    {
      if x >= ths[i] {
        return i;
      }
    }
    return 0;
  }
}
