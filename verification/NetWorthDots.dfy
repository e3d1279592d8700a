/** `DashboardCalculator.calculateNetDotIndices`: which points of the net-worth chart get a dot. */
module NetWorthDots {
  import opened Prelude

  const MAX_DOTS := 30

  predicate ChangesAt(series: seq<int>, i: int) {
    1 <= i < |series| && series[i] != series[i - 1]
  }

  /** The change points in rising order, each once. */
  ghost predicate ListsChanges(series: seq<int>, bound: nat, changes: seq<nat>) {
    && (forall j, k :: 0 <= j < k < |changes| ==> changes[j] < changes[k])
    && (forall j :: 0 <= j < |changes| ==> changes[j] < bound && ChangesAt(series, changes[j]))
    && (forall i: nat :: i < bound && ChangesAt(series, i) ==> i in changes)
  }

  /** The smallest step that leaves at most 30 of `n` entries, and at least one. */
  function Stride(n: nat): (s: nat)
    ensures s >= 1 && n <= MAX_DOTS * s
  {
    Max(1, (n + MAX_DOTS - 1) / MAX_DOTS)
  }

  method FindChanges(series: seq<int>) returns (changes: seq<nat>)
    ensures ListsChanges(series, |series|, changes)
  {
    changes := [];
    var i := 1;
    while i < |series|
      invariant 1 <= i && (i <= |series| || |series| == 0)
      invariant ListsChanges(series, i, changes)
    {
      if series[i] != series[i - 1] {
        changes := changes + [i];
      }
      i := i + 1;
    }
  }

  lemma {:induction false} ScaleUp(a: nat, b: nat, stride: nat)
    ensures a >= b ==> a * stride >= b * stride
  {
  }

  /** Every stride-th entry, and the last one. */
  method PickEvery(changes: seq<nat>, stride: nat) returns (selected: set<nat>)
    requires changes != [] && stride >= 1 && |changes| <= MAX_DOTS * stride
    ensures |selected| <= MAX_DOTS + 1
    ensures forall i :: i in selected ==> i in changes
    ensures changes[0] in selected && changes[|changes| - 1] in selected
    ensures stride == 1 ==> forall j :: 0 <= j < |changes| ==> changes[j] in selected
  {
    selected := {};
    var k := 0;
    ghost var taken := 0;
    while k < |changes|
      invariant k == taken * stride && |selected| <= taken <= MAX_DOTS
      invariant forall i :: i in selected ==> i in changes
      invariant k > 0 ==> changes[0] in selected
      invariant stride == 1 ==> forall j :: 0 <= j < k && j < |changes| ==> changes[j] in selected
    {
      ScaleUp(taken, MAX_DOTS, stride);
      selected := selected + {changes[k]};
      taken := taken + 1;
      k := k + stride;
    }
    selected := selected + {changes[|changes| - 1]};
  }

  /** At most 31 dots, every one on a change, the first and last change among them, all of them while
      there are at most 30, and none exactly when nothing changed. */
  method CalculateNetDotIndices(series: seq<int>) returns (selected: set<nat>, ghost changes: seq<nat>)
    ensures ListsChanges(series, |series|, changes)
    ensures |selected| <= MAX_DOTS + 1
    ensures forall i :: i in selected ==> ChangesAt(series, i)
    ensures selected == {} <==> forall i: nat :: !ChangesAt(series, i)
    ensures changes != [] ==> changes[0] in selected && changes[|changes| - 1] in selected
    ensures |changes| <= MAX_DOTS ==> forall i: nat :: i in selected <==> ChangesAt(series, i)
  {
    selected := {};
    var found := FindChanges(series);
    changes := found;
    if |found| > 0 {
      selected := PickEvery(found, Stride(|found|));
      assert ChangesAt(series, found[0]);
    }
  }
}
