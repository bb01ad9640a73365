/**
 * The stacked volume bar of the combined histogram: for each strike, the
 * current volume and what is still missing to reach the target.
 */
module Histogram {

  import opened Wrappers

  /** One stacked bar: the lower part and the part drawn on top of it. */
  datatype BarPair = BarPair(base: int, top: int)

  /** The pair for one strike: below the target, the current volume and the gap; otherwise the target and nothing. */
  function PairFor(current: int, target: int): (b: BarPair)
    ensures b.base + b.top == target && b.top >= 0
    ensures b.base == (if current < target then current else target)
  {
    if current < target then BarPair(current, target - current) else BarPair(target, 0)
  }

  /** One pair per current volume, or the `IndexError` a shorter target list raises. */
  function VolumeBarsSpec(current: seq<int>, target: seq<int>): (r: Result<seq<BarPair>, string>)
    ensures r.Err? <==> |target| < |current|
    ensures r.Ok? ==> |r.value| == |current|
    ensures r.Ok? ==> forall i :: 0 <= i < |current| ==> r.value[i] == PairFor(current[i], target[i])
  {
    if |target| < |current| then Err("list index out of range")
    else Ok(seq(|current|, i requires 0 <= i < |current| => PairFor(current[i], target[i])))
  }

  /** The `volume_bars` loop. */
  method VolumeBars(current: seq<int>, target: seq<int>) returns (r: Result<seq<BarPair>, string>)
    ensures r == VolumeBarsSpec(current, target)
  {
    var bars: seq<BarPair> := [];
    for i := 0 to |current|
      invariant |bars| == i
      invariant i > 0 ==> i <= |target|
      invariant forall k :: 0 <= k < i ==> k < |target| && bars[k] == PairFor(current[k], target[k])
    {
      if i >= |target| {
        return Err("list index out of range");
      }
      if current[i] < target[i] {
        bars := bars + [BarPair(current[i], target[i] - current[i])];
      } else {
        bars := bars + [BarPair(target[i], 0)];
      }
    }
    if |target| < |current| {
      assert false;
    }
    assert bars == seq(|current|, i requires 0 <= i < |current| => PairFor(current[i], target[i]));
    r := Ok(bars);
  }

  function Sum(s: seq<int>): int
    decreases |s|
  {
    if s == [] then 0 else Sum(s[..|s| - 1]) + s[|s| - 1]
  }

  function BarHeights(bars: seq<BarPair>): seq<int> {
    seq(|bars|, i requires 0 <= i < |bars| => bars[i].base + bars[i].top)
  }

  /**
   * Every bar is as tall as its target, so the bars together are exactly
   * as tall as the targets they cover; no part drawn on top is negative.
   */
  lemma BarsReachTargets(current: seq<int>, target: seq<int>)
    requires |current| == |target|
    ensures VolumeBarsSpec(current, target).Ok?
    ensures BarHeights(VolumeBarsSpec(current, target).value) == target
    ensures Sum(BarHeights(VolumeBarsSpec(current, target).value)) == Sum(target)
    ensures forall i :: 0 <= i < |current| ==> VolumeBarsSpec(current, target).value[i].top >= 0
  {
    var bars := VolumeBarsSpec(current, target).value;
    assert BarHeights(bars) == target;
  }
}
