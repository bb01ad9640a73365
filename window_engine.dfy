/**
 * The window functions of the collector's analysis queries, over the rows of
 * the per-minute `GROUP BY time_window, strike_price, option_type`:
 * partitions per (strike, side) ordered by minute, the
 * `ROWS BETWEEN k PRECEDING AND CURRENT ROW` moving averages, the top-3 by
 * volume per (minute, side), `LAG` over the rows that survive it, the join
 * with the opposite side, and the null-guarded percent change.
 *
 * A row's minute is its `HH:MM` key read as minutes since midnight; by
 * `MarketClock.BucketKeyOrder` ordering by the key is ordering by minute.
 */
module WindowEngine {

  import opened Wrappers
  import opened Sorting
  import opened Sequences

  datatype Side = CE | PE {
    function Opposite(): (o: Side)
      ensures o != this
    {
      if this == CE then PE else CE
    }
  }

  /**
   * One grouped row: the minute, strike and side of the group, `SUM(volume)`,
   * `SUM(open_interest)`, `AVG(ltp)`, `AVG(iv)`, and the `iv` of one stored
   * row of the group (what SQLite yields for the bare column `i.iv` in an
   * aggregate query).
   */
  datatype Bucket = Bucket(window: nat, strike: real, side: Side, volume: int, oi: int,
                           ltp: real, iv: real, ivSample: real)

  predicate SameKey(a: Bucket, b: Bucket) {
    a.window == b.window && a.strike == b.strike && a.side == b.side
  }

  /** The grouped table has one row per (minute, strike, side). */
  predicate UniqueKeys(t: seq<Bucket>) {
    forall i, j :: 0 <= i < j < |t| ==> !SameKey(t[i], t[j])
  }

  lemma UniqueKeysValues(t: seq<Bucket>, x: Bucket, y: Bucket)
    requires UniqueKeys(t) && x in t && y in t && SameKey(x, y)
    ensures x == y
  {
    var i :| 0 <= i < |t| && t[i] == x;
    var j :| 0 <= j < |t| && t[j] == y;
    assert i == j;
  }

  predicate Ascending(s: seq<Bucket>) {
    forall i, j :: 0 <= i < j < |s| ==> s[i].window <= s[j].window
  }

  lemma TailAscending(s: seq<Bucket>)
    requires Ascending(s) && |s| > 0
    ensures Ascending(s[1..])
  {
    forall i, j | 0 <= i < j < |s| - 1 ensures s[1..][i].window <= s[1..][j].window {
      assert s[1..][i] == s[i + 1] && s[1..][j] == s[j + 1];
    }
  }

  lemma ConsAscending(h: Bucket, r: seq<Bucket>)
    requires Ascending(r)
    requires forall i :: 0 <= i < |r| ==> h.window <= r[i].window
    ensures Ascending([h] + r)
  {
    var c := [h] + r;
    forall i, j | 0 <= i < j < |c| ensures c[i].window <= c[j].window {
      assert c[j] == r[j - 1];
      if i > 0 { assert c[i] == r[i - 1]; }
    }
  }

  lemma FilterWindowsAtLeast(s: seq<Bucket>, p: Bucket -> bool, w: int)
    requires forall i :: 0 <= i < |s| ==> w <= s[i].window
    ensures forall i :: 0 <= i < |Filter(s, p)| ==> w <= Filter(s, p)[i].window
  {
    var f := Filter(s, p);
    forall i | 0 <= i < |f| ensures w <= f[i].window {
      var m :| 0 <= m < |s| && s[m] == f[i];
    }
  }

  lemma {:induction false} FilterAscending(s: seq<Bucket>, p: Bucket -> bool)
    requires Ascending(s)
    ensures Ascending(Filter(s, p))
  {
    if s != [] {
      var tl := s[1..];
      TailAscending(s);
      FilterAscending(tl, p);
      if p(s[0]) {
        assert forall i :: 0 <= i < |tl| ==> s[0].window <= tl[i].window by {
          forall i | 0 <= i < |tl| ensures s[0].window <= tl[i].window {
            assert tl[i] == s[i + 1];
          }
        }
        FilterWindowsAtLeast(tl, p, s[0].window);
        ConsAscending(s[0], Filter(tl, p));
        assert Filter(s, p) == [s[0]] + Filter(tl, p);
      } else {
        assert Filter(s, p) == Filter(tl, p);
      }
    }
  }

  lemma MultisetMembers(a: seq<Bucket>, b: seq<Bucket>, x: Bucket)
    requires multiset(a) == multiset(b)
    ensures x in a <==> x in b
  {
    assert x in a <==> x in multiset(a);
    assert x in b <==> x in multiset(b);
  }

  /** The sort key that puts the latest minute last when sorted in descending order. */
  function LaterLast(b: Bucket): real {
    -(b.window as real)
  }

  /** Sorting the partition's rows by `LaterLast` orders them by minute and keeps exactly them. */
  lemma PartitionRows(t: seq<Bucket>, strike: real, side: Side, members: seq<Bucket>, d: seq<Bucket>)
    requires forall i :: 0 <= i < |members| ==> members[i] in t && members[i].strike == strike && members[i].side == side
    requires forall i :: 0 <= i < |t| && t[i].strike == strike && t[i].side == side ==> t[i] in members
    requires multiset(d) == multiset(members) && SortedDesc(d, LaterLast)
    ensures Ascending(d)
    ensures forall i :: 0 <= i < |d| ==> d[i] in t && d[i].strike == strike && d[i].side == side
    ensures forall b :: b in t && b.strike == strike && b.side == side ==> b in d
  {
    forall i, j | 0 <= i < j < |d| ensures d[i].window <= d[j].window {
      assert LaterLast(d[i]) >= LaterLast(d[j]);
    }
    forall i | 0 <= i < |d| ensures d[i] in t && d[i].strike == strike && d[i].side == side {
      MultisetMembers(d, members, d[i]);
      var k :| 0 <= k < |members| && members[k] == d[i];
    }
    forall b | b in t && b.strike == strike && b.side == side ensures b in d {
      var i :| 0 <= i < |t| && t[i] == b;
      assert b in members;
      MultisetMembers(d, members, b);
    }
  }

  /** `PARTITION BY strike_price, option_type ORDER BY time_window`. */
  function Partition(t: seq<Bucket>, strike: real, side: Side): (r: seq<Bucket>)
    ensures Ascending(r)
    ensures forall i :: 0 <= i < |r| ==> r[i] in t && r[i].strike == strike && r[i].side == side
    ensures forall b :: b in t && b.strike == strike && b.side == side ==> b in r
  {
    var members := Filter(t, (b: Bucket) => b.strike == strike && b.side == side);
    var d := SortDesc(members, LaterLast);
    PartitionRows(t, strike, side, members, d);
    d
  }

  /** The rows of b's partition up to and including b's minute: the frames of the window functions at b end here. */
  function History(t: seq<Bucket>, b: Bucket): seq<Bucket> {
    Filter(Partition(t, b.strike, b.side), (c: Bucket) => c.window <= b.window)
  }

  /** The history holds rows of the table in b's partition, up to b's minute, in minute order. */
  lemma HistoryRows(t: seq<Bucket>, b: Bucket)
    ensures var h := History(t, b);
      Ascending(h) &&
      forall i :: 0 <= i < |h| ==> h[i] in t && h[i].strike == b.strike && h[i].side == b.side && h[i].window <= b.window
  {
    var p := Partition(t, b.strike, b.side);
    var h := History(t, b);
    FilterAscending(p, (c: Bucket) => c.window <= b.window);
    forall i | 0 <= i < |h|
      ensures h[i] in t && h[i].strike == b.strike && h[i].side == b.side && h[i].window <= b.window
    {
      var m :| 0 <= m < |p| && p[m] == h[i];
    }
  }

  /** A row of the table is in its own history. */
  lemma HistoryHoldsBucket(t: seq<Bucket>, b: Bucket)
    requires b in t
    ensures b in History(t, b)
  {
    var p := Partition(t, b.strike, b.side);
    var m :| 0 <= m < |p| && p[m] == b;
  }

  /**
   * In a table with one row per key, the history of a row is an ascending run
   * of its own partition that ends with the row itself: the current row is
   * the last row of every frame.
   */
  lemma HistoryEndsAtBucket(t: seq<Bucket>, b: Bucket)
    requires UniqueKeys(t) && b in t
    ensures var h := History(t, b);
      |h| > 0 && h[|h| - 1] == b && Ascending(h) &&
      forall i :: 0 <= i < |h| ==> h[i] in t && h[i].strike == b.strike && h[i].side == b.side && h[i].window <= b.window
  {
    var h := History(t, b);
    HistoryRows(t, b);
    HistoryHoldsBucket(t, b);
    LastIsLatest(h, b);
    var last := h[|h| - 1];
    assert last in t && last.strike == b.strike && last.side == b.side && last.window == b.window;
    UniqueKeysValues(t, last, b);
  }

  lemma HistoryNonEmpty(t: seq<Bucket>, b: Bucket)
    requires b in t
    ensures |History(t, b)| > 0
  {
    HistoryHoldsBucket(t, b);
  }

  /** `AVG(x) OVER (... ROWS BETWEEN k PRECEDING AND CURRENT ROW)` at position i of an ordered partition. */
  function MovingAverage(xs: seq<real>, i: nat, k: nat): real
    requires i < |xs|
  {
    var lo := if i < k then 0 else i - k;
    Mean(xs[lo..i + 1])
  }

  /**
   * The frame is the current row and the min(k, i) rows before it: the
   * average never looks at a later row, so it is the same on any partition
   * that agrees up to the current row, and it lies between the smallest and
   * largest value of that frame.
   */
  lemma MovingAverageFrame(xs: seq<real>, ys: seq<real>, i: nat, k: nat, lo: real, hi: real)
    requires i < |xs| && i < |ys| && xs[..i + 1] == ys[..i + 1]
    requires forall j :: (if i < k then 0 else i - k) <= j <= i ==> lo <= xs[j] <= hi
    ensures MovingAverage(xs, i, k) == MovingAverage(ys, i, k)
    ensures lo <= MovingAverage(xs, i, k) <= hi
    ensures |xs[(if i < k then 0 else i - k)..i + 1]| == (if i < k then i else k) + 1
  {
    var start := if i < k then 0 else i - k;
    assert xs[start..i + 1] == xs[..i + 1][start..] == ys[..i + 1][start..] == ys[start..i + 1];
    var w := xs[start..i + 1];
    forall j | 0 <= j < |w| ensures lo <= w[j] <= hi {
      assert w[j] == xs[start + j];
    }
    MeanBounds(w, lo, hi);
  }

  function Ltps(s: seq<Bucket>): (r: seq<real>)
    ensures |r| == |s| && forall i :: 0 <= i < |s| ==> r[i] == s[i].ltp
  {
    seq(|s|, i requires 0 <= i < |s| => s[i].ltp)
  }

  function Volumes(s: seq<Bucket>): (r: seq<real>)
    ensures |r| == |s| && forall i :: 0 <= i < |s| ==> r[i] == s[i].volume as real
  {
    seq(|s|, i requires 0 <= i < |s| => s[i].volume as real)
  }

  /** A grouped row with the five moving averages of the signal query (frames of 3, 6 and 10 rows). */
  datatype Windowed = Windowed(b: Bucket, ma5: real, ma15: real, ma30: real, volMa5: real, volMa15: real)

  function Averages(t: seq<Bucket>, b: Bucket): (w: Windowed)
    requires b in t
    ensures w.b == b
  {
    HistoryNonEmpty(t, b);
    var h := History(t, b);
    var last := |h| - 1;
    Windowed(b,
      MovingAverage(Ltps(h), last, 2),
      MovingAverage(Ltps(h), last, 5),
      MovingAverage(Ltps(h), last, 9),
      MovingAverage(Volumes(h), last, 2),
      MovingAverage(Volumes(h), last, 5))
  }

  /** The first row of a partition has only itself in every frame: its averages are its own values. */
  lemma FirstRowAverages(t: seq<Bucket>, b: Bucket)
    requires UniqueKeys(t) && b in t && |History(t, b)| == 1
    ensures var w := Averages(t, b);
      w.ma5 == b.ltp && w.ma15 == b.ltp && w.ma30 == b.ltp &&
      w.volMa5 == b.volume as real && w.volMa15 == b.volume as real
  {
    HistoryEndsAtBucket(t, b);
    var h := History(t, b);
    assert Ltps(h)[0..1] == [b.ltp];
    assert Volumes(h)[0..1] == [b.volume as real];
    MeanSingleton(b.ltp);
    MeanSingleton(b.volume as real);
  }

  lemma MeanSingleton(x: real)
    ensures Mean([x]) == x
  {
    assert [x][1..] == [];
    assert Sum([x]) == x + Sum([]);
  }

  /** `ROW_NUMBER() OVER (PARTITION BY time_window, option_type ORDER BY total_volume DESC)`'s partition. */
  function Competitors(t: seq<Bucket>, window: nat, side: Side): seq<Bucket> {
    Filter(t, (c: Bucket) => c.window == window && c.side == side)
  }

  /**
   * The rows ranked 1 to 3 by volume in a (minute, side) partition.  Rows of
   * equal volume are ranked in table order; SQLite leaves that order open.
   */
  function TopThree(t: seq<Bucket>, window: nat, side: Side): (r: seq<Bucket>)
    ensures |r| <= 3
  {
    Take(SortDesc(Competitors(t, window, side), (c: Bucket) => c.volume as real), 3)
  }

  /** `vol_rank <= 3`. */
  predicate Survives(t: seq<Bucket>, b: Bucket) {
    b in TopThree(t, b.window, b.side)
  }

  /**
   * At most three rows of a (minute, side) partition survive; each survivor
   * belongs to the partition and has at least the volume of every row that
   * does not survive; a partition of three rows or fewer survives whole.
   */
  lemma {:induction false} TopThreeSelection(t: seq<Bucket>, b: Bucket, c: Bucket)
    requires Survives(t, b)
    requires c in t && c.window == b.window && c.side == b.side
    ensures b in t
    ensures !Survives(t, c) ==> c.volume <= b.volume
    ensures |Competitors(t, b.window, b.side)| <= 3 ==> Survives(t, c)
  {
    var comp := Competitors(t, b.window, b.side);
    var key := (x: Bucket) => x.volume as real;
    TopNSelection(comp, key, 3);
    assert b in comp;
    var ci :| 0 <= ci < |t| && t[ci] == c;
    assert c in comp;
    if !Survives(t, c) {
      TopNDominates(comp, key, 3, b, c);
    }
  }

  /** The surviving rows of a (strike, side) partition, in minute order: what `LAG` runs over. */
  function SurvivorSeries(t: seq<Bucket>, strike: real, side: Side): seq<Bucket> {
    Filter(Partition(t, strike, side), (c: Bucket) => Survives(t, c))
  }

  function EarlierSurvivors(t: seq<Bucket>, b: Bucket): seq<Bucket> {
    Filter(SurvivorSeries(t, b.strike, b.side), (c: Bucket) => c.window < b.window)
  }

  /** `LAG(...) OVER (PARTITION BY strike_price, option_type ORDER BY time_window)` over the top-3 rows. */
  function Previous(t: seq<Bucket>, b: Bucket): Option<Bucket> {
    var e := EarlierSurvivors(t, b);
    if e == [] then None else Some(e[|e| - 1])
  }

  /**
   * The previous row is the latest earlier surviving row of the same
   * partition, which need not be the previous minute; there is none exactly
   * when no earlier row of the partition survives.
   */
  /** The earlier survivors are an ascending run of surviving rows of b's partition before b's minute. */
  lemma EarlierSurvivorsShape(t: seq<Bucket>, b: Bucket)
    ensures var e := EarlierSurvivors(t, b);
      Ascending(e) &&
      forall i :: 0 <= i < |e| ==>
        e[i] in t && Survives(t, e[i]) && e[i].strike == b.strike && e[i].side == b.side && e[i].window < b.window
  {
    EarlierSurvivorsAscending(t, b);
    EarlierSurvivorsMembers(t, b);
  }

  lemma EarlierSurvivorsAscending(t: seq<Bucket>, b: Bucket)
    ensures Ascending(EarlierSurvivors(t, b))
  {
    var part := Partition(t, b.strike, b.side);
    var ss := SurvivorSeries(t, b.strike, b.side);
    FilterAscending(part, (x: Bucket) => Survives(t, x));
    FilterAscending(ss, (x: Bucket) => x.window < b.window);
  }

  lemma EarlierSurvivorsMembers(t: seq<Bucket>, b: Bucket)
    ensures var e := EarlierSurvivors(t, b);
      forall i :: 0 <= i < |e| ==>
        e[i] in t && Survives(t, e[i]) && e[i].strike == b.strike && e[i].side == b.side && e[i].window < b.window
  {
    var part := Partition(t, b.strike, b.side);
    var ss := SurvivorSeries(t, b.strike, b.side);
    var e := EarlierSurvivors(t, b);
    forall i | 0 <= i < |e|
      ensures e[i] in t && Survives(t, e[i]) && e[i].strike == b.strike && e[i].side == b.side && e[i].window < b.window
    {
      var si :| 0 <= si < |ss| && ss[si] == e[i];
      var pi :| 0 <= pi < |part| && part[pi] == e[i];
    }
  }

  lemma LastIsLatest(s: seq<Bucket>, x: Bucket)
    requires Ascending(s) && x in s
    ensures x.window <= s[|s| - 1].window
  {
    var k :| 0 <= k < |s| && s[k] == x;
    if k < |s| - 1 {
      assert s[k].window <= s[|s| - 1].window;
    }
  }

  /**
   * The previous row is the latest earlier surviving row of the same
   * partition, which need not be the previous minute; whenever some earlier
   * row of the partition survives there is one.
   */
  lemma {:induction false} PreviousIsLatestEarlierSurvivor(t: seq<Bucket>, b: Bucket, c: Bucket)
    requires c in t && c.strike == b.strike && c.side == b.side && c.window < b.window && Survives(t, c)
    ensures Previous(t, b).Some?
    ensures var p := Previous(t, b).value;
      p in t && Survives(t, p) && p.strike == b.strike && p.side == b.side &&
      c.window <= p.window < b.window
  {
    var part := Partition(t, b.strike, b.side);
    var ss := SurvivorSeries(t, b.strike, b.side);
    var e := EarlierSurvivors(t, b);
    var pi :| 0 <= pi < |part| && part[pi] == c;
    assert c in ss;
    var si :| 0 <= si < |ss| && ss[si] == c;
    assert c in e;
    EarlierSurvivorsShape(t, b);
    LastIsLatest(e, c);
  }

  /** With no previous row, no earlier row of the partition survives. */
  lemma PreviousShape(t: seq<Bucket>, b: Bucket)
    ensures Previous(t, b).Some? ==>
      var p := Previous(t, b).value;
      p in t && Survives(t, p) && p.strike == b.strike && p.side == b.side && p.window < b.window
  {
    EarlierSurvivorsShape(t, b);
  }

  /** `LEFT JOIN top_options p ON same minute, same strike, other side`. */
  function Opposite(t: seq<Bucket>, b: Bucket): Option<Bucket> {
    var m := Filter(t, (c: Bucket) => c.window == b.window && c.strike == b.strike && c.side != b.side && Survives(t, c));
    if m == [] then None else Some(m[0])
  }

  /** The joined row is the surviving other-side row of the same minute and strike, when there is one. */
  lemma OppositeIsOtherSide(t: seq<Bucket>, b: Bucket, c: Bucket)
    ensures Opposite(t, b).Some? ==>
      var o := Opposite(t, b).value;
      o in t && Survives(t, o) && o.window == b.window && o.strike == b.strike && o.side == b.side.Opposite()
    ensures c in t && Survives(t, c) && c.window == b.window && c.strike == b.strike && c.side != b.side ==>
      Opposite(t, b).Some?
    ensures UniqueKeys(t) && c in t && Survives(t, c) && c.window == b.window && c.strike == b.strike && c.side != b.side ==>
      Opposite(t, b) == Some(c)
  {
    var p := (x: Bucket) => x.window == b.window && x.strike == b.strike && x.side != b.side && Survives(t, x);
    var m := Filter(t, p);
    if m != [] {
      assert m[0] in t && p(m[0]);
      assert m[0].side == b.side.Opposite();
    }
    if c in t && p(c) {
      var i :| 0 <= i < |t| && t[i] == c;
      assert c in m;
      if UniqueKeys(t) {
        assert m[0] in t && p(m[0]);
        assert SameKey(m[0], c);
        UniqueKeysValues(t, m[0], c);
      }
    }
  }

  /** `CASE WHEN prev > 0 THEN 100.0 * (cur - prev) / prev ELSE NULL END`; a missing previous value is NULL. */
  function PctChange(cur: real, prev: Option<real>): (r: Option<real>)
    ensures r.Some? <==> prev.Some? && prev.value > 0.0
  {
    if prev.Some? && prev.value > 0.0 then Some(100.0 * (cur - prev.value) / prev.value) else None
  }

  /** Percent-change thresholds read as ratios of the current to the previous value. */
  lemma PctChangeThresholds(cur: real, prev: real, pct: real)
    requires prev > 0.0
    ensures PctChange(cur, Some(prev)).Some?
    ensures var c := PctChange(cur, Some(prev)).value;
      (c > pct <==> cur > prev * (1.0 + pct / 100.0)) &&
      (c < pct <==> cur < prev * (1.0 + pct / 100.0)) &&
      (c == 0.0 <==> cur == prev)
  {
    var c := PctChange(cur, Some(prev)).value;
    assert c * prev == 100.0 * (cur - prev);
  }
}
