/**
 * The collector's IV and volume analysis queries.  Both keep the day's 16
 * (strike, side) keys of highest total volume, group the rows of the
 * nearest expiry per minute, take `LAG` over every row of a (strike, side)
 * partition (there is no top-3 filter here), rank each row within its
 * minute with `PERCENT_RANK`, and label it through first-match-wins
 * cascades.
 */
module IvVolume {

  import opened Wrappers
  import opened Sorting
  import opened Sequences
  import opened WindowEngine

  /** `SUM(volume)` of a (strike, side) key over the whole day, every expiry included. */
  datatype KeyTotal = KeyTotal(strike: real, side: Side, volume: int)

  /** `ORDER BY total_volume DESC LIMIT 16`: the 16 keys of highest volume, whatever their sides. */
  function TopStrikes(totals: seq<KeyTotal>): (r: seq<KeyTotal>)
    ensures |r| <= 16
  {
    Take(SortDesc(totals, (k: KeyTotal) => k.volume as real), 16)
  }

  predicate InTop(top: seq<KeyTotal>, b: Bucket) {
    exists i :: 0 <= i < |top| && top[i].strike == b.strike && top[i].side == b.side
  }

  /** The grouped rows kept by `INNER JOIN top_strikes`. */
  function TopKeyRows(t: seq<Bucket>, totals: seq<KeyTotal>): (s: seq<Bucket>)
    ensures forall i :: 0 <= i < |s| ==> s[i] in t && InTop(TopStrikes(totals), s[i])
    ensures forall b :: b in t && InTop(TopStrikes(totals), b) ==> b in s
  {
    var top := TopStrikes(totals);
    var s := Filter(t, (b: Bucket) => InTop(top, b));
    forall b | b in t && InTop(top, b) ensures b in s {
      var i :| 0 <= i < |t| && t[i] == b;
    }
    s
  }

  /** A key whose total is among the 16 highest keeps its rows; a key ranked below them loses all of its rows. */
  lemma TopStrikesSelection(totals: seq<KeyTotal>, x: KeyTotal, y: KeyTotal)
    requires x in TopStrikes(totals) && y in totals && y !in TopStrikes(totals)
    ensures x in totals && y.volume <= x.volume
  {
    var key := (k: KeyTotal) => k.volume as real;
    TopNSelection(totals, key, 16);
    TopNDominates(totals, key, 16, x, y);
  }

  /** `LAG(...) OVER (PARTITION BY strike_price, option_type ORDER BY time_window)` over every row of s. */
  function Lag(s: seq<Bucket>, b: Bucket): Option<Bucket> {
    var e := Filter(Partition(s, b.strike, b.side), (c: Bucket) => c.window < b.window);
    if e == [] then None else Some(e[|e| - 1])
  }

  /**
   * The lagged row is the latest earlier row of b's partition; there is one
   * whenever the partition has an earlier row.
   */
  lemma LagIsLatestEarlierRow(s: seq<Bucket>, b: Bucket, c: Bucket)
    ensures Lag(s, b).Some? ==>
      var p := Lag(s, b).value;
      p in s && p.strike == b.strike && p.side == b.side && p.window < b.window
    ensures c in s && c.strike == b.strike && c.side == b.side && c.window < b.window ==>
      Lag(s, b).Some? && c.window <= Lag(s, b).value.window
  {
    LagIsEarlierRow(s, b);
    if c in s && c.strike == b.strike && c.side == b.side && c.window < b.window {
      LagIsLatest(s, b, c);
    }
  }

  lemma LagIsEarlierRow(s: seq<Bucket>, b: Bucket)
    ensures Lag(s, b).Some? ==>
      var p := Lag(s, b).value;
      p in s && p.strike == b.strike && p.side == b.side && p.window < b.window
  {
    var part := Partition(s, b.strike, b.side);
    var e := Filter(part, (x: Bucket) => x.window < b.window);
    if e != [] {
      var m :| 0 <= m < |part| && part[m] == e[|e| - 1];
    }
  }

  lemma LagIsLatest(s: seq<Bucket>, b: Bucket, c: Bucket)
    requires c in s && c.strike == b.strike && c.side == b.side && c.window < b.window
    ensures Lag(s, b).Some? && c.window <= Lag(s, b).value.window
  {
    var part := Partition(s, b.strike, b.side);
    var p := (x: Bucket) => x.window < b.window;
    var e := Filter(part, p);
    FilterAscending(part, p);
    var pi :| 0 <= pi < |part| && part[pi] == c;
    assert c in e;
    LastIsLatest(e, c);
  }

  /** The `PARTITION BY time_window` values of one minute. */
  function MinuteValues(s: seq<Bucket>, window: nat, f: Bucket -> real): (xs: seq<real>)
    ensures forall b :: b in s && b.window == window ==> f(b) in xs
  {
    var m := Filter(s, (c: Bucket) => c.window == window);
    var xs := seq(|m|, i requires 0 <= i < |m| => f(m[i]));
    forall b | b in s && b.window == window ensures f(b) in xs {
      var j :| 0 <= j < |s| && s[j] == b;
      var k :| 0 <= k < |m| && m[k] == b;
      assert xs[k] == f(b);
    }
    xs
  }

  /** SQLite's `PERCENT_RANK()`: rows with a strictly smaller value over the other rows; 0 for a single row. */
  function PercentRank(xs: seq<real>, v: real): real {
    if |xs| <= 1 then 0.0 else (CountBelow(xs, v) as real) / ((|xs| - 1) as real)
  }

  lemma {:induction false} CountBelowMember(xs: seq<real>, v: real)
    requires v in xs
    ensures CountBelow(xs, v) < |xs|
  {
    if xs[0] != v {
      CountBelowMember(xs[1..], v);
    }
  }

  lemma {:induction false} CountBelowNone(xs: seq<real>, v: real)
    ensures CountBelow(xs, v) == 0 <==> forall i :: 0 <= i < |xs| ==> v <= xs[i]
  {
    if xs != [] {
      CountBelowNone(xs[1..], v);
      assert forall i :: 1 <= i < |xs| ==> xs[i] == xs[1..][i - 1];
    }
  }

  /**
   * The rank of a value of the partition lies in [0, 1]; it is 0 exactly
   * when the partition has one row or no smaller value, and 1 exactly when
   * every other row is smaller.
   */
  lemma PercentRankBounds(xs: seq<real>, v: real)
    requires v in xs
    ensures 0.0 <= PercentRank(xs, v) <= 1.0
    ensures PercentRank(xs, v) == 0.0 <==> |xs| == 1 || forall i :: 0 <= i < |xs| ==> v <= xs[i]
    ensures |xs| > 1 ==> (PercentRank(xs, v) == 1.0 <==> CountBelow(xs, v) == |xs| - 1)
  {
    CountBelowMember(xs, v);
    CountBelowNone(xs, v);
    if |xs| > 1 {
      RankRatio(CountBelow(xs, v), |xs| - 1);
    }
  }

  lemma RankRatio(c: nat, n: nat)
    requires 0 < n && c <= n
    ensures 0.0 <= (c as real) / (n as real) <= 1.0
    ensures (c as real) / (n as real) == 0.0 <==> c == 0
    ensures (c as real) / (n as real) == 1.0 <==> c == n
  {
    var r := (c as real) / (n as real);
    assert r * (n as real) == c as real;
  }

  predicate Gt(o: Option<real>, x: real) { o.Some? && o.value > x }
  predicate Lt(o: Option<real>, x: real) { o.Some? && o.value < x }

  /** The inputs of the IV query's label cascades for one row. */
  datatype IvMeasures = IvMeasures(side: Side, ltp: real, prevLtp: Option<real>,
                                   ivPct: Option<real>, volPct: Option<real>, oiPct: Option<real>,
                                   ivPercentile: real, volPercentile: real)

  predicate PriceUp(m: IvMeasures) { m.prevLtp.Some? && m.ltp > m.prevLtp.value }
  predicate PriceDown(m: IvMeasures) { m.prevLtp.Some? && m.ltp < m.prevLtp.value }

  datatype IvSignal = HighIvSpike | LowIvSpike | HighIvPercentile | LowIvPercentile | NormalIv {
    function Label(): string {
      match this
      case HighIvSpike => "High IV Spike"
      case LowIvSpike => "Low IV Spike"
      case HighIvPercentile => "High IV Percentile"
      case LowIvPercentile => "Low IV Percentile"
      case NormalIv => "Normal IV"
    }
  }

  function IvSignalOf(m: IvMeasures): IvSignal {
    if Gt(m.ivPct, 15.0) then HighIvSpike
    else if Lt(m.ivPct, -15.0) then LowIvSpike
    else if m.ivPercentile > 0.8 then HighIvPercentile
    else if m.ivPercentile < 0.2 then LowIvPercentile
    else NormalIv
  }

  datatype PriceIv = PriceUpIvDown | PriceUpIvUp | PriceDownIvDown | PriceDownIvUp | NeutralPriceIv {
    function Label(): string {
      match this
      case PriceUpIvDown => "Price Up IV Down"
      case PriceUpIvUp => "Price Up IV Up"
      case PriceDownIvDown => "Price Down IV Down"
      case PriceDownIvUp => "Price Down IV Up"
      case NeutralPriceIv => "Neutral"
    }
  }

  function PriceIvOf(m: IvMeasures): PriceIv {
    if PriceUp(m) && Lt(m.ivPct, 0.0) then PriceUpIvDown
    else if PriceUp(m) && Gt(m.ivPct, 0.0) then PriceUpIvUp
    else if PriceDown(m) && Lt(m.ivPct, 0.0) then PriceDownIvDown
    else if PriceDown(m) && Gt(m.ivPct, 0.0) then PriceDownIvUp
    else NeutralPriceIv
  }

  datatype Behavior = PotentialShortCovering | PossibleHedging | SmartMoneyActivity | FailedBreakoutRisk | NormalActivity {
    function Label(): string {
      match this
      case PotentialShortCovering => "Potential Short Covering"
      case PossibleHedging => "Possible Hedging"
      case SmartMoneyActivity => "Smart Money Activity"
      case FailedBreakoutRisk => "Failed Breakout Risk"
      case NormalActivity => "Normal Activity"
    }
  }

  function BehaviorOf(m: IvMeasures): Behavior {
    if m.side == CE && PriceUp(m) && Gt(m.ivPct, 0.0) && Lt(m.oiPct, 0.0) then PotentialShortCovering
    else if m.side == CE && PriceUp(m) && Gt(m.ivPct, 0.0) && Gt(m.oiPct, 0.0) then PossibleHedging
    else if m.side == CE && PriceUp(m) && Gt(m.ivPct, 15.0) && Gt(m.volPct, 100.0) then SmartMoneyActivity
    else if m.side == CE && PriceUp(m) && Gt(m.ivPct, 0.0) && m.volPercentile > 0.8 then FailedBreakoutRisk
    else NormalActivity
  }

  datatype IvTrading =
    | WatchForReversal | InstitutionalActivity | FakeRallyRisk | LevelRejectionRisk
    | StrongReversal | PotentialContinuation | ConsiderSelling | ConsiderBuying | MonitorIv
  {
    function Label(): string {
      match this
      case WatchForReversal => "Watch for Reversal - Bears Closing Positions"
      case InstitutionalActivity => "Institutional Activity - Not Necessarily Bullish"
      case FakeRallyRisk => "High Risk - Possible Fake Rally"
      case LevelRejectionRisk => "Caution - Market May Reject Level"
      case StrongReversal => "Strong Reversal Signal"
      case PotentialContinuation => "Potential Continuation"
      case ConsiderSelling => "High IV - Consider Selling"
      case ConsiderBuying => "Low IV - Consider Buying"
      case MonitorIv => "Monitor"
    }
  }

  /** The `trading_signal` cascade with the percentile thresholds it is given. */
  function IvTradingWith(m: IvMeasures, high: real, low: real): IvTrading {
    var behavior := BehaviorOf(m);
    var signal := IvSignalOf(m);
    var rel := PriceIvOf(m);
    if behavior == PotentialShortCovering then WatchForReversal
    else if behavior == PossibleHedging then InstitutionalActivity
    else if behavior == SmartMoneyActivity then FakeRallyRisk
    else if behavior == FailedBreakoutRisk then LevelRejectionRisk
    else if signal == HighIvSpike && rel in {PriceDownIvUp, PriceUpIvUp} then StrongReversal
    else if signal == LowIvSpike && rel in {PriceDownIvDown, PriceUpIvDown} then PotentialContinuation
    else if m.ivPercentile > high && Gt(m.ivPct, 0.0) then ConsiderSelling
    else if m.ivPercentile < low && Lt(m.ivPct, 0.0) then ConsiderBuying
    else MonitorIv
  }

  /**
   * As written: the cascade compares the percentile, a fraction in [0, 1],
   * with 80 and 20 (the `* 100` applies only to the column shown).
   */
  function IvTradingAsWritten(m: IvMeasures): IvTrading {
    IvTradingWith(m, 80.0, 20.0)
  }

  /** The cascade with the thresholds on the fraction's own scale. */
  function IvTradingOf(m: IvMeasures): IvTrading {
    IvTradingWith(m, 0.8, 0.2)
  }

  /**
   * With a percentile in [0, 1] the cascade as written never advises
   * selling, and falls through to buying on every IV fall that reaches it.
   */
  lemma IvTradingAsWrittenNeverSells(m: IvMeasures)
    requires 0.0 <= m.ivPercentile <= 1.0
    ensures IvTradingAsWritten(m) != ConsiderSelling
    ensures IvTradingAsWritten(m) == MonitorIv ==> !Lt(m.ivPct, 0.0)
  {
  }

  /** A put in the top tenth of its minute with IV up 5% is told to sell under the intended thresholds, and to monitor as written. */
  lemma IvTradingPercentileCounterexample()
    ensures var m := IvMeasures(PE, 100.0, Some(100.0), Some(5.0), Some(0.0), Some(0.0), 0.9, 0.5);
      IvTradingAsWritten(m) == MonitorIv && IvTradingOf(m) == ConsiderSelling
  {
  }

  /**
   * With the thresholds on the fraction's scale, selling is advised only in
   * the top fifth of the minute on an IV rise and buying only in the bottom
   * fifth on an IV fall; without a call behaviour or a spike to decide
   * first, exactly then.
   */
  lemma IvTradingPercentileBands(m: IvMeasures)
    ensures IvTradingOf(m) == ConsiderSelling ==> m.ivPercentile > 0.8 && Gt(m.ivPct, 0.0)
    ensures IvTradingOf(m) == ConsiderBuying ==> m.ivPercentile < 0.2 && Lt(m.ivPct, 0.0)
    ensures BehaviorOf(m) == NormalActivity && !Gt(m.ivPct, 15.0) && !Lt(m.ivPct, -15.0) ==>
      (IvTradingOf(m) == ConsiderSelling <==> m.ivPercentile > 0.8 && Gt(m.ivPct, 0.0)) &&
      (IvTradingOf(m) == ConsiderBuying <==> m.ivPercentile < 0.2 && Lt(m.ivPct, 0.0))
  {
  }

  /**
   * IV cascade properties: a spike beyond ±15% wins over the percentile;
   * the price/IV relation is neutral exactly when there is no previous
   * price, the price did not move, or the IV change is missing or zero;
   * only calls get a market behaviour, and 'Smart Money Activity' needs an
   * OI change that is missing or zero (any other sign is caught first).
   */
  lemma IvCascades(m: IvMeasures)
    ensures Gt(m.ivPct, 15.0) ==> IvSignalOf(m) == HighIvSpike
    ensures Lt(m.ivPct, -15.0) ==> IvSignalOf(m) == LowIvSpike
    ensures IvSignalOf(m) == NormalIv <==>
      !Gt(m.ivPct, 15.0) && !Lt(m.ivPct, -15.0) && 0.2 <= m.ivPercentile <= 0.8
    ensures PriceIvOf(m) == NeutralPriceIv <==>
      m.prevLtp.None? || m.ltp == m.prevLtp.value || m.ivPct.None? || m.ivPct.value == 0.0
    ensures m.side == PE ==> BehaviorOf(m) == NormalActivity
    ensures BehaviorOf(m) == SmartMoneyActivity ==> m.oiPct.None? || m.oiPct.value == 0.0
    ensures BehaviorOf(m) != NormalActivity ==> PriceUp(m) && Gt(m.ivPct, 0.0)
  {
  }

  /** A call behaviour decides the trading signal before any IV test. */
  lemma BehaviorDecidesTrading(m: IvMeasures)
    ensures BehaviorOf(m) == PotentialShortCovering ==> IvTradingOf(m) == WatchForReversal
    ensures BehaviorOf(m) == PossibleHedging ==> IvTradingOf(m) == InstitutionalActivity
    ensures BehaviorOf(m) == SmartMoneyActivity ==> IvTradingOf(m) == FakeRallyRisk
    ensures BehaviorOf(m) == FailedBreakoutRisk ==> IvTradingOf(m) == LevelRejectionRisk
    ensures BehaviorOf(m) != NormalActivity ==> IvTradingAsWritten(m) == IvTradingOf(m)
    ensures IvTradingOf(m) == StrongReversal ==> BehaviorOf(m) == NormalActivity && Gt(m.ivPct, 15.0) && m.prevLtp.Some? && m.ltp != m.prevLtp.value
  {
  }

  /** The inputs of the volume query's label cascades for one row. */
  datatype VolumeMeasures = VolumeMeasures(volPct: Option<real>, oiPct: Option<real>, volPercentile: real)

  datatype VolumeSignal = NewPositionBuilding | PositionSquaringOff | HighVolumeNeutralOi
                        | UnusuallyHighVolume | UnusuallyLowVolume | NormalVolume
  {
    function Label(): string {
      match this
      case NewPositionBuilding => "New Position Building"
      case PositionSquaringOff => "Position Squaring Off"
      case HighVolumeNeutralOi => "High Volume - Neutral OI"
      case UnusuallyHighVolume => "Unusually High Volume"
      case UnusuallyLowVolume => "Unusually Low Volume"
      case NormalVolume => "Normal Volume"
    }
  }

  function VolumeSignalOf(m: VolumeMeasures): VolumeSignal {
    if Gt(m.volPct, 100.0) && Gt(m.oiPct, 10.0) then NewPositionBuilding
    else if Gt(m.volPct, 100.0) && Lt(m.oiPct, -10.0) then PositionSquaringOff
    else if Gt(m.volPct, 100.0) && m.oiPct.Some? && -10.0 <= m.oiPct.value <= 10.0 then HighVolumeNeutralOi
    else if m.volPercentile > 0.8 then UnusuallyHighVolume
    else if m.volPercentile < 0.2 then UnusuallyLowVolume
    else NormalVolume
  }

  datatype OiSignal = StrongOiBuildUp | StrongOiUnwinding | ModerateOiBuildUp | ModerateOiUnwinding | NeutralOi {
    function Label(): string {
      match this
      case StrongOiBuildUp => "Strong OI Build-up"
      case StrongOiUnwinding => "Strong OI Unwinding"
      case ModerateOiBuildUp => "Moderate OI Build-up"
      case ModerateOiUnwinding => "Moderate OI Unwinding"
      case NeutralOi => "Neutral OI"
    }
  }

  function OiSignalOf(m: VolumeMeasures): OiSignal {
    if Gt(m.oiPct, 20.0) then StrongOiBuildUp
    else if Lt(m.oiPct, -20.0) then StrongOiUnwinding
    else if Gt(m.oiPct, 10.0) then ModerateOiBuildUp
    else if Lt(m.oiPct, -10.0) then ModerateOiUnwinding
    else NeutralOi
  }

  datatype VolumeTrading = StrongBuySignal | StrongSellSignal | PotentialBreakout | PotentialReversal | MonitorVolume {
    function Label(): string {
      match this
      case StrongBuySignal => "Strong Buy Signal"
      case StrongSellSignal => "Strong Sell Signal"
      case PotentialBreakout => "Potential Breakout"
      case PotentialReversal => "Potential Reversal"
      case MonitorVolume => "Monitor"
    }
  }

  function VolumeTradingOf(m: VolumeMeasures): VolumeTrading {
    var vs := VolumeSignalOf(m);
    var os := OiSignalOf(m);
    if vs == NewPositionBuilding && os in {StrongOiBuildUp, ModerateOiBuildUp} then StrongBuySignal
    else if vs == PositionSquaringOff && os in {StrongOiUnwinding, ModerateOiUnwinding} then StrongSellSignal
    else if vs == UnusuallyHighVolume && Gt(m.oiPct, 0.0) then PotentialBreakout
    else if vs == UnusuallyLowVolume && Lt(m.oiPct, 0.0) then PotentialReversal
    else MonitorVolume
  }

  /**
   * Volume cascade properties: the three volume-surge labels apply exactly
   * when volume more than doubled and the OI change is known; the OI label
   * is a build-up exactly when OI rose by more than 10% and an unwinding
   * exactly when it fell by more than 10%; and the OI confirmation of the
   * strong signals always holds, so 'New Position Building' is always a
   * strong buy and 'Position Squaring Off' always a strong sell.
   */
  lemma VolumeCascades(m: VolumeMeasures)
    ensures VolumeSignalOf(m) in {NewPositionBuilding, PositionSquaringOff, HighVolumeNeutralOi} <==>
      Gt(m.volPct, 100.0) && m.oiPct.Some?
    ensures OiSignalOf(m) in {StrongOiBuildUp, ModerateOiBuildUp} <==> Gt(m.oiPct, 10.0)
    ensures OiSignalOf(m) in {StrongOiUnwinding, ModerateOiUnwinding} <==> Lt(m.oiPct, -10.0)
    ensures VolumeSignalOf(m) == NewPositionBuilding <==> VolumeTradingOf(m) == StrongBuySignal
    ensures VolumeSignalOf(m) == PositionSquaringOff <==> VolumeTradingOf(m) == StrongSellSignal
    ensures VolumeTradingOf(m) == PotentialBreakout ==> m.volPercentile > 0.8 && Gt(m.oiPct, 0.0)
  {
  }

  /** The values each minute is ranked by. */
  function IvSampleOf(c: Bucket): real { c.ivSample }
  function VolumeOf(c: Bucket): real { c.volume as real }
  function OiOf(c: Bucket): real { c.oi as real }

  /** One row of the IV query over the kept rows s. */
  datatype IvRow = IvRow(b: Bucket, prev: Option<Bucket>, ivPercentile: real, m: IvMeasures,
                         ivSignal: IvSignal, priceIv: PriceIv, behavior: Behavior, trading: IvTrading)

  function IvRowOf(s: seq<Bucket>, b: Bucket): (r: IvRow)
    requires b in s
    ensures r.b == b && r.prev == Lag(s, b)
    ensures r.ivPercentile == r.m.ivPercentile == PercentRank(MinuteValues(s, b.window, IvSampleOf), b.ivSample)
    ensures r.m.volPercentile == PercentRank(MinuteValues(s, b.window, VolumeOf), b.volume as real)
    ensures 0.0 <= r.ivPercentile <= 1.0 && 0.0 <= r.m.volPercentile <= 1.0
    ensures r.m.side == b.side && r.m.ltp == b.ltp && (r.m.prevLtp.Some? <==> r.prev.Some?)
    ensures r.prev.Some? ==>
      r.m.prevLtp == Some(r.prev.value.ltp) &&
      r.m.ivPct == PctChange(b.iv, Some(r.prev.value.iv)) &&
      r.m.volPct == PctChange(b.volume as real, Some(r.prev.value.volume as real)) &&
      r.m.oiPct == PctChange(b.oi as real, Some(r.prev.value.oi as real))
    ensures r.prev.None? ==> r.m.ivPct.None? && r.m.volPct.None? && r.m.oiPct.None?
    ensures r.ivSignal == IvSignalOf(r.m) && r.priceIv == PriceIvOf(r.m) && r.behavior == BehaviorOf(r.m)
    ensures r.trading == IvTradingAsWritten(r.m)
  {
    var p := Lag(s, b);
    var ivs := MinuteValues(s, b.window, IvSampleOf);
    var vols := MinuteValues(s, b.window, VolumeOf);
    PercentRankBounds(ivs, b.ivSample);
    PercentRankBounds(vols, b.volume as real);
    var m := IvMeasures(b.side, b.ltp,
      if p.Some? then Some(p.value.ltp) else None,
      PctChange(b.iv, if p.Some? then Some(p.value.iv) else None),
      PctChange(b.volume as real, if p.Some? then Some(p.value.volume as real) else None),
      PctChange(b.oi as real, if p.Some? then Some(p.value.oi as real) else None),
      PercentRank(ivs, b.ivSample),
      PercentRank(vols, b.volume as real));
    IvRow(b, p, m.ivPercentile, m, IvSignalOf(m), PriceIvOf(m), BehaviorOf(m), IvTradingAsWritten(m))
  }

  /** `IV_ANALYSIS_QUERY`: a row per kept grouped row; the final `ORDER BY` is not modelled. */
  function IvQuery(t: seq<Bucket>, totals: seq<KeyTotal>): (rows: seq<IvRow>)
    ensures var s := TopKeyRows(t, totals);
      |rows| == |s| && forall i :: 0 <= i < |rows| ==> rows[i].b == s[i]
    ensures var s := TopKeyRows(t, totals);
      forall i :: 0 <= i < |rows| ==> s[i] in s && rows[i] == IvRowOf(s, s[i])
  {
    var s := TopKeyRows(t, totals);
    seq(|s|, i requires 0 <= i < |s| => IvRowOf(s, s[i]))
  }

  /**
   * Every row of the IV query as written: the percentile is a fraction, so
   * no row is told to sell, and a row left at 'Monitor' had no IV fall.
   */
  lemma IvQueryNeverSells(t: seq<Bucket>, totals: seq<KeyTotal>)
    ensures var rows := IvQuery(t, totals);
      forall i :: 0 <= i < |rows| ==>
        rows[i].trading != ConsiderSelling && (rows[i].trading == MonitorIv ==> !Lt(rows[i].m.ivPct, 0.0))
  {
    var s := TopKeyRows(t, totals);
    var rows := IvQuery(t, totals);
    forall i | 0 <= i < |rows|
      ensures rows[i].trading != ConsiderSelling && (rows[i].trading == MonitorIv ==> !Lt(rows[i].m.ivPct, 0.0))
    {
      var r := IvRowOf(s, s[i]);
      assert rows[i] == r;
      IvTradingAsWrittenNeverSells(r.m);
    }
  }

  /** The first row of a kept partition has no previous row: its changes are missing and its relation neutral. */
  lemma IvFirstRowNeutral(s: seq<Bucket>, b: Bucket)
    requires b in s
    requires forall c :: c in s && c.strike == b.strike && c.side == b.side ==> b.window <= c.window
    ensures var r := IvRowOf(s, b);
      r.prev.None? && r.m.ivPct.None? && r.priceIv == NeutralPriceIv && r.behavior == NormalActivity &&
      r.ivSignal in {HighIvPercentile, LowIvPercentile, NormalIv}
  {
    LagIsLatestEarlierRow(s, b, b);
  }

  /** One row of the volume query over the kept rows s. */
  datatype VolumeRow = VolumeRow(b: Bucket, prev: Option<Bucket>, oiPercentile: real, m: VolumeMeasures,
                                 volumeSignal: VolumeSignal, oiSignal: OiSignal, trading: VolumeTrading)

  function VolumeRowOf(s: seq<Bucket>, b: Bucket): (r: VolumeRow)
    requires b in s
    ensures r.b == b && r.prev == Lag(s, b)
    ensures r.m.volPercentile == PercentRank(MinuteValues(s, b.window, VolumeOf), b.volume as real)
    ensures r.oiPercentile == PercentRank(MinuteValues(s, b.window, OiOf), b.oi as real)
    ensures 0.0 <= r.oiPercentile <= 1.0 && 0.0 <= r.m.volPercentile <= 1.0
    ensures r.prev.Some? ==>
      r.m.volPct == PctChange(b.volume as real, Some(r.prev.value.volume as real)) &&
      r.m.oiPct == PctChange(b.oi as real, Some(r.prev.value.oi as real))
    ensures r.prev.None? ==> r.m.volPct.None? && r.m.oiPct.None?
    ensures r.volumeSignal == VolumeSignalOf(r.m) && r.oiSignal == OiSignalOf(r.m) && r.trading == VolumeTradingOf(r.m)
  {
    var p := Lag(s, b);
    var vols := MinuteValues(s, b.window, VolumeOf);
    var ois := MinuteValues(s, b.window, OiOf);
    PercentRankBounds(vols, b.volume as real);
    PercentRankBounds(ois, b.oi as real);
    var m := VolumeMeasures(
      PctChange(b.volume as real, if p.Some? then Some(p.value.volume as real) else None),
      PctChange(b.oi as real, if p.Some? then Some(p.value.oi as real) else None),
      PercentRank(vols, b.volume as real));
    VolumeRow(b, p, PercentRank(ois, b.oi as real), m, VolumeSignalOf(m), OiSignalOf(m), VolumeTradingOf(m))
  }

  /** `VOLUME_ANALYSIS_QUERY`: a row per kept grouped row; the final `ORDER BY` is not modelled. */
  function VolumeQuery(t: seq<Bucket>, totals: seq<KeyTotal>): (rows: seq<VolumeRow>)
    ensures var s := TopKeyRows(t, totals);
      |rows| == |s| && forall i :: 0 <= i < |rows| ==> rows[i].b == s[i]
    ensures var s := TopKeyRows(t, totals);
      forall i :: 0 <= i < |rows| ==> s[i] in s && rows[i] == VolumeRowOf(s, s[i])
  {
    var s := TopKeyRows(t, totals);
    seq(|s|, i requires 0 <= i < |s| => VolumeRowOf(s, s[i]))
  }
}
