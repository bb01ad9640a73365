/**
 * The first-match-wins label cascades of the collector's signal query: the
 * dominance of a side over its opposite side at the same strike and minute,
 * the signal of a row against its previous surviving row, and the action.
 *
 * SQL NULL is `None`; a comparison with NULL is not true, so a `WHEN` that
 * reads a missing value does not match.
 */
module SignalRules {

  import opened Wrappers
  import opened Sorting
  import opened Sequences
  import opened WindowEngine

  function Abs(x: int): nat {
    if x < 0 then -x else x
  }

  /** SQLite's `/` on two INTEGER operands: truncation toward zero, and NULL for a zero divisor. */
  function SqlIntDiv(a: int, b: int): (q: Option<int>)
    ensures b == 0 <==> q.None?
    ensures a >= 0 && b > 0 ==> q == Some(a / b)
  {
    if b == 0 then None
    else
      var m := Abs(a) / Abs(b);
      if (a >= 0) == (b > 0) then Some(m) else Some(-m)
  }

  datatype Dominance = StrongCeDominance | StrongPeDominance | Balanced | MixedSignals | InsufficientOppositeData {
    function Label(): string {
      match this
      case StrongCeDominance => "Strong CE Dominance"
      case StrongPeDominance => "Strong PE Dominance"
      case Balanced => "Neutral - Both Options Balanced"
      case MixedSignals => "Mixed Signals"
      case InsufficientOppositeData => "Insufficient Opposite Data"
    }

    /** The same label with the two sides exchanged. */
    function Mirror(): Dominance {
      match this
      case StrongCeDominance => StrongPeDominance
      case StrongPeDominance => StrongCeDominance
      case other => other
    }
  }

  /** `opposite_oi > 0 AND opposite_ltp > 0 AND opposite_iv > 0`; a missing opposite row is NULL. */
  predicate OppositeUsable(opp: Option<Bucket>) {
    opp.Some? && opp.value.oi > 0 && opp.value.ltp > 0.0 && opp.value.iv > 0.0
  }

  /** All four measures well above the opposite side's. */
  predicate Outweighs(cur: Bucket, o: Bucket) {
    (cur.oi as real) > (o.oi as real) * 1.5 && (cur.volume as real) > (o.volume as real) * 1.5 &&
    cur.ltp > o.ltp * 1.2 && cur.iv > o.iv * 1.1
  }

  /** All four measures well below the opposite side's. */
  predicate Outweighed(cur: Bucket, o: Bucket) {
    (cur.oi as real) < (o.oi as real) * 0.7 && (cur.volume as real) < (o.volume as real) * 0.7 &&
    cur.ltp < o.ltp * 0.8 && cur.iv < o.iv * 0.9
  }

  /**
   * The "balanced" test as the query computes it: `ABS(total_oi - opposite_oi) / opposite_oi`
   * divides two INTEGER sums, so the quotient is an integer before it is compared with 0.2.
   */
  predicate BalancedAsWritten(cur: Bucket, o: Bucket) {
    var q1 := SqlIntDiv(Abs(cur.oi - o.oi), o.oi);
    var q2 := SqlIntDiv(Abs(cur.volume - o.volume), o.volume);
    q1.Some? && (q1.value as real) < 0.2 && q2.Some? && (q2.value as real) < 0.2
  }

  /** The balanced test as a ratio: both OI and volume within 20% of the opposite side's. */
  predicate BalancedRatio(cur: Bucket, o: Bucket) {
    o.oi != 0 && o.volume != 0 &&
    (Abs(cur.oi - o.oi) as real) / (o.oi as real) < 0.2 &&
    (Abs(cur.volume - o.volume) as real) / (o.volume as real) < 0.2
  }

  /** The inner `CASE` once the opposite side is usable, given the outcome of the balanced test. */
  function DominanceCase(cur: Bucket, o: Bucket, balanced: bool): Dominance {
    if Outweighs(cur, o) then (if cur.side == CE then StrongCeDominance else StrongPeDominance)
    else if Outweighed(cur, o) then (if cur.side == CE then StrongPeDominance else StrongCeDominance)
    else if balanced then Balanced
    else MixedSignals
  }

  /** `option_dominance` as written, with the integer quotient in the balanced test. */
  function DominanceAsWritten(cur: Bucket, opp: Option<Bucket>): Dominance {
    if !OppositeUsable(opp) then InsufficientOppositeData
    else DominanceCase(cur, opp.value, BalancedAsWritten(cur, opp.value))
  }

  /** `option_dominance` with the balanced test computed as a ratio. */
  function DominanceOf(cur: Bucket, opp: Option<Bucket>): Dominance {
    if !OppositeUsable(opp) then InsufficientOppositeData
    else DominanceCase(cur, opp.value, BalancedRatio(cur, opp.value))
  }

  /**
   * With integer division the balanced test only asks that the OI and volume
   * differences be smaller than the opposite side's OI and volume (within
   * 100%), not within 20%.
   */
  lemma BalancedAsWrittenMeansWithinWhole(cur: Bucket, o: Bucket)
    requires o.oi > 0 && o.volume > 0
    ensures BalancedAsWritten(cur, o) <==> Abs(cur.oi - o.oi) < o.oi && Abs(cur.volume - o.volume) < o.volume
  {
  }

  /** A CE row with 50% more OI and volume than its PE row is reported balanced by the query as written. */
  lemma BalancedAsWrittenAcceptsFiftyPercent()
    ensures var cur := Bucket(600, 24000.0, CE, 150, 150, 10.0, 10.0, 10.0);
      var opp := Bucket(600, 24000.0, PE, 100, 100, 10.0, 10.0, 10.0);
      DominanceAsWritten(cur, Some(opp)) == Balanced &&
      DominanceOf(cur, Some(opp)) == MixedSignals
  {
  }

  /** The ratio test is the 20% tolerance on both measures. */
  lemma BalancedRatioWithinTwentyPercent(cur: Bucket, o: Bucket)
    requires o.oi > 0 && o.volume > 0
    ensures BalancedRatio(cur, o) <==>
      (Abs(cur.oi - o.oi) as real) < 0.2 * (o.oi as real) && (Abs(cur.volume - o.volume) as real) < 0.2 * (o.volume as real)
  {
    RatioBelow(Abs(cur.oi - o.oi) as real, o.oi as real, 0.2);
    RatioBelow(Abs(cur.volume - o.volume) as real, o.volume as real, 0.2);
  }

  lemma RatioBelow(x: real, d: real, t: real)
    requires d > 0.0
    ensures x / d < t <==> x < t * d
  {
    assert (x / d) * d == x;
    if x / d < t {
      assert (x / d) * d < t * d;
    }
    if x < t * d {
      assert (x / d) * d < t * d;
    }
  }

  /**
   * Dominance is 'Insufficient Opposite Data' exactly when the opposite row
   * is missing or has OI, LTP or IV not above zero; otherwise the CE and PE
   * branches are mirror images of each other.
   */
  lemma DominanceInsufficientAndMirror(cur: Bucket, opp: Option<Bucket>)
    ensures DominanceAsWritten(cur, opp) == InsufficientOppositeData <==> !OppositeUsable(opp)
    ensures DominanceOf(cur, opp) == InsufficientOppositeData <==> !OppositeUsable(opp)
    ensures DominanceOf(cur.(side := CE), opp) == DominanceOf(cur.(side := PE), opp).Mirror()
    ensures DominanceAsWritten(cur.(side := CE), opp) == DominanceAsWritten(cur.(side := PE), opp).Mirror()
  {
  }

  /**
   * The query as written and the ratio test disagree only on the balanced
   * label: every row balanced within 20% is balanced as written too, and a
   * row on which they differ is balanced as written and mixed by the ratio.
   */
  lemma DominanceAsWrittenWidensBalanced(cur: Bucket, opp: Option<Bucket>)
    ensures DominanceOf(cur, opp) == Balanced ==> DominanceAsWritten(cur, opp) == Balanced
    ensures DominanceAsWritten(cur, opp) != DominanceOf(cur, opp) ==>
      DominanceAsWritten(cur, opp) == Balanced && DominanceOf(cur, opp) == MixedSignals
  {
    if OppositeUsable(opp) && BalancedRatio(cur, opp.value) {
      BalancedRatioIsBalancedAsWritten(cur, opp.value);
    }
  }

  lemma BalancedRatioIsBalancedAsWritten(cur: Bucket, o: Bucket)
    requires BalancedRatio(cur, o)
    ensures BalancedAsWritten(cur, o)
  {
    QuotientBelow(Abs(cur.oi - o.oi), o.oi);
    QuotientBelow(Abs(cur.volume - o.volume), o.volume);
  }

  /** A ratio below 0.2 has an integer quotient below 0.2 as well: 0, or not positive for a negative divisor. */
  lemma QuotientBelow(a: nat, b: int)
    requires b != 0 && (a as real) / (b as real) < 0.2
    ensures SqlIntDiv(a, b).Some? && (SqlIntDiv(a, b).value as real) < 0.2
  {
    if b > 0 {
      RatioBelow(a as real, b as real, 0.2);
      QuotientOfSmaller(a, b);
    } else {
      QuotientByNegative(a, b);
    }
  }

  /** A non-negative dividend smaller than a positive divisor has quotient 0. */
  lemma QuotientOfSmaller(a: nat, b: int)
    requires 0 < b && (a as real) < 0.2 * (b as real)
    ensures SqlIntDiv(a, b) == Some(0)
  {
    assert a < b;
    SmallDivZero(a, b);
  }

  /** A non-negative dividend over a negative divisor has a quotient that is not positive. */
  lemma QuotientByNegative(a: nat, b: int)
    requires b < 0
    ensures SqlIntDiv(a, b).Some? && SqlIntDiv(a, b).value <= 0
  {
    DivNonNegative(Abs(a), Abs(b));
  }

  lemma SmallDivZero(x: int, y: int)
    requires 0 <= x < y
    ensures x / y == 0
  {
  }

  lemma DivNonNegative(x: int, y: int)
    requires 0 <= x && 0 < y
    ensures x / y >= 0
  {
  }

  datatype Signal = InsufficientData | CallUnwinding | PutUnwinding | StrongBuyCe | StrongBuyPe | NoClearSignal {
    function Label(): string {
      match this
      case InsufficientData => "Insufficient data"
      case CallUnwinding => "CALL Unwinding"
      case PutUnwinding => "PUT Unwinding"
      case StrongBuyCe => "STRONG BUY CE"
      case StrongBuyPe => "STRONG BUY PE"
      case NoClearSignal => "No Clear Signal"
    }
  }

  datatype Action = BuyPeOnCallUnwinding | BuyCeOnPutUnwinding | StrongBuyCeAction | StrongBuyPeAction | NoClearAction {
    function Label(): string {
      match this
      case BuyPeOnCallUnwinding => "BUY PE - Unwinding Signal"
      case BuyCeOnPutUnwinding => "BUY CE - PUT Unwinding"
      case StrongBuyCeAction => "STRONG BUY CE"
      case StrongBuyPeAction => "STRONG BUY PE"
      case NoClearAction => "No Clear Action"
    }
  }

  function LtpChange(cur: Windowed, prev: Option<Windowed>): Option<real> {
    PctChange(cur.b.ltp, if prev.Some? then Some(prev.value.b.ltp) else None)
  }

  function OiChange(cur: Windowed, prev: Option<Windowed>): Option<real> {
    PctChange(cur.b.oi as real, if prev.Some? then Some(prev.value.b.oi as real) else None)
  }

  /**
   * `prev_ltp > 0 AND prev_oi > 0 AND 100.0 * (ltp - prev_ltp) / prev_ltp < -1 AND ... oi ... < -1`:
   * both LTP and OI fell by more than 1%.
   */
  predicate Unwinding(cur: Windowed, prev: Option<Windowed>) {
    var l := LtpChange(cur, prev);
    var o := OiChange(cur, prev);
    l.Some? && o.Some? && l.value < -1.0 && o.value < -1.0
  }

  /** Both LTP and OI rose by more than 15%. */
  predicate Surge(cur: Windowed, prev: Option<Windowed>) {
    var l := LtpChange(cur, prev);
    var o := OiChange(cur, prev);
    l.Some? && o.Some? && l.value > 15.0 && o.value > 15.0
  }

  /** The moving-average confirmations of a strong buy: 5-minute price, 5-minute volume and 15-minute price. */
  predicate Confirmed(cur: Windowed, prev: Windowed) {
    cur.ma5 > prev.ma5 * 1.1 && cur.volMa5 > prev.volMa5 * 1.2 && cur.ma15 > prev.ma15 * 1.05
  }

  /** The `signal` column. */
  function SignalOf(cur: Windowed, prev: Option<Windowed>): Signal {
    if prev.None? then InsufficientData
    else if Unwinding(cur, prev) then (if cur.b.side == CE then CallUnwinding else PutUnwinding)
    else if Surge(cur, prev) && Confirmed(cur, prev.value) then (if cur.b.side == CE then StrongBuyCe else StrongBuyPe)
    else NoClearSignal
  }

  /** Only a missing previous row gives 'Insufficient data'. */
  lemma SignalInsufficientIffNoPrevious(cur: Windowed, prev: Option<Windowed>)
    ensures SignalOf(cur, prev) == InsufficientData <==> prev.None?
  {
  }

  /** The `action` column: the signal's tests without the moving-average confirmations and without the NULL guard on the previous volume. */
  function ActionOf(cur: Windowed, prev: Option<Windowed>): Action {
    if Unwinding(cur, prev) then (if cur.b.side == CE then BuyPeOnCallUnwinding else BuyCeOnPutUnwinding)
    else if Surge(cur, prev) then (if cur.b.side == CE then StrongBuyCeAction else StrongBuyPeAction)
    else NoClearAction
  }

  /**
   * Signal and action agree: an unwinding signal comes with the matching
   * buy-the-other-side action, a strong-buy signal with the same strong-buy
   * action; a strong-buy action is a strong-buy signal exactly when the
   * averages confirm it; no action means no signal; and without a previous
   * row there is neither.
   */
  lemma SignalActionAgreement(cur: Windowed, prev: Option<Windowed>)
    ensures SignalOf(cur, prev) == CallUnwinding <==> ActionOf(cur, prev) == BuyPeOnCallUnwinding && prev.Some?
    ensures SignalOf(cur, prev) == PutUnwinding <==> ActionOf(cur, prev) == BuyCeOnPutUnwinding && prev.Some?
    ensures SignalOf(cur, prev) == StrongBuyCe <==> ActionOf(cur, prev) == StrongBuyCeAction && Confirmed(cur, prev.value)
    ensures SignalOf(cur, prev) == StrongBuyPe <==> ActionOf(cur, prev) == StrongBuyPeAction && Confirmed(cur, prev.value)
    ensures ActionOf(cur, prev) == NoClearAction ==> SignalOf(cur, prev) in {InsufficientData, NoClearSignal}
    ensures prev.None? ==> SignalOf(cur, prev) == InsufficientData && ActionOf(cur, prev) == NoClearAction
  {
  }

  /** Side labels follow the row's side. */
  lemma SignalFollowsSide(cur: Windowed, prev: Option<Windowed>)
    ensures SignalOf(cur, prev) in {CallUnwinding, StrongBuyCe} ==> cur.b.side == CE
    ensures SignalOf(cur, prev) in {PutUnwinding, StrongBuyPe} ==> cur.b.side == PE
    ensures ActionOf(cur, prev) in {BuyPeOnCallUnwinding, StrongBuyCeAction} ==> cur.b.side == CE
  {
  }

  /**
   * The unwinding and surge tests cannot both hold, so a row is never both;
   * each is a fall or rise of the price itself against the previous price.
   */
  lemma UnwindingExcludesSurge(cur: Windowed, prev: Windowed)
    ensures !(Unwinding(cur, Some(prev)) && Surge(cur, Some(prev)))
    ensures Unwinding(cur, Some(prev)) ==> prev.b.ltp > 0.0 && cur.b.ltp < prev.b.ltp * 0.99
    ensures Surge(cur, Some(prev)) ==> prev.b.ltp > 0.0 && cur.b.ltp > prev.b.ltp * 1.15
  {
    if prev.b.ltp > 0.0 {
      PctChangeThresholds(cur.b.ltp, prev.b.ltp, -1.0);
      PctChangeThresholds(cur.b.ltp, prev.b.ltp, 15.0);
    }
  }

  /**
   * A call whose price goes 102 -> 80 while its OI goes 1010 -> 950 (−21.6%
   * and −5.9%) is a CALL unwinding, whatever its averages, and the action is
   * to buy the put.
   */
  lemma CallUnwindingExample(ma5: real, ma15: real, ma30: real, v5: real, v15: real,
                             pma5: real, pma15: real, pma30: real, pv5: real, pv15: real)
    ensures var prev := Windowed(Bucket(601, 24000.0, CE, 500, 1010, 102.0, 12.0, 12.0), pma5, pma15, pma30, pv5, pv15);
      var cur := Windowed(Bucket(602, 24000.0, CE, 500, 950, 80.0, 12.0, 12.0), ma5, ma15, ma30, v5, v15);
      SignalOf(cur, Some(prev)).Label() == "CALL Unwinding" &&
      ActionOf(cur, Some(prev)).Label() == "BUY PE - Unwinding Signal"
  {
  }

  /**
   * One row of the signal query: the row with its averages, the previous
   * surviving row of its partition with that row's averages, the joined
   * opposite row, the four percent changes and the three labels.
   */
  datatype SignalRow = SignalRow(
    cur: Windowed,
    prev: Option<Windowed>,
    opposite: Option<Bucket>,
    volumePct: Option<real>,
    oiPct: Option<real>,
    ltpPct: Option<real>,
    ivPct: Option<real>,
    dominance: Dominance,
    signal: Signal,
    action: Action)

  /** The query's columns for the grouped row b. */
  function SignalRowOf(t: seq<Bucket>, b: Bucket): (r: SignalRow)
    requires b in t
    ensures r.cur.b == b
    ensures r.prev.Some? <==> Previous(t, b).Some?
    ensures r.prev.Some? ==> r.prev.value.b == Previous(t, b).value
    ensures r.opposite == Opposite(t, b)
    ensures r.signal == SignalOf(r.cur, r.prev) && r.action == ActionOf(r.cur, r.prev)
    ensures r.dominance == DominanceAsWritten(b, r.opposite)
    ensures r.cur == Averages(t, b)
    ensures Previous(t, b).Some? ==> Previous(t, b).value in t && r.prev == Some(Averages(t, Previous(t, b).value))
    ensures r.volumePct == PctChange(b.volume as real, if Previous(t, b).Some? then Some(Previous(t, b).value.volume as real) else None)
    ensures r.ivPct == PctChange(b.iv, if Previous(t, b).Some? then Some(Previous(t, b).value.iv) else None)
    ensures r.oiPct == OiChange(r.cur, r.prev) && r.ltpPct == LtpChange(r.cur, r.prev)
  {
    PreviousShape(t, b);
    var cur := Averages(t, b);
    var p := Previous(t, b);
    var prev := if p.Some? then Some(Averages(t, p.value)) else None;
    var opp := Opposite(t, b);
    SignalRow(cur, prev, opp,
      PctChange(b.volume as real, if p.Some? then Some(p.value.volume as real) else None),
      OiChange(cur, prev),
      LtpChange(cur, prev),
      PctChange(b.iv, if p.Some? then Some(p.value.iv) else None),
      DominanceAsWritten(b, opp),
      SignalOf(cur, prev),
      ActionOf(cur, prev))
  }

  /** The rows of the top-3 filter, each with its columns; the final `ORDER BY` is not modelled. */
  function SignalQuery(t: seq<Bucket>): (rows: seq<SignalRow>)
    ensures var s := Filter(t, (c: Bucket) => Survives(t, c));
      |rows| == |s| && forall i :: 0 <= i < |rows| ==> rows[i].cur.b == s[i] && Survives(t, s[i])
    ensures var s := Filter(t, (c: Bucket) => Survives(t, c));
      forall i :: 0 <= i < |rows| ==> s[i] in t && rows[i] == SignalRowOf(t, s[i])
  {
    var s := Filter(t, (c: Bucket) => Survives(t, c));
    seq(|s|, i requires 0 <= i < |s| => SignalRowOf(t, s[i]))
  }

  /**
   * A row's signal is 'Insufficient data' exactly when no earlier row of its
   * (strike, side) partition survived the top-3 filter.
   */
  lemma SignalInsufficientIffNoEarlierSurvivor(t: seq<Bucket>, b: Bucket)
    requires b in t
    ensures SignalRowOf(t, b).signal == InsufficientData <==>
      forall c :: c in t && c.strike == b.strike && c.side == b.side && c.window < b.window ==> !Survives(t, c)
  {
    PreviousShape(t, b);
    var row := SignalRowOf(t, b);
    SignalInsufficientIffNoPrevious(row.cur, row.prev);
    if Previous(t, b).None? {
      forall c | c in t && c.strike == b.strike && c.side == b.side && c.window < b.window
        ensures !Survives(t, c)
      {
        if Survives(t, c) {
          PreviousIsLatestEarlierSurvivor(t, b, c);
        }
      }
    }
  }

  /**
   * A row's dominance is 'Insufficient Opposite Data' exactly when no
   * surviving other-side row of the same minute and strike has positive OI,
   * LTP and IV (the grouped table has one row per key).
   */
  lemma DominanceInsufficientIffNoUsableOpposite(t: seq<Bucket>, b: Bucket)
    requires UniqueKeys(t) && b in t
    ensures SignalRowOf(t, b).dominance == InsufficientOppositeData <==>
      forall c :: c in t && Survives(t, c) && c.window == b.window && c.strike == b.strike && c.side != b.side ==>
        !OppositeUsable(Some(c))
  {
    forall c | c in t && Survives(t, c) && c.window == b.window && c.strike == b.strike && c.side != b.side
      ensures Opposite(t, b) == Some(c)
    {
      OppositeIsOtherSide(t, b, c);
    }
    OppositeIsOtherSide(t, b, b);
    DominanceInsufficientAndMirror(b, Opposite(t, b));
  }

  /** A table holding a single grouped row gives that row 'Insufficient data' and 'Insufficient Opposite Data'. */
  lemma SingleBucketTable(b: Bucket)
    ensures var rows := SignalQuery([b]);
      |rows| == 1 && rows[0].cur.b == b &&
      rows[0].signal == InsufficientData && rows[0].action == NoClearAction &&
      rows[0].dominance == InsufficientOppositeData
  {
    var t := [b];
    var comp := Competitors(t, b.window, b.side);
    TopNSelection(comp, (c: Bucket) => c.volume as real, 3);
    assert b in comp;
    assert Survives(t, b);
    assert Filter(t, (c: Bucket) => Survives(t, c)) == [b];
    SignalInsufficientIffNoEarlierSurvivor(t, b);
    OppositeIsOtherSide(t, b, b);
    SignalActionAgreement(SignalRowOf(t, b).cur, SignalRowOf(t, b).prev);
  }
}
