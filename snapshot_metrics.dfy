/**
 * The monitor worker's per-fetch snapshot: spot price, ATM strike, total
 * CE and PE open interest with the put-call ratio, the max-pain strike, and
 * call and put volume with their net flow.
 */
module SnapshotMetrics {

  import opened Wrappers
  import opened Sequences
  import opened Chain
  import W = WindowEngine

  function SideQuote(it: ChainItem, side: W.Side): Option<Quote> {
    if side == W.CE then it.ce else it.pe
  }

  predicate HasSide(it: ChainItem, side: W.Side) {
    SideQuote(it, side).Some?
  }

  /** `sum(item[side][key] for item in data if side in item)`; an item with the side but without the key raises. */
  function SideSum(items: seq<ChainItem>, side: W.Side, key: string): (r: Result<real, string>)
    ensures r.Err? <==> exists i :: 0 <= i < |items| && HasSide(items[i], side) && key !in SideQuote(items[i], side).value
  {
    if items == [] then Ok(0.0)
    else
      var rest := SideSum(items[1..], side, key);
      var head := items[0];
      assert forall i :: 1 <= i < |items| ==> items[i] == items[1..][i - 1];
      if !HasSide(head, side) then rest
      else if key !in SideQuote(head, side).value then Err("KeyError: " + key)
      else if rest.Err? then rest
      else Ok(SideQuote(head, side).value[key] + rest.value)
  }

  /** The items that carry the side (`if side in item`). */
  function WithSide(items: seq<ChainItem>, side: W.Side): seq<ChainItem> {
    Filter(items, (it: ChainItem) => HasSide(it, side))
  }

  /** The sum ranges only over the items that carry the side: items without it contribute nothing. */
  lemma {:induction false} SideSumOverItemsWithSide(items: seq<ChainItem>, side: W.Side, key: string)
    ensures SideSum(items, side, key) == SideSum(WithSide(items, side), side, key)
  {
    if items != [] {
      SideSumOverItemsWithSide(items[1..], side, key);
      var f := WithSide(items, side);
      if HasSide(items[0], side) {
        assert f == [items[0]] + WithSide(items[1..], side);
        assert f[0] == items[0] && f[1..] == WithSide(items[1..], side);
      } else {
        assert f == WithSide(items[1..], side);
      }
    }
  }

  /** `total_pe_oi / total_ce_oi if total_ce_oi != 0 else 0`. */
  function Pcr(ceOi: real, peOi: real): (pcr: real)
    ensures ceOi != 0.0 ==> pcr * ceOi == peOi
    ensures ceOi == 0.0 ==> pcr == 0.0
  {
    if ceOi != 0.0 then peOi / ceOi else 0.0
  }

  function Max0(x: real): real { if x > 0.0 then x else 0.0 }

  /** The payout of the writers at expiry on `strike` if the index settles at `u`. */
  function Pain(strike: real, u: real, ceOi: real, peOi: real): (p: real) {
    ceOi * Max0(strike - u) + peOi * Max0(u - strike)
  }

  /** Pain is never negative for non-negative interest, and zero at the spot itself. */
  lemma PainBounds(strike: real, u: real, ceOi: real, peOi: real)
    ensures ceOi >= 0.0 && peOi >= 0.0 ==> Pain(strike, u, ceOi, peOi) >= 0.0
    ensures Pain(u, u, ceOi, peOi) == 0.0
  {
  }

  datatype PainPoint = PainPoint(strike: real, pain: real)

  /** `item[side]["openInterest"] if side in item else 0`. */
  function SideOi(it: ChainItem, side: W.Side): Result<real, string> {
    match SideQuote(it, side)
    case None => Ok(0.0)
    case Some(q) => Field(q, "openInterest")
  }

  /** The point one item adds to `strikes` / `pain_values`, if it has a strike. */
  function ItemPain(it: ChainItem, u: real): Result<Option<PainPoint>, string> {
    if it.strikePrice.None? then Ok(None)
    else
      var ce := SideOi(it, W.CE);
      var pe := SideOi(it, W.PE);
      if ce.Err? then Err(ce.error)
      else if pe.Err? then Err(pe.error)
      else Ok(Some(PainPoint(it.strikePrice.value, Pain(it.strikePrice.value, u, ce.value, pe.value))))
  }

  /** The paired `strikes` and `pain_values` lists after the loop over `items`. */
  function PainsOf(items: seq<ChainItem>, u: real): (r: Result<seq<PainPoint>, string>)
    ensures r.Ok? ==> |r.value| <= |items|
  {
    if items == [] then Ok([])
    else
      var rest := PainsOf(items[..|items| - 1], u);
      var last := ItemPain(items[|items| - 1], u);
      if rest.Err? then rest
      else if last.Err? then Err(last.error)
      else if last.value.None? then rest
      else Ok(rest.value + [last.value.value])
  }

  /** `pain_values.index(min(pain_values))`: the first index of the smallest value. */
  function FirstMinIndex(ps: seq<PainPoint>): (i: nat)
    requires |ps| > 0
    ensures i < |ps|
    ensures forall j :: 0 <= j < |ps| ==> ps[i].pain <= ps[j].pain
    ensures forall j :: 0 <= j < i ==> ps[j].pain > ps[i].pain
  {
    if |ps| == 1 then 0
    else
      var k := FirstMinIndex(ps[1..]);
      assert forall j :: 1 <= j < |ps| ==> ps[j] == ps[1..][j - 1];
      if ps[0].pain <= ps[k + 1].pain then 0 else k + 1
  }

  /** The max-pain strike: the strike of least pain, the first on ties, or the ATM strike when no item has a strike. */
  function MaxPainSpec(items: seq<ChainItem>, u: real, atm: int): Result<real, string> {
    match PainsOf(items, u)
    case Err(e) => Err(e)
    case Ok(ps) => if ps == [] then Ok(atm as real) else Ok(ps[FirstMinIndex(ps)].strike)
  }

  /** The loops of `process_data` that build `strikes` and `pain_values` and pick the first minimum. */
  method MaxPain(items: seq<ChainItem>, u: real, atm: int) returns (r: Result<real, string>)
    ensures r == MaxPainSpec(items, u, atm)
  {
    var points: seq<PainPoint> := [];
    var i := 0;
    while i < |items|
      invariant 0 <= i <= |items|
      invariant PainsOf(items[..i], u) == Ok(points)
    {
      assert items[..i + 1][..i] == items[..i];
      var p := ItemPain(items[i], u);
      if p.Err? {
        r := Err(p.error);
        PainsErrorSticks(items, u, i + 1);
        return;
      }
      if p.value.Some? {
        points := points + [p.value.value];
      }
      i := i + 1;
    }
    assert items[..|items|] == items;
    if points == [] {
      return Ok(atm as real);
    }
    var best := 0;
    var j := 1;
    while j < |points|
      invariant 1 <= j <= |points| && best < j
      invariant forall k :: 0 <= k < j ==> points[best].pain <= points[k].pain
      invariant forall k :: 0 <= k < best ==> points[k].pain > points[best].pain
    {
      if points[j].pain < points[best].pain {
        best := j;
      }
      j := j + 1;
    }
    FirstMinUnique(points, best);
    r := Ok(points[best].strike);
  }

  lemma FirstMinUnique(ps: seq<PainPoint>, b: nat)
    requires b < |ps|
    requires forall k :: 0 <= k < |ps| ==> ps[b].pain <= ps[k].pain
    requires forall k :: 0 <= k < b ==> ps[k].pain > ps[b].pain
    ensures FirstMinIndex(ps) == b
  {
    var f := FirstMinIndex(ps);
    assert f == b;
  }

  /** An error among the first n items is the error of the whole loop. */
  lemma {:induction false} PainsErrorSticks(items: seq<ChainItem>, u: real, n: nat)
    requires n <= |items| && PainsOf(items[..n], u).Err?
    ensures PainsOf(items, u) == PainsOf(items[..n], u)
    decreases |items| - n
  {
    if n < |items| {
      assert items[..n + 1][..n] == items[..n];
      PainsErrorSticks(items, u, n + 1);
    } else {
      assert items[..n] == items;
    }
  }

  /**
   * The max-pain strike is the strike of an item, of least pain among
   * the items with a strike, and the first such; with no struck item it is
   * the ATM strike.
   */
  lemma MaxPainIsLeastPain(items: seq<ChainItem>, u: real, atm: int)
    requires PainsOf(items, u).Ok?
    ensures var ps := PainsOf(items, u).value;
      var r := MaxPainSpec(items, u, atm);
      r.Ok? &&
      (ps == [] ==> r.value == atm as real) &&
      (ps != [] ==>
         exists i :: 0 <= i < |ps| && r.value == ps[i].strike &&
           (forall j :: 0 <= j < |ps| ==> ps[i].pain <= ps[j].pain) &&
           (forall j :: 0 <= j < i ==> ps[j].pain > ps[i].pain))
  {
    var ps := PainsOf(items, u).value;
    if ps != [] {
      var i := FirstMinIndex(ps);
      assert MaxPainSpec(items, u, atm).value == ps[i].strike;
    }
  }

  /** Every point's strike is the strike of one of the items. */
  lemma {:induction false} PainsOfStrikes(items: seq<ChainItem>, u: real)
    requires PainsOf(items, u).Ok?
    ensures var ps := PainsOf(items, u).value;
      forall k :: 0 <= k < |ps| ==> exists i :: 0 <= i < |items| && items[i].strikePrice == Some(ps[k].strike)
  {
    if items != [] {
      var init := items[..|items| - 1];
      PainsOfStrikes(init, u);
      var ps := PainsOf(items, u).value;
      forall k | 0 <= k < |ps| ensures exists i :: 0 <= i < |items| && items[i].strikePrice == Some(ps[k].strike) {
        if k < |PainsOf(init, u).value| {
          var i :| 0 <= i < |init| && init[i].strikePrice == Some(PainsOf(init, u).value[k].strike);
          assert items[i] == init[i];
        } else {
          assert items[|items| - 1].strikePrice == Some(ps[k].strike);
        }
      }
    }
  }

  datatype Snapshot = Snapshot(
    underlying: real, atm: int, maxPain: real,
    totalCeOi: real, totalPeOi: real, pcr: real,
    callVol: real, putVol: real, netFlow: real,
    timestamp: string, raw: Records)

  /** What `process_data` returns, or the error it raises. */
  function ProcessSpec(p: Payload, now: string): Result<Snapshot, string> {
    if p.records.None? then Err("KeyError: records")
    else
      var rec := p.records.value;
      if rec.underlyingValue.None? then Err("KeyError: underlyingValue")
      else if rec.expiryDates == [] then Err("IndexError: list index out of range")
      else
        var u := rec.underlyingValue.value;
        var ceOi := SideSum(rec.data, W.CE, "openInterest");
        var peOi := SideSum(rec.data, W.PE, "openInterest");
        var atm := AtmStrike(u);
        var mp := MaxPainSpec(rec.data, u, atm);
        var cv := SideSum(rec.data, W.CE, "totalTradedVolume");
        var pv := SideSum(rec.data, W.PE, "totalTradedVolume");
        if ceOi.Err? then Err(ceOi.error)
        else if peOi.Err? then Err(peOi.error)
        else if mp.Err? then Err(mp.error)
        else if cv.Err? then Err(cv.error)
        else if pv.Err? then Err(pv.error)
        else Ok(Snapshot(u, atm, mp.value, ceOi.value, peOi.value, Pcr(ceOi.value, peOi.value),
                         cv.value, pv.value, cv.value - pv.value, now, rec))
  }

  /** `Worker.process_data`. */
  method ProcessData(p: Payload, now: string) returns (r: Result<Snapshot, string>)
    ensures r == ProcessSpec(p, now)
  {
    if p.records.None? {
      return Err("KeyError: records");
    }
    var rec := p.records.value;
    if rec.underlyingValue.None? {
      return Err("KeyError: underlyingValue");
    }
    if rec.expiryDates == [] {
      return Err("IndexError: list index out of range");
    }
    var u := rec.underlyingValue.value;
    var ceOi := SideSum(rec.data, W.CE, "openInterest");
    if ceOi.Err? {
      return Err(ceOi.error);
    }
    var peOi := SideSum(rec.data, W.PE, "openInterest");
    if peOi.Err? {
      return Err(peOi.error);
    }
    var pcr := Pcr(ceOi.value, peOi.value);
    var atm := AtmStrike(u);
    var mp := MaxPain(rec.data, u, atm);
    if mp.Err? {
      return Err(mp.error);
    }
    var cv := SideSum(rec.data, W.CE, "totalTradedVolume");
    if cv.Err? {
      return Err(cv.error);
    }
    var pv := SideSum(rec.data, W.PE, "totalTradedVolume");
    if pv.Err? {
      return Err(pv.error);
    }
    r := Ok(Snapshot(u, atm, mp.value, ceOi.value, peOi.value, pcr, cv.value, pv.value, cv.value - pv.value, now, rec));
  }

  /**
   * A snapshot fails exactly when `records` or its `underlyingValue` is
   * absent, `expiryDates` is empty, or a side lacks a field the sums read;
   * otherwise its ratio, ATM strike and net flow relate as the monitor
   * displays them.
   */
  lemma SnapshotFailures(p: Payload, now: string)
    ensures (p.records.None? || p.records.value.underlyingValue.None? || p.records.value.expiryDates == []) ==>
      ProcessSpec(p, now).Err?
    ensures p.records.Some? && p.records.value.underlyingValue.Some? && p.records.value.expiryDates != [] ==>
      (ProcessSpec(p, now).Err? <==>
        SideSum(p.records.value.data, W.CE, "openInterest").Err? ||
        SideSum(p.records.value.data, W.PE, "openInterest").Err? ||
        PainsOf(p.records.value.data, p.records.value.underlyingValue.value).Err? ||
        SideSum(p.records.value.data, W.CE, "totalTradedVolume").Err? ||
        SideSum(p.records.value.data, W.PE, "totalTradedVolume").Err?)
  {
  }

  /**
   * A snapshot's ratio, ATM strike and net flow relate as the monitor
   * displays them, and each volume total is the sum over the items that
   * carry that side.
   */
  lemma SnapshotProperties(p: Payload, now: string)
    requires ProcessSpec(p, now).Ok?
    ensures var s := ProcessSpec(p, now).value;
      s.netFlow == s.callVol - s.putVol &&
      (s.totalCeOi != 0.0 ==> s.pcr * s.totalCeOi == s.totalPeOi) &&
      (s.totalCeOi == 0.0 ==> s.pcr == 0.0) &&
      s.atm % 50 == 0 &&
      Some(s.underlying) == p.records.value.underlyingValue &&
      Ok(s.callVol) == SideSum(WithSide(p.records.value.data, W.CE), W.CE, "totalTradedVolume") &&
      Ok(s.putVol) == SideSum(WithSide(p.records.value.data, W.PE), W.PE, "totalTradedVolume")
  {
    var rec := p.records.value;
    var u := rec.underlyingValue.value;
    var ceOi := SideSum(rec.data, W.CE, "openInterest");
    var peOi := SideSum(rec.data, W.PE, "openInterest");
    var cv := SideSum(rec.data, W.CE, "totalTradedVolume");
    var pv := SideSum(rec.data, W.PE, "totalTradedVolume");
    var mp := MaxPainSpec(rec.data, u, AtmStrike(u));
    assert ceOi.Ok? && peOi.Ok? && cv.Ok? && pv.Ok? && mp.Ok?;
    assert ProcessSpec(p, now).value ==
      Snapshot(u, AtmStrike(u), mp.value, ceOi.value, peOi.value, Pcr(ceOi.value, peOi.value),
               cv.value, pv.value, cv.value - pv.value, now, rec);
    SideSumOverItemsWithSide(rec.data, W.CE, "totalTradedVolume");
    SideSumOverItemsWithSide(rec.data, W.PE, "totalTradedVolume");
  }
}
