/**
 * The option monitor window's state and decision logic: the bounded
 * history of snapshots, the PCR and flow labels of the summary, the entry
 * signals, the labels of the historical table and the five strike cards.
 * Only the values the widgets are filled with are modelled.
 */
module Monitor {

  import opened Wrappers
  import opened Chain
  import opened SnapshotMetrics

  const HistoryLimit: nat := 30

  /** Append, then drop the oldest entry once there are more than 30. */
  function Bounded(s: seq<Snapshot>): (r: seq<Snapshot>)
    ensures |s| <= HistoryLimit + 1 ==> |r| <= HistoryLimit
  {
    if |s| > HistoryLimit then s[1..] else s
  }

  /** The history after the snapshots ds have arrived in order, starting from h. */
  function HistoryAfter(h: seq<Snapshot>, ds: seq<Snapshot>): seq<Snapshot>
    decreases |ds|
  {
    if ds == [] then h else HistoryAfter(Bounded(h + [ds[0]]), ds[1..])
  }

  /** The last n elements of s (all of s when it is shorter). */
  function LastN(s: seq<Snapshot>, n: nat): (r: seq<Snapshot>)
    ensures |r| == if |s| < n then |s| else n
  {
    if |s| <= n then s else s[|s| - n..]
  }

  /**
   * Starting from a history of at most 30 entries, the history is always
   * the 30 most recent snapshots in arrival order: the newest last, the
   * oldest dropped first.
   */
  lemma {:induction false} HistoryKeepsLatest(h: seq<Snapshot>, ds: seq<Snapshot>)
    requires |h| <= HistoryLimit
    ensures HistoryAfter(h, ds) == LastN(h + ds, HistoryLimit)
    decreases |ds|
  {
    if ds != [] {
      var h' := Bounded(h + [ds[0]]);
      assert h' == LastN(h + [ds[0]], HistoryLimit);
      HistoryKeepsLatest(h', ds[1..]);
      assert (h + [ds[0]]) + ds[1..] == h + ds;
      LastNOfLastN(h + [ds[0]], ds[1..]);
    } else {
      assert h + ds == h;
    }
  }

  lemma LastNOfLastN(a: seq<Snapshot>, b: seq<Snapshot>)
    ensures LastN(LastN(a, HistoryLimit) + b, HistoryLimit) == LastN(a + b, HistoryLimit)
  {
    var c := LastN(a, HistoryLimit) + b;
    var d := a + b;
    var x := LastN(c, HistoryLimit);
    var y := LastN(d, HistoryLimit);
    assert |x| == |y|;
    forall k | 0 <= k < |x| ensures x[k] == y[k] {
      assert x[k] == c[|c| - |x| + k];
      assert y[k] == d[|d| - |y| + k];
    }
  }

  class OptionMonitor {
    var history: seq<Snapshot>
    var lastData: Option<Snapshot>

    predicate Valid()
      reads this
    {
      |history| <= HistoryLimit
    }

    constructor()
      ensures Valid() && history == [] && lastData == None
    {
      history := [];
      lastData := None;
    }

    /** `update_data`: remember the snapshot, append it, and drop the oldest past 30. */
    method UpdateData(d: Snapshot)
      requires Valid()
      modifies this
      ensures Valid()
      ensures lastData == Some(d)
      ensures history == Bounded(old(history) + [d])
      ensures history == LastN(old(history) + [d], HistoryLimit)
    {
      lastData := Some(d);
      history := history + [d];
      if |history| > HistoryLimit {
        history := history[1..];
      }
    }

    /** `update_ui`: nothing before the first snapshot; otherwise every panel from the latest one. */
    method UpdateUi() returns (v: Option<View>)
      requires Valid()
      ensures v == ViewOf(lastData, history)
    {
      if lastData.None? {
        return None;
      }
      var d := lastData.value;
      var h := history;
      var labels := HistoricalSignals(h);
      assert labels == seq(|h|, i requires 0 <= i < |h| => RowSignal(h, i));
      v := Some(View(PcrBandOf(d.pcr), FlowOf(d.netFlow), EntrySignalsOf(history, d), labels,
                     StrikeCards(d.raw.data, d.atm)));
    }
  }

  datatype PcrBand = ExtremelyBullish | Bullish | NeutralPcr | Bearish | ExtremelyBearish {
    function Label(): string {
      match this
      case ExtremelyBullish => "Extremely Bullish (PCR > 1.5)"
      case Bullish => "Bullish (PCR > 1.2)"
      case NeutralPcr => "Neutral (PCR 0.8-1.2)"
      case Bearish => "Bearish (PCR 0.5-0.8)"
      case ExtremelyBearish => "Extremely Bearish (PCR < 0.5)"
    }

    /** 0 for the most bullish band up to 4 for the most bearish. */
    function Rank(): nat {
      match this
      case ExtremelyBullish => 0
      case Bullish => 1
      case NeutralPcr => 2
      case Bearish => 3
      case ExtremelyBearish => 4
    }
  }

  function PcrBandOf(pcr: real): PcrBand {
    if pcr > 1.5 then ExtremelyBullish
    else if pcr > 1.2 then Bullish
    else if pcr > 0.8 then NeutralPcr
    else if pcr > 0.5 then Bearish
    else ExtremelyBearish
  }

  /**
   * The bands are ordered: a larger ratio is never a more bearish band; the
   * thresholds are strict, so a ratio equal to a threshold falls in the band
   * below it.
   */
  lemma PcrBandMonotone(p: real, q: real)
    ensures p <= q ==> PcrBandOf(q).Rank() <= PcrBandOf(p).Rank()
    ensures PcrBandOf(1.5) == Bullish && PcrBandOf(1.2) == NeutralPcr
    ensures PcrBandOf(0.8) == Bearish && PcrBandOf(0.5) == ExtremelyBearish
    ensures PcrBandOf(0.0) == ExtremelyBearish
  {
  }

  datatype Flow = CallBuyingDominant | PutBuyingDominant {
    function Label(): string {
      match this
      case CallBuyingDominant => "Call Buying Dominant"
      case PutBuyingDominant => "Put Buying Dominant"
    }
  }

  function FlowOf(netFlow: real): (f: Flow)
    ensures f == CallBuyingDominant <==> netFlow > 0.0
  {
    if netFlow > 0.0 then CallBuyingDominant else PutBuyingDominant
  }

  /** The six bullet points of the entry-signal panel. */
  datatype EntrySignals = EntrySignals(
    bullishDivergence: bool, callsDominant: bool,
    bearishDivergence: bool, putsDominant: bool,
    callsTrap: bool, putsTrap: bool)

  /** Price change against the snapshot before the latest, or 0 without one. */
  function PriceChange(history: seq<Snapshot>, d: Snapshot): real {
    if |history| >= 2 then d.underlying - history[|history| - 2].underlying else 0.0
  }

  /** `update_entry_signals`, called after d was appended to the history. */
  function EntrySignalsOf(history: seq<Snapshot>, d: Snapshot): EntrySignals {
    var pc := PriceChange(history, d);
    var hasPrev := |history| >= 2;
    EntrySignals(
      (hasPrev && d.putVol > history[|history| - 2].putVol) && pc > 0.0,
      d.netFlow > 0.0 && pc > 0.0,
      (hasPrev && d.callVol > history[|history| - 2].callVol) && pc < 0.0,
      d.netFlow < 0.0 && pc < 0.0,
      d.netFlow > 0.0 && pc < 0.0,
      d.netFlow < 0.0 && pc > 0.0)
  }

  /**
   * Without an earlier snapshot, or with an unchanged price, no signal is
   * shown; call signals need a rising price and put signals a falling one,
   * so the two never appear together; and a warning never accompanies the
   * dominance signal of its own side.
   */
  lemma EntrySignalsConsistent(history: seq<Snapshot>, d: Snapshot)
    ensures var e := EntrySignalsOf(history, d);
      (PriceChange(history, d) == 0.0 ==> e == EntrySignals(false, false, false, false, false, false)) &&
      (|history| < 2 ==> e == EntrySignals(false, false, false, false, false, false)) &&
      ((e.bullishDivergence || e.callsDominant || e.putsTrap) ==> PriceChange(history, d) > 0.0) &&
      ((e.bearishDivergence || e.putsDominant || e.callsTrap) ==> PriceChange(history, d) < 0.0) &&
      !(e.callsDominant && e.callsTrap) && !(e.putsDominant && e.putsTrap) &&
      !((e.bullishDivergence || e.callsDominant) && (e.bearishDivergence || e.putsDominant))
  {
  }

  /** `", ".join(parts)`. */
  function Join(parts: seq<string>): string {
    if parts == [] then "" else if |parts| == 1 then parts[0] else parts[0] + ", " + Join(parts[1..])
  }

  function CallConditions(prev: Snapshot, d: Snapshot): seq<string> {
    var pc := d.underlying - prev.underlying;
    (if d.putVol > prev.putVol && pc > 0.0 then ["Bullish Divergence"] else []) +
    (if d.netFlow > 0.0 && pc > 0.0 then ["Calls Dominant"] else [])
  }

  function PutConditions(prev: Snapshot, d: Snapshot): seq<string> {
    var pc := d.underlying - prev.underlying;
    (if d.callVol > prev.callVol && pc < 0.0 then ["Bearish Divergence"] else []) +
    (if d.netFlow < 0.0 && pc < 0.0 then ["Puts Dominant"] else [])
  }

  function BaseSignal(prev: Snapshot, d: Snapshot): string {
    var calls := CallConditions(prev, d);
    var puts := PutConditions(prev, d);
    if calls != [] then "Call Buy: " + Join(calls)
    else if puts != [] then "Put Buy: " + Join(puts)
    else "Neutral"
  }

  function Warnings(prev: Snapshot, d: Snapshot): string {
    var pc := d.underlying - prev.underlying;
    (if d.netFlow > 0.0 && pc < 0.0 then " (Warning: Calls Dominant but Nifty Falling)" else "") +
    (if d.netFlow < 0.0 && pc > 0.0 then " (Warning: Puts Dominant but Nifty Rising)" else "")
  }

  /** The signal column of row i of the historical table. */
  function RowSignal(h: seq<Snapshot>, i: nat): string
    requires i < |h|
  {
    if i == 0 then "Neutral" else SignalAfter(h[i - 1], h[i])
  }

  /** The signal of a row against the row before it. */
  function SignalAfter(prev: Snapshot, d: Snapshot): string {
    BaseSignal(prev, d) + Warnings(prev, d)
  }

  /**
   * The loop of `update_historical_table`: one row after another, each
   * labelled by `f`.  Generic in the label so that the proof of the loop
   * does not look inside it.
   */
  method Tabulate<T>(n: nat, f: nat --> T) returns (s: seq<T>)
    requires forall i :: 0 <= i < n ==> f.requires(i)
    ensures |s| == n
    ensures forall i :: 0 <= i < n ==> s[i] == f(i)
  {
    s := [];
    var i := 0;
    while i < n
      invariant 0 <= i <= n && |s| == i
      invariant forall k :: 0 <= k < i ==> s[k] == f(k)
    {
      s := s + [f(i)];
      i := i + 1;
    }
  }

  /** The signal column of `update_historical_table` over the history. */
  method HistoricalSignals(h: seq<Snapshot>) returns (labels: seq<string>)
    ensures |labels| == |h|
    ensures forall i :: 0 <= i < |h| ==> labels[i] == RowSignal(h, i)
  {
    labels := Tabulate(|h|, (i: nat) requires i < |h| => RowSignal(h, i));
  }

  /** The body of that loop for a row with a predecessor. */
  method RowLabel(prev: Snapshot, data: Snapshot) returns (signal: string)
    ensures signal == SignalAfter(prev, data)
  {
    var priceChange := data.underlying - prev.underlying;
    var callConditions: seq<string> := [];
    if data.putVol > prev.putVol && priceChange > 0.0 {
      callConditions := callConditions + ["Bullish Divergence"];
    }
    if data.netFlow > 0.0 && priceChange > 0.0 {
      callConditions := callConditions + ["Calls Dominant"];
    }
    var putConditions: seq<string> := [];
    if data.callVol > prev.callVol && priceChange < 0.0 {
      putConditions := putConditions + ["Bearish Divergence"];
    }
    if data.netFlow < 0.0 && priceChange < 0.0 {
      putConditions := putConditions + ["Puts Dominant"];
    }
    assert callConditions == CallConditions(prev, data);
    assert putConditions == PutConditions(prev, data);
    if callConditions != [] {
      signal := "Call Buy: " + Join(callConditions);
    } else if putConditions != [] {
      signal := "Put Buy: " + Join(putConditions);
    } else {
      signal := "Neutral";
    }
    var warnings := "";
    if data.netFlow > 0.0 && priceChange < 0.0 {
      warnings := warnings + " (Warning: Calls Dominant but Nifty Falling)";
    }
    if data.netFlow < 0.0 && priceChange > 0.0 {
      warnings := warnings + " (Warning: Puts Dominant but Nifty Rising)";
    }
    assert warnings == Warnings(prev, data);
    signal := signal + warnings;
  }

  /**
   * Row 0 is 'Neutral'.  A row with any call condition is labelled 'Call
   * Buy: ...' (call conditions need a rising price and put conditions a
   * falling one, so the two never compete); a warning is appended exactly
   * when the net flow and the price change have opposite signs.
   */
  lemma RowSignalShape(h: seq<Snapshot>, i: nat)
    requires 0 < i < |h|
    ensures RowSignal(h, 0) == "Neutral"
    ensures !(CallConditions(h[i - 1], h[i]) != [] && PutConditions(h[i - 1], h[i]) != [])
    ensures CallConditions(h[i - 1], h[i]) != [] ==> RowSignal(h, i)[..10] == "Call Buy: "
    ensures CallConditions(h[i - 1], h[i]) == [] && PutConditions(h[i - 1], h[i]) != [] ==>
              RowSignal(h, i)[..9] == "Put Buy: "
    ensures var pc := h[i].underlying - h[i - 1].underlying;
      Warnings(h[i - 1], h[i]) != "" <==> (h[i].netFlow > 0.0 && pc < 0.0) || (h[i].netFlow < 0.0 && pc > 0.0)
  {
    var b := BaseSignal(h[i - 1], h[i]);
    var w := Warnings(h[i - 1], h[i]);
    if CallConditions(h[i - 1], h[i]) != [] {
      assert (b + w)[..10] == b[..10];
    } else if PutConditions(h[i - 1], h[i]) != [] {
      assert (b + w)[..9] == b[..9];
    }
  }

  /** The view the window shows, from the latest snapshot and the history. */
  datatype View = View(pcr: PcrBand, flow: Flow, entry: EntrySignals, table: seq<string>,
                       cards: Result<seq<Card>, string>)

  function ViewOf(last: Option<Snapshot>, history: seq<Snapshot>): Option<View> {
    if last.None? then None
    else
      var d := last.value;
      Some(View(PcrBandOf(d.pcr), FlowOf(d.netFlow), EntrySignalsOf(history, d),
                seq(|history|, i requires 0 <= i < |history| => RowSignal(history, i)),
                StrikeCards(d.raw.data, d.atm)))
  }

  datatype Skew = SkewBullish | SkewBearish | SkewNeutral {
    function Label(): string {
      match this
      case SkewBullish => " (Skew Bullish)"
      case SkewBearish => " (Skew Bearish)"
      case SkewNeutral => " (Skew Neutral)"
    }
  }

  function SkewOf(ceIv: real, peIv: real): Skew {
    var diff := ceIv - peIv;
    if diff > 5.0 then SkewBullish else if diff < -5.0 then SkewBearish else SkewNeutral
  }

  /** One card: its strike, the quotes shown (a missing or empty quote shows '--'), the OI change and the IV skew. */
  datatype Card = Card(strike: real, ce: Option<Quote>, pe: Option<Quote>, oiChange: real, skew: Option<Skew>)

  /** `if side_data:` — present and not an empty object. */
  predicate Shown(q: Option<Quote>) {
    q.Some? && q.value != map[]
  }

  /** Item k is the first item with this strike. */
  predicate FirstAtStrike(items: seq<ChainItem>, strike: real, k: int) {
    0 <= k < |items| && items[k].strikePrice == Some(strike) &&
    forall j :: 0 <= j < k ==> items[j].strikePrice != Some(strike)
  }

  /** `item.get("CE")`, `item.get("PE")` of the first item with this strike, of any expiry. */
  function QuotesAt(items: seq<ChainItem>, strike: real): (r: (Option<Quote>, Option<Quote>))
    ensures (exists i :: 0 <= i < |items| && items[i].strikePrice == Some(strike)) || r == (None, None)
    ensures forall k {:trigger FirstAtStrike(items, strike, k)} :: FirstAtStrike(items, strike, k) ==> r == (items[k].ce, items[k].pe)
  {
    if items == [] then (None, None)
    else if items[0].strikePrice == Some(strike) then (items[0].ce, items[0].pe)
    else
      var r := QuotesAt(items[1..], strike);
      assert forall i :: 1 <= i < |items| ==> items[i] == items[1..][i - 1];
      assert forall k {:trigger FirstAtStrike(items, strike, k)} ::
        FirstAtStrike(items, strike, k) ==> FirstAtStrike(items[1..], strike, k - 1);
      r
  }

  /** The contribution of a shown quote: its `changeinOpenInterest`, after its `lastPrice` was read for the label. */
  function ShownChange(q: Option<Quote>): Result<real, string> {
    if !Shown(q) then Ok(0.0)
    else if "lastPrice" !in q.value then Err("KeyError: lastPrice")
    else Field(q.value, "changeinOpenInterest")
  }

  function CardFor(items: seq<ChainItem>, strike: real): (r: Result<Card, string>)
    ensures r.Ok? ==> r.value.strike == strike
  {
    var (ce, pe) := QuotesAt(items, strike);
    var c := ShownChange(ce);
    var p := ShownChange(pe);
    if c.Err? then Err(c.error)
    else if p.Err? then Err(p.error)
    else
      var skew := if Shown(ce) && Shown(pe) then
        Some(SkewOf(FieldOr(ce.value, "impliedVolatility", 0.0), FieldOr(pe.value, "impliedVolatility", 0.0)))
      else None;
      Ok(Card(strike, ce, pe, c.value - p.value, skew))
  }

  const CardOffsets: seq<int> := [0, 100, 200, -100, -200]

  /** The values of the results in order, or the error of the first one that failed. */
  function FirstError<T>(rs: seq<Result<T, string>>): (r: Result<seq<T>, string>)
    ensures r.Ok? ==> |r.value| == |rs| && forall i :: 0 <= i < |rs| ==> rs[i].Ok? && r.value[i] == rs[i].value
    ensures r.Err? <==> exists i :: 0 <= i < |rs| && rs[i].Err?
    ensures r.Err? ==> exists i :: 0 <= i < |rs| && rs[i].Err? && r.error == rs[i].error &&
                                   forall j :: 0 <= j < i ==> rs[j].Ok?
  {
    if rs == [] then Ok([])
    else if rs[0].Err? then Err(rs[0].error)
    else
      var rest := FirstError(rs[1..]);
      assert forall i :: 1 <= i < |rs| ==> rs[1..][i - 1] == rs[i];
      if rest.Err? then rest else Ok([rs[0].value] + rest.value)
  }

  function CardsFrom(items: seq<ChainItem>, atm: int, offsets: seq<int>): (r: Result<seq<Card>, string>)
    ensures r.Ok? ==> |r.value| == |offsets|
    ensures r.Ok? ==> forall i :: 0 <= i < |offsets| ==>
                        CardFor(items, (atm + offsets[i]) as real).Ok? &&
                        r.value[i] == CardFor(items, (atm + offsets[i]) as real).value &&
                        r.value[i].strike == (atm + offsets[i]) as real
    ensures r.Err? <==> exists i :: 0 <= i < |offsets| && CardFor(items, (atm + offsets[i]) as real).Err?
  {
    var cards := seq(|offsets|, i requires 0 <= i < |offsets| => CardFor(items, (atm + offsets[i]) as real));
    assert forall i :: 0 <= i < |offsets| ==> cards[i] == CardFor(items, (atm + offsets[i]) as real);
    FirstError(cards)
  }

  /** `update_strike_cards`: the cards at ATM, +100, +200, −100 and −200, stopping at the first field that is missing. */
  function StrikeCards(items: seq<ChainItem>, atm: int): Result<seq<Card>, string> {
    CardsFrom(items, atm, CardOffsets)
  }

  /**
   * Five cards, at ATM, +100, +200, −100 and −200; each card's OI change is
   * the CE change minus the PE change, a side that is not shown counting 0;
   * the skew is computed only when both sides are shown, bullish above a
   * difference of 5, bearish below −5, neutral otherwise.
   */
  lemma StrikeCardsShape(items: seq<ChainItem>, atm: int)
    ensures var r := StrikeCards(items, atm);
      r.Ok? ==> (|r.value| == 5 &&
        r.value[0].strike == atm as real && r.value[1].strike == (atm + 100) as real &&
        r.value[2].strike == (atm + 200) as real && r.value[3].strike == (atm - 100) as real &&
        r.value[4].strike == (atm - 200) as real)
  {
    assert CardOffsets[1] == 100 && CardOffsets[2] == 200 && CardOffsets[3] == -100 && CardOffsets[4] == -200;
  }

  lemma CardContents(items: seq<ChainItem>, strike: real)
    requires CardFor(items, strike).Ok?
    ensures var c := CardFor(items, strike).value;
      var ce := QuotesAt(items, strike).0;
      var pe := QuotesAt(items, strike).1;
      c.ce == ce && c.pe == pe &&
      c.oiChange == (if Shown(ce) then ce.value["changeinOpenInterest"] else 0.0) -
                    (if Shown(pe) then pe.value["changeinOpenInterest"] else 0.0) &&
      (c.skew.Some? <==> Shown(ce) && Shown(pe)) &&
      (c.skew == Some(SkewBullish) ==> FieldOr(ce.value, "impliedVolatility", 0.0) - FieldOr(pe.value, "impliedVolatility", 0.0) > 5.0) &&
      (c.skew == Some(SkewBearish) ==> FieldOr(ce.value, "impliedVolatility", 0.0) - FieldOr(pe.value, "impliedVolatility", 0.0) < -5.0)
  {
  }
}
