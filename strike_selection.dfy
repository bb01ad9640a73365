/**
 * The strike selection of the option-chain viewer: the ATM strike, the
 * eighteen strikes around it, the records of the nearest expiry at those
 * strikes, the CE and PE rows built from them, the five highest-volume
 * rows of each side, the two leading strikes of each, the row colouring
 * relative to ATM, and the volume trend against a previous reading.
 */
module StrikeSelection {

  import opened Wrappers
  import opened Sorting
  import opened Chain
  import W = WindowEngine
  import SnapshotMetrics

  const StrikeStep: int := 50

  /** The eighteen strikes in ascending order: ATM − 400 up to ATM + 450 in steps of 50. */
  function Grid(atm: int): (g: seq<int>)
    ensures |g| == 18
  {
    seq(18, k requires 0 <= k < 18 => atm - 400 + StrikeStep * k)
  }

  /** The list as the two loops build it, before it is sorted: ATM downwards, then ATM + 50 upwards. */
  function Built(atm: int): seq<int> {
    Down(atm) + Up(atm)
  }

  function Down(atm: int): seq<int> {
    seq(9, i requires 0 <= i < 9 => atm - i * StrikeStep)
  }

  function Up(atm: int): seq<int> {
    seq(9, i requires 0 <= i < 9 => atm + (i + 1) * StrikeStep)
  }

  /** `get_relevant_strikes`: the two loops, then `sorted`. */
  method GetRelevantStrikes(atm: int) returns (strikes: seq<int>)
    ensures strikes == Grid(atm)
  {
    var built: seq<int> := [];
    for i := 0 to 9
      invariant built == seq(i, j requires 0 <= j < i => atm - j * StrikeStep)
    {
      built := built + [atm - i * StrikeStep];
    }
    assert built == Down(atm);
    for i := 1 to 10
      invariant built == Down(atm) + seq(i - 1, j requires 0 <= j < i - 1 => atm + (j + 1) * StrikeStep)
    {
      built := built + [atm + i * StrikeStep];
    }
    assert built == Built(atm);
    strikes := SortAsc(built);
    SortedBuiltIsGrid(atm);
  }

  function Reverse(s: seq<int>): (r: seq<int>)
    ensures |r| == |s|
    ensures forall i :: 0 <= i < |s| ==> r[i] == s[|s| - 1 - i]
  {
    if s == [] then [] else Reverse(s[1..]) + [s[0]]
  }

  lemma {:induction false} ReverseMultiset(s: seq<int>)
    ensures multiset(Reverse(s)) == multiset(s)
  {
    if s != [] {
      ReverseMultiset(s[1..]);
      assert s == [s[0]] + s[1..];
    }
  }

  /** The sorted list is the grid: the grid is ascending and holds the same values as the list built. */
  lemma SortedBuiltIsGrid(atm: int)
    ensures SortAsc(Built(atm)) == Grid(atm)
  {
    var g := Grid(atm);
    assert g[..9] == Reverse(Down(atm));
    assert g[9..] == Up(atm);
    assert g == g[..9] + g[9..];
    ReverseMultiset(Down(atm));
    assert multiset(g) == multiset(Built(atm));
    AscendingPermutationUnique(SortAsc(Built(atm)), g);
  }

  /**
   * Eighteen distinct strikes in strictly ascending order from ATM − 400
   * to ATM + 450, ATM the ninth; a value is among them exactly when it is
   * within that range and a multiple of 50 away from ATM.
   */
  lemma GridProperties(atm: int, x: int)
    ensures var g := Grid(atm);
      g[0] == atm - 400 && g[17] == atm + 450 && g[8] == atm &&
      (forall i, j :: 0 <= i < j < 18 ==> g[i] < g[j]) &&
      (x in g <==> atm - 400 <= x <= atm + 450 && (x - atm) % StrikeStep == 0)
  {
    var g := Grid(atm);
    if atm - 400 <= x <= atm + 450 && (x - atm) % StrikeStep == 0 {
      var k := (x - atm + 400) / StrikeStep;
      assert g[k] == x;
    }
  }

  /** `strikePrice in relevant_strikes`: a float strike equals an integer one of the same value. */
  predicate IsRelevant(strike: real, relevant: seq<int>) {
    exists k :: 0 <= k < |relevant| && relevant[k] as real == strike
  }

  /** A record of the chosen expiry at a relevant strike. */
  predicate Selected(it: ChainItem, expiry: string, relevant: seq<int>) {
    it.expiryDate == Some(expiry) && it.strikePrice.Some? && IsRelevant(it.strikePrice.value, relevant)
  }

  /** A record on which the filter raises: no expiry, or the chosen expiry without a strike. */
  predicate Raises(it: ChainItem, expiry: string) {
    it.expiryDate.None? || (it.expiryDate == Some(expiry) && it.strikePrice.None?)
  }

  /** `strike_data`, as the loop leaves it after the first n records. */
  function StrikeDataSpec(items: seq<ChainItem>, expiry: string, relevant: seq<int>): Result<map<real, ChainItem>, string>
    decreases |items|
  {
    if items == [] then Ok(map[])
    else
      var prev := StrikeDataSpec(items[..|items| - 1], expiry, relevant);
      var it := items[|items| - 1];
      if prev.Err? then prev
      else if it.expiryDate.None? then Err("KeyError: expiryDate")
      else if it.expiryDate.value != expiry then prev
      else if it.strikePrice.None? then Err("KeyError: strikePrice")
      else if IsRelevant(it.strikePrice.value, relevant) then Ok(prev.value[it.strikePrice.value := it])
      else prev
  }

  /** The loop that fills `strike_data`. */
  method BuildStrikeData(items: seq<ChainItem>, expiry: string, relevant: seq<int>)
    returns (r: Result<map<real, ChainItem>, string>)
    ensures r == StrikeDataSpec(items, expiry, relevant)
  {
    var strikeData: map<real, ChainItem> := map[];
    for n := 0 to |items|
      invariant StrikeDataSpec(items[..n], expiry, relevant) == Ok(strikeData)
    {
      var it := items[n];
      assert items[..n + 1][..n] == items[..n];
      if it.expiryDate.None? {
        StrikeDataErrorSticks(items, expiry, relevant, n + 1);
        return Err("KeyError: expiryDate");
      }
      if it.expiryDate.value == expiry {
        if it.strikePrice.None? {
          StrikeDataErrorSticks(items, expiry, relevant, n + 1);
          return Err("KeyError: strikePrice");
        }
        if IsRelevant(it.strikePrice.value, relevant) {
          strikeData := strikeData[it.strikePrice.value := it];
        }
      }
    }
    assert items[..|items|] == items;
    r := Ok(strikeData);
  }

  /** Once a prefix raises, the whole loop does. */
  lemma {:induction false} StrikeDataErrorSticks(items: seq<ChainItem>, expiry: string, relevant: seq<int>, n: nat)
    requires n <= |items|
    requires StrikeDataSpec(items[..n], expiry, relevant).Err?
    ensures StrikeDataSpec(items, expiry, relevant) == StrikeDataSpec(items[..n], expiry, relevant)
    decreases |items| - n
  {
    if n < |items| {
      assert items[..n + 1][..n] == items[..n];
      StrikeDataErrorSticks(items, expiry, relevant, n + 1);
    } else {
      assert items[..n] == items;
    }
  }

  /** The filter raises exactly when some record lacks its expiry, or has the chosen expiry and lacks its strike. */
  lemma {:induction false} StrikeDataRaises(items: seq<ChainItem>, expiry: string, relevant: seq<int>)
    ensures StrikeDataSpec(items, expiry, relevant).Err? <==> exists i :: 0 <= i < |items| && Raises(items[i], expiry)
    decreases |items|
  {
    if items != [] {
      var n := |items| - 1;
      var pre := items[..n];
      StrikeDataRaises(pre, expiry, relevant);
      assert forall i :: 0 <= i < n ==> pre[i] == items[i];
      if StrikeDataSpec(pre, expiry, relevant).Err? {
        var i :| 0 <= i < n && Raises(pre[i], expiry);
        assert Raises(items[i], expiry);
      }
    }
  }

  /** Without an error, the strikes kept are exactly those of the selected records. */
  lemma {:induction false} StrikeDataKeys(items: seq<ChainItem>, expiry: string, relevant: seq<int>)
    ensures var r := StrikeDataSpec(items, expiry, relevant);
      r.Ok? ==> forall k :: k in r.value <==>
        exists i :: 0 <= i < |items| && Selected(items[i], expiry, relevant) && items[i].strikePrice == Some(k)
    decreases |items|
  {
    if items != [] {
      var n := |items| - 1;
      var pre := items[..n];
      StrikeDataKeys(pre, expiry, relevant);
      assert forall i :: 0 <= i < n ==> pre[i] == items[i];
      var r := StrikeDataSpec(items, expiry, relevant);
      var prev := StrikeDataSpec(pre, expiry, relevant);
      var it := items[n];
      if r.Ok? {
        assert prev.Ok?;
        assert forall k :: k in prev.value ==> k in r.value;
        forall k | k in r.value
          ensures exists i :: 0 <= i < |items| && Selected(items[i], expiry, relevant) && items[i].strikePrice == Some(k)
        {
          if !(Selected(it, expiry, relevant) && it.strikePrice == Some(k)) {
            assert k in prev.value;
            assert prev.Ok? ==> forall k' :: k' in prev.value <==>
              exists i :: 0 <= i < |pre| && Selected(pre[i], expiry, relevant) && pre[i].strikePrice == Some(k');
            assert exists i :: 0 <= i < |pre| && Selected(pre[i], expiry, relevant) && pre[i].strikePrice == Some(k);
            var i :| 0 <= i < |pre| && Selected(pre[i], expiry, relevant) && pre[i].strikePrice == Some(k);
            assert items[i] == pre[i];
          }
        }
        forall k, i | 0 <= i < |items| && Selected(items[i], expiry, relevant) && items[i].strikePrice == Some(k)
          ensures k in r.value
        {
          if i < n {
            assert pre[i] == items[i];
          }
        }
      }
    }
  }

  /** Without an error, each strike kept maps to the last selected record at that strike. */
  lemma {:induction false} StrikeDataLatest(items: seq<ChainItem>, expiry: string, relevant: seq<int>)
    ensures var r := StrikeDataSpec(items, expiry, relevant);
      r.Ok? ==> forall k :: k in r.value ==>
        exists i :: 0 <= i < |items| && Selected(items[i], expiry, relevant) && items[i].strikePrice == Some(k) &&
                    r.value[k] == items[i] &&
                    forall j :: i < j < |items| ==> !(Selected(items[j], expiry, relevant) && items[j].strikePrice == Some(k))
    decreases |items|
  {
    if items != [] {
      var n := |items| - 1;
      var pre := items[..n];
      StrikeDataLatest(pre, expiry, relevant);
      assert forall i :: 0 <= i < n ==> pre[i] == items[i];
      var r := StrikeDataSpec(items, expiry, relevant);
      var prev := StrikeDataSpec(pre, expiry, relevant);
      var it := items[n];
      if r.Ok? {
        assert prev.Ok?;
        forall k | k in r.value
          ensures exists i :: 0 <= i < |items| && Selected(items[i], expiry, relevant) && items[i].strikePrice == Some(k) &&
                    r.value[k] == items[i] &&
                    forall j :: i < j < |items| ==> !(Selected(items[j], expiry, relevant) && items[j].strikePrice == Some(k))
        {
          if Selected(it, expiry, relevant) && it.strikePrice == Some(k) {
            assert r.value[k] == items[n];
          } else {
            assert k in prev.value && r.value[k] == prev.value[k];
            var i :| 0 <= i < n && Selected(pre[i], expiry, relevant) && pre[i].strikePrice == Some(k) &&
                    prev.value[k] == pre[i] &&
                    forall j :: i < j < n ==> !(Selected(pre[j], expiry, relevant) && pre[j].strikePrice == Some(k));
            assert items[i] == pre[i];
          }
        }
      }
    }
  }

  /**
   * The filter raises exactly when some record lacks its expiry, or has the
   * chosen expiry and lacks its strike.  Otherwise it maps each strike of a
   * selected record to the LAST selected record at that strike, and holds
   * nothing else.
   */
  lemma StrikeDataLastWins(items: seq<ChainItem>, expiry: string, relevant: seq<int>)
    ensures var r := StrikeDataSpec(items, expiry, relevant);
      (r.Err? <==> exists i :: 0 <= i < |items| && Raises(items[i], expiry)) &&
      (r.Ok? ==> forall k :: k in r.value <==> exists i :: 0 <= i < |items| && Selected(items[i], expiry, relevant) && items[i].strikePrice == Some(k)) &&
      (r.Ok? ==> forall k :: k in r.value ==>
        exists i :: 0 <= i < |items| && Selected(items[i], expiry, relevant) && items[i].strikePrice == Some(k) &&
                    r.value[k] == items[i] &&
                    forall j :: i < j < |items| ==> !(Selected(items[j], expiry, relevant) && items[j].strikePrice == Some(k)))
  {
    StrikeDataRaises(items, expiry, relevant);
    StrikeDataKeys(items, expiry, relevant);
    StrikeDataLatest(items, expiry, relevant);
  }

  /** One row of `ce_data_list` or `pe_data_list`: strike, volume, OI, OI change, last price, change. */
  datatype VolumeRow = VolumeRow(strike: int, volume: real, oi: real, changeInOi: real, ltp: real, change: real)

  /** The row of a side that is present; its absent fields read as 0. */
  function MakeRow(strike: int, q: Quote): VolumeRow {
    VolumeRow(strike, FieldOr(q, "totalTradedVolume", 0.0), FieldOr(q, "openInterest", 0.0),
              FieldOr(q, "changeinOpenInterest", 0.0), FieldOr(q, "lastPrice", 0.0), FieldOr(q, "change", 0.0))
  }

  /** The side's quote of the record kept for a strike, if there is one and it has that side. */
  function QuoteAt(strikeData: map<real, ChainItem>, strike: int, side: W.Side): Option<Quote> {
    var key := strike as real;
    if key in strikeData then SnapshotMetrics.SideQuote(strikeData[key], side) else None
  }

  /** The rows of one side, in strike order, after the first n strikes. */
  function SideRows(relevant: seq<int>, strikeData: map<real, ChainItem>, side: W.Side): (rows: seq<VolumeRow>)
    ensures |rows| <= |relevant|
    decreases |relevant|
  {
    if relevant == [] then []
    else
      var n := |relevant| - 1;
      var q := QuoteAt(strikeData, relevant[n], side);
      SideRows(relevant[..n], strikeData, side) + (if q.Some? then [MakeRow(relevant[n], q.value)] else [])
  }

  /** The loop over the relevant strikes that builds both lists. */
  method CollectRows(relevant: seq<int>, strikeData: map<real, ChainItem>) returns (ce: seq<VolumeRow>, pe: seq<VolumeRow>)
    ensures ce == SideRows(relevant, strikeData, W.CE)
    ensures pe == SideRows(relevant, strikeData, W.PE)
  {
    ce := [];
    pe := [];
    for n := 0 to |relevant|
      invariant ce == SideRows(relevant[..n], strikeData, W.CE)
      invariant pe == SideRows(relevant[..n], strikeData, W.PE)
    {
      var strike := relevant[n];
      assert relevant[..n + 1][..n] == relevant[..n];
      var key := strike as real;
      if key in strikeData {
        var item := strikeData[key];
        if item.ce.Some? {
          ce := ce + [MakeRow(strike, item.ce.value)];
        }
        if item.pe.Some? {
          pe := pe + [MakeRow(strike, item.pe.value)];
        }
      }
    }
    assert relevant[..|relevant|] == relevant;
  }

  /**
   * A side's rows are only rows at relevant strikes whose kept record has
   * that side, each built from that quote, and every such strike has a row.
   */
  lemma {:induction false} SideRowsContents(relevant: seq<int>, strikeData: map<real, ChainItem>, side: W.Side)
    ensures var rows := SideRows(relevant, strikeData, side);
      (forall r :: r in rows ==> r.strike in relevant && QuoteAt(strikeData, r.strike, side).Some? &&
                                 r == MakeRow(r.strike, QuoteAt(strikeData, r.strike, side).value)) &&
      (forall s :: s in relevant && QuoteAt(strikeData, s, side).Some? ==> exists r :: r in rows && r.strike == s)
    decreases |relevant|
  {
    if relevant != [] {
      var n := |relevant| - 1;
      SideRowsContents(relevant[..n], strikeData, side);
      assert relevant == relevant[..n] + [relevant[n]];
    }
  }

  /** In ascending strike order when the strikes are ascending. */
  lemma {:induction false} SideRowsAscending(relevant: seq<int>, strikeData: map<real, ChainItem>, side: W.Side)
    requires forall i, j :: 0 <= i < j < |relevant| ==> relevant[i] < relevant[j]
    ensures var rows := SideRows(relevant, strikeData, side);
      forall i, j :: 0 <= i < j < |rows| ==> rows[i].strike < rows[j].strike
    decreases |relevant|
  {
    if relevant != [] {
      var n := |relevant| - 1;
      SideRowsAscending(relevant[..n], strikeData, side);
      SideRowsContents(relevant[..n], strikeData, side);
      var rows := SideRows(relevant, strikeData, side);
      var pre := SideRows(relevant[..n], strikeData, side);
      forall r | r in pre ensures r.strike < relevant[n] {
        var k :| 0 <= k < n && relevant[..n][k] == r.strike;
      }
      forall i, j | 0 <= i < j < |rows| ensures rows[i].strike < rows[j].strike {
        if j >= |pre| {
          assert rows[i] in pre;
        }
      }
    }
  }

  function RowVolume(r: VolumeRow): real { r.volume }

  /** `list.sort(key=volume, reverse=True)` then `[:5]`. */
  function TopFive(rows: seq<VolumeRow>): (top: seq<VolumeRow>)
    ensures |top| == if |rows| < 5 then |rows| else 5
  {
    Take(SortDesc(rows, RowVolume), 5)
  }

  /**
   * At most five rows, taken from the list, by descending volume; every
   * row kept has at least the volume of every row dropped; with five rows
   * or fewer all are kept.
   */
  lemma TopFiveProperties(rows: seq<VolumeRow>, x: VolumeRow, y: VolumeRow)
    ensures var top := TopFive(rows);
      (forall i, j :: 0 <= i < j < |top| ==> top[i].volume >= top[j].volume) &&
      (forall r :: r in top ==> r in rows) &&
      (|rows| <= 5 ==> forall r :: r in rows ==> r in top) &&
      (x in top && y in rows && y !in top ==> x.volume >= y.volume)
  {
    var s := SortDesc(rows, RowVolume);
    var top := TopFive(rows);
    assert forall k :: 0 <= k < |top| ==> top[k] == s[k];
    TopNSelection(rows, RowVolume, 5);
    if x in top && y in rows && y !in top {
      TopNDominates(rows, RowVolume, 5, x, y);
    }
  }

  /** The first and second strikes of each top list, read by index. */
  datatype Leaders = Leaders(ce1: int, ce2: int, pe1: int, pe2: int)

  function LeadersOf(topCe: seq<VolumeRow>, topPe: seq<VolumeRow>): (r: Result<Leaders, string>)
    ensures r.Ok? <==> |topCe| >= 2 && |topPe| >= 2
    ensures r.Ok? ==> r.value == Leaders(topCe[0].strike, topCe[1].strike, topPe[0].strike, topPe[1].strike)
  {
    if |topCe| < 2 || |topPe| < 2 then Err("IndexError: list index out of range")
    else Ok(Leaders(topCe[0].strike, topCe[1].strike, topPe[0].strike, topPe[1].strike))
  }

  /** The rows of the two trees are coloured by their strike against ATM. */
  datatype Placement = AtAtm | AboveAtm | BelowAtm {
    function Tag(): string {
      match this
      case AtAtm => "atm"
      case AboveAtm => "above_atm"
      case BelowAtm => "below_atm"
    }
  }

  function PlacementOf(strike: int, atm: int): (p: Placement)
    ensures p == AtAtm <==> strike == atm
    ensures p == AboveAtm <==> strike > atm
    ensures p == BelowAtm <==> strike < atm
  {
    if strike == atm then AtAtm else if strike > atm then AboveAtm else BelowAtm
  }

  /** Over the grid: the first eight strikes are below ATM, the ninth is ATM, the last nine above. */
  lemma GridPlacement(atm: int, k: nat)
    requires k < 18
    ensures PlacementOf(Grid(atm)[k], atm) == if k < 8 then BelowAtm else if k == 8 then AtAtm else AboveAtm
  {
  }

  /** What the viewer shows after one fetch. */
  datatype Display = Display(price: real, atm: int, relevant: seq<int>, expiry: string,
                             ceRows: seq<VolumeRow>, peRows: seq<VolumeRow>,
                             topCe: seq<VolumeRow>, topPe: seq<VolumeRow>, leaders: Leaders)

  /** `process_and_display_data` on the decoded body; `None` is a body that is not JSON. */
  function DisplaySpec(doc: Option<Payload>): Result<Display, string> {
    if doc.None? then Err("JSONDecodeError")
    else if doc.value.records.None? then Err("KeyError: records")
    else
      var recs := doc.value.records.value;
      if recs.underlyingValue.None? then Err("KeyError: underlyingValue")
      else
        var price := recs.underlyingValue.value;
        var atm := AtmStrike(price);
        var relevant := Grid(atm);
        if recs.expiryDates == [] then Err("IndexError: list index out of range")
        else
          var expiry := recs.expiryDates[0];
          var sd := StrikeDataSpec(recs.data, expiry, relevant);
          if sd.Err? then Err(sd.error)
          else
            var ce := SideRows(relevant, sd.value, W.CE);
            var pe := SideRows(relevant, sd.value, W.PE);
            var leaders := LeadersOf(TopFive(ce), TopFive(pe));
            if leaders.Err? then Err(leaders.error)
            else Ok(Display(price, atm, relevant, expiry, ce, pe, TopFive(ce), TopFive(pe), leaders.value))
  }

  method ProcessAndDisplayData(doc: Option<Payload>) returns (r: Result<Display, string>)
    ensures r == DisplaySpec(doc)
  {
    if doc.None? {
      return Err("JSONDecodeError");
    }
    if doc.value.records.None? {
      return Err("KeyError: records");
    }
    var recs := doc.value.records.value;
    if recs.underlyingValue.None? {
      return Err("KeyError: underlyingValue");
    }
    var price := recs.underlyingValue.value;
    var atm := AtmStrike(price);
    var relevant := GetRelevantStrikes(atm);
    if recs.expiryDates == [] {
      return Err("IndexError: list index out of range");
    }
    var expiry := recs.expiryDates[0];
    var sd := BuildStrikeData(recs.data, expiry, relevant);
    if sd.Err? {
      return Err(sd.error);
    }
    var ce, pe := CollectRows(relevant, sd.value);
    var topCe := TopFive(ce);
    var topPe := TopFive(pe);
    var leaders := LeadersOf(topCe, topPe);
    if leaders.Err? {
      return Err(leaders.error);
    }
    r := Ok(Display(price, atm, relevant, expiry, ce, pe, topCe, topPe, leaders.value));
  }

  /**
   * A shown display has the grid around the ATM strike of the price, at
   * most five top rows per side, and leaders that are the top two strikes
   * of each side; it fails when fewer than two strikes of a side are found.
   */
  lemma DisplayProperties(doc: Option<Payload>)
    ensures var r := DisplaySpec(doc);
      r.Ok? ==> (r.value.relevant == Grid(r.value.atm) && r.value.atm % 50 == 0 &&
                 |r.value.topCe| <= 5 && |r.value.topPe| <= 5 &&
                 r.value.topCe == TopFive(r.value.ceRows) && r.value.topPe == TopFive(r.value.peRows) &&
                 |r.value.ceRows| >= 2 && |r.value.peRows| >= 2 &&
                 r.value.leaders.ce1 == r.value.topCe[0].strike && r.value.leaders.pe2 == r.value.topPe[1].strike)
  {
  }

  datatype Trend = NotAvailable | Increasing | Decreasing | Stable {
    function Label(): string {
      match this
      case NotAvailable => "N/A"
      case Increasing => "Increasing"
      case Decreasing => "Decreasing"
      case Stable => "Stable"
    }
  }

  /**
   * `calculate_trend`: the previous readings map strikes to stored volumes,
   * `None` for a stored NULL; `.get` gives `None` for an absent strike too.
   */
  function TrendOf(strike: real, current: real, prev: map<real, Option<real>>): (t: Trend)
    ensures t == NotAvailable <==> strike !in prev || prev[strike].None?
    ensures t == Increasing <==> strike in prev && prev[strike].Some? && current > prev[strike].value
    ensures t == Decreasing <==> strike in prev && prev[strike].Some? && current < prev[strike].value
    ensures t == Stable <==> strike in prev && prev[strike] == Some(current)
  {
    var p := if strike in prev then prev[strike] else None;
    if p.None? then NotAvailable
    else if current > p.value then Increasing
    else if current < p.value then Decreasing
    else Stable
  }
}
