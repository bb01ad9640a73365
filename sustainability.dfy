/**
 * The signal-sustainability predicate of the collector: among the stored
 * signal-comparison records of one strike and side up to the current time,
 * the five latest must all carry the same value in the column read.
 *
 * `date_time` is stored as `YYYY-MM-DD HH:MM:SS` text, whose string order
 * is its time order; it is modelled as a number of seconds.
 */
module Sustainability {

  import opened Sorting
  import opened Sequences

  /** One `signal_comparison` row, fields in column order (the `id` first). */
  datatype SignalRecord = SignalRecord(
    id: int, dateTime: int, strike: real, optionType: string,
    ltp: real, oi: real, volume: real,
    ma5: real, ma15: real, ma30: real, volMa5: real, volMa15: real,
    signalType: string, signalStrength: int, createdAt: string)

  /** A column value of a fetched row. */
  datatype SqlValue = SqlInt(i: int) | SqlReal(r: real) | SqlText(s: string) | NoColumn

  /** `record[k]` of a row fetched with `SELECT *`. */
  function Column(r: SignalRecord, k: int): (v: SqlValue)
    ensures 0 <= k < 15 <==> v != NoColumn
  {
    if k == 0 then SqlInt(r.id)
    else if k == 1 then SqlInt(r.dateTime)
    else if k == 2 then SqlReal(r.strike)
    else if k == 3 then SqlText(r.optionType)
    else if k == 4 then SqlReal(r.ltp)
    else if k == 5 then SqlReal(r.oi)
    else if k == 6 then SqlReal(r.volume)
    else if k == 7 then SqlReal(r.ma5)
    else if k == 8 then SqlReal(r.ma15)
    else if k == 9 then SqlReal(r.ma30)
    else if k == 10 then SqlReal(r.volMa5)
    else if k == 11 then SqlReal(r.volMa15)
    else if k == 12 then SqlText(r.signalType)
    else if k == 13 then SqlInt(r.signalStrength)
    else if k == 14 then SqlText(r.createdAt)
    else NoColumn
  }

  /** Column 11 is `vol_ma_15min`; the signal type is column 12. */
  lemma ColumnEleven(r: SignalRecord)
    ensures Column(r, 11) == SqlReal(r.volMa15)
    ensures Column(r, 12) == SqlText(r.signalType)
  {
  }

  predicate Matches(r: SignalRecord, strike: real, optionType: string, now: int) {
    r.strike == strike && r.optionType == optionType && r.dateTime <= now
  }

  /** `WHERE strike_price = ? AND option_type = ? AND date_time <= ?`, in table order. */
  function MatchingRecords(table: seq<SignalRecord>, strike: real, optionType: string, now: int): seq<SignalRecord> {
    Filter(table, (x: SignalRecord) => Matches(x, strike, optionType, now))
  }

  /** The sort key of `ORDER BY date_time`. */
  function Stamp(x: SignalRecord): real {
    x.dateTime as real
  }

  /** `ORDER BY date_time DESC LIMIT 5` over the matching records: the latest first. */
  function LatestFive(table: seq<SignalRecord>, strike: real, optionType: string, now: int): (r: seq<SignalRecord>)
    ensures |r| <= 5
    ensures forall i, j :: 0 <= i < j < |r| ==> r[i].dateTime >= r[j].dateTime
  {
    var sorted := SortDesc(MatchingRecords(table, strike, optionType, now), Stamp);
    var r := Take(sorted, 5);
    assert forall i, j :: 0 <= i < j < |r| ==> Stamp(sorted[i]) >= Stamp(sorted[j]);
    r
  }

  /** Fewer than five records is not sustained; otherwise every record must agree with the first on column k. */
  predicate SustainedOn(table: seq<SignalRecord>, strike: real, optionType: string, now: int, k: int) {
    var recs := LatestFive(table, strike, optionType, now);
    |recs| >= 5 && forall i :: 0 <= i < |recs| ==> Column(recs[i], k) == Column(recs[0], k)
  }

  /** As written: the comparison reads `record[11]`, which is `vol_ma_15min`. */
  predicate SustainedAsWritten(table: seq<SignalRecord>, strike: real, optionType: string, now: int) {
    SustainedOn(table, strike, optionType, now, 11)
  }

  /** The check the code describes: the five latest records share their signal type. */
  predicate Sustained(table: seq<SignalRecord>, strike: real, optionType: string, now: int) {
    SustainedOn(table, strike, optionType, now, 12)
  }

  /** The five latest are matching records; they are all of them when at most five match. */
  lemma LatestFiveMembers(table: seq<SignalRecord>, strike: real, optionType: string, now: int)
    ensures var m := MatchingRecords(table, strike, optionType, now);
      var recs := LatestFive(table, strike, optionType, now);
      |recs| == (if |m| < 5 then |m| else 5) &&
      (forall x :: x in recs ==> x in m) &&
      (|m| <= 5 ==> forall x :: x in m ==> x in recs)
  {
    TopNSelection(MatchingRecords(table, strike, optionType, now), Stamp, 5);
  }

  /** No matching record left out of the five is later than any record fetched. */
  lemma LatestFiveAreLatest(table: seq<SignalRecord>, strike: real, optionType: string, now: int, x: SignalRecord, y: SignalRecord)
    requires x in LatestFive(table, strike, optionType, now)
    requires y in MatchingRecords(table, strike, optionType, now) && y !in LatestFive(table, strike, optionType, now)
    ensures y.dateTime <= x.dateTime
  {
    TopNDominates(MatchingRecords(table, strike, optionType, now), Stamp, 5, x, y);
  }

  /** With exactly five matching records the check asks that all of them agree on column k. */
  lemma SustainedOnFive(table: seq<SignalRecord>, strike: real, optionType: string, now: int, k: int)
    requires |MatchingRecords(table, strike, optionType, now)| == 5
    ensures var m := MatchingRecords(table, strike, optionType, now);
      SustainedOn(table, strike, optionType, now, k) <==>
      forall i, j :: 0 <= i < |m| && 0 <= j < |m| ==> Column(m[i], k) == Column(m[j], k)
  {
    var m := MatchingRecords(table, strike, optionType, now);
    var recs := LatestFive(table, strike, optionType, now);
    LatestFiveMembers(table, strike, optionType, now);
    if SustainedOn(table, strike, optionType, now, k) {
      forall i, j | 0 <= i < |m| && 0 <= j < |m| ensures Column(m[i], k) == Column(m[j], k) {
        assert m[i] in recs && m[j] in recs;
      }
    } else if forall i, j :: 0 <= i < |m| && 0 <= j < |m| ==> Column(m[i], k) == Column(m[j], k) {
      forall i | 0 <= i < |recs| ensures Column(recs[i], k) == Column(recs[0], k) {
        assert recs[i] in m && recs[0] in m;
      }
      assert false;
    }
  }

  /**
   * Five matching records that share their signal but not their
   * `vol_ma_15min` pass the check on the signal column and fail it as
   * written.
   */
  lemma SustainedAsWrittenReadsWrongColumn(table: seq<SignalRecord>, strike: real, optionType: string, now: int, a: nat, b: nat)
    requires var m := MatchingRecords(table, strike, optionType, now);
      |m| == 5 && a < 5 && b < 5 && m[a].volMa15 != m[b].volMa15 &&
      forall i :: 0 <= i < 5 ==> m[i].signalType == m[0].signalType
    ensures Sustained(table, strike, optionType, now)
    ensures !SustainedAsWritten(table, strike, optionType, now)
  {
    var m := MatchingRecords(table, strike, optionType, now);
    SustainedOnFive(table, strike, optionType, now, 11);
    SustainedOnFive(table, strike, optionType, now, 12);
    ColumnEleven(m[a]);
    ColumnEleven(m[b]);
    assert Column(m[a], 11) != Column(m[b], 11);
    forall i, j | 0 <= i < |m| && 0 <= j < |m| ensures Column(m[i], 12) == Column(m[j], 12) {
      ColumnEleven(m[i]);
      ColumnEleven(m[j]);
      assert m[i].signalType == m[0].signalType && m[j].signalType == m[0].signalType;
    }
  }

  lemma {:induction false} FilterSkipsLast<T>(s: seq<T>, x: T, p: T -> bool)
    requires !p(x)
    ensures Filter(s + [x], p) == Filter(s, p)
  {
    if s != [] {
      assert (s + [x])[1..] == s[1..] + [x];
      FilterSkipsLast(s[1..], x, p);
    } else {
      assert [x][1..] == [];
    }
  }

  /** A record stored later than the current time, or for another strike or side, does not change the outcome. */
  lemma IrrelevantRecord(table: seq<SignalRecord>, r: SignalRecord, strike: real, optionType: string, now: int)
    requires r.dateTime > now || r.strike != strike || r.optionType != optionType
    ensures LatestFive(table + [r], strike, optionType, now) == LatestFive(table, strike, optionType, now)
    ensures Sustained(table + [r], strike, optionType, now) == Sustained(table, strike, optionType, now)
  {
    FilterSkipsLast(table, r, (x: SignalRecord) => Matches(x, strike, optionType, now));
  }

  /**
   * The check holds exactly when there are at least five matching records
   * and the five latest agree; when every matching record has the same
   * signal, it holds exactly when at least five match.
   */
  lemma SustainedCount(table: seq<SignalRecord>, strike: real, optionType: string, now: int, signal: string)
    ensures var m := MatchingRecords(table, strike, optionType, now);
      (Sustained(table, strike, optionType, now) ==> |m| >= 5) &&
      ((forall i :: 0 <= i < |m| ==> m[i].signalType == signal) ==>
        (Sustained(table, strike, optionType, now) <==> |m| >= 5))
  {
    var m := MatchingRecords(table, strike, optionType, now);
    var recs := LatestFive(table, strike, optionType, now);
    LatestFiveMembers(table, strike, optionType, now);
    if (forall i :: 0 <= i < |m| ==> m[i].signalType == signal) && |m| >= 5 {
      forall i | 0 <= i < |recs| ensures Column(recs[i], 12) == SqlText(signal) {
        assert recs[i] in recs;
        var a :| 0 <= a < |m| && m[a] == recs[i];
      }
    }
  }
}
