/**
 * Flattening of the exchange's option-chain payload (`records` -> `data` ->
 * per-strike record with optional `CE` and `PE` quotes) into one stored row
 * per quote of the requested expiry.
 *
 * The payload is a decoded JSON document.  Python's truthiness, `dict.get`
 * with a default and the per-record `try`/`except` that skips a record on
 * any error are written out: every path on which the source raises and
 * catches is a path on which the model skips.
 */
module OptionPayload {

  import opened Wrappers
  import Chain

  /** A decoded JSON value; JSON integers and fractions are both numbers. */
  datatype Json =
    | JNull
    | JBool(b: bool)
    | JNum(n: real)
    | JStr(s: string)
    | JArr(items: seq<Json>)
    | JObj(fields: map<string, Json>)

  /** Python truthiness of the decoded value. */
  predicate Truthy(j: Json) {
    match j
    case JNull => false
    case JBool(b) => b
    case JNum(n) => n != 0.0
    case JStr(s) => s != ""
    case JArr(items) => items != []
    case JObj(fields) => fields != map[]
  }

  /** One stored row: the collection time, the strike, the side and the quote's fields as found. */
  datatype Row = Row(
    time: string,
    strike: Json,
    optionType: string,
    expiry: string,
    openInterest: Json,
    changeInOi: Json,
    volume: Json,
    iv: Json,
    ltp: Json,
    netChange: Json,
    totalBuyQuantity: Json,
    totalSellQuantity: Json,
    bidQty: Json,
    bidPrice: Json,
    askQty: Json,
    askPrice: Json,
    underlying: Json)

  /** The row built from one side's quote; absent integer fields default to 0, absent prices to 0.0. */
  function QuoteRow(now: string, strike: Json, side: string, expiry: string,
                    q: map<string, Json>, underlying: Json): (r: Row)
    ensures r.optionType == side && r.expiry == expiry && r.strike == strike && r.time == now
    ensures r.openInterest == Chain.FieldOr(q, "openInterest", JNum(0.0))
    ensures r.volume == Chain.FieldOr(q, "totalTradedVolume", JNum(0.0))
    ensures r.ltp == Chain.FieldOr(q, "lastPrice", JNum(0.0))
    ensures r.iv == Chain.FieldOr(q, "impliedVolatility", JNum(0.0))
    ensures r.changeInOi == Chain.FieldOr(q, "changeinOpenInterest", JNum(0.0))
    ensures r.netChange == Chain.FieldOr(q, "change", JNum(0.0))
    ensures r.totalBuyQuantity == Chain.FieldOr(q, "totalBuyQuantity", JNum(0.0))
    ensures r.totalSellQuantity == Chain.FieldOr(q, "totalSellQuantity", JNum(0.0))
    ensures r.bidQty == Chain.FieldOr(q, "bidQty", JNum(0.0)) && r.bidPrice == Chain.FieldOr(q, "bidprice", JNum(0.0))
    ensures r.askQty == Chain.FieldOr(q, "askQty", JNum(0.0)) && r.askPrice == Chain.FieldOr(q, "askPrice", JNum(0.0))
    ensures r.underlying == underlying
  {
    Row(now, strike, side, expiry,
        Chain.FieldOr(q, "openInterest", JNum(0.0)),
        Chain.FieldOr(q, "changeinOpenInterest", JNum(0.0)),
        Chain.FieldOr(q, "totalTradedVolume", JNum(0.0)),
        Chain.FieldOr(q, "impliedVolatility", JNum(0.0)),
        Chain.FieldOr(q, "lastPrice", JNum(0.0)),
        Chain.FieldOr(q, "change", JNum(0.0)),
        Chain.FieldOr(q, "totalBuyQuantity", JNum(0.0)),
        Chain.FieldOr(q, "totalSellQuantity", JNum(0.0)),
        Chain.FieldOr(q, "bidQty", JNum(0.0)),
        Chain.FieldOr(q, "bidprice", JNum(0.0)),
        Chain.FieldOr(q, "askQty", JNum(0.0)),
        Chain.FieldOr(q, "askPrice", JNum(0.0)),
        underlying)
  }

  /**
   * The rows one record contributes.  A record that is not an object, lacks
   * `expiryDate`, has another expiry, has neither side, whose strike is read
   * from a side that is not an object, or whose strike is falsy contributes
   * nothing.  When the PE side is truthy but not an object, reading it raises
   * after the CE row was appended, so the CE row alone remains.
   */
  function RecordRows(rec: Json, expiry: string, now: string, underlying: Json): seq<Row> {
    if !rec.JObj? || "expiryDate" !in rec.fields || rec.fields["expiryDate"] != JStr(expiry) then []
    else
      var ce := Chain.FieldOr(rec.fields, "CE", JObj(map[]));
      var pe := Chain.FieldOr(rec.fields, "PE", JObj(map[]));
      var source := if Truthy(ce) then ce else pe;
      if !Truthy(ce) && !Truthy(pe) then []
      else if !source.JObj? then []
      else
        var strike := Chain.FieldOr(source.fields, "strikePrice", JNull);
        if !Truthy(strike) then []
        else
          (if Truthy(ce) then [QuoteRow(now, strike, "CE", expiry, ce.fields, underlying)] else []) +
          (if Truthy(pe) && pe.JObj? then [QuoteRow(now, strike, "PE", expiry, pe.fields, underlying)] else [])
  }

  function FlattenRecords(recs: seq<Json>, expiry: string, now: string, underlying: Json): seq<Row> {
    if recs == [] then []
    else FlattenRecords(recs[..|recs| - 1], expiry, now, underlying) +
         RecordRows(recs[|recs| - 1], expiry, now, underlying)
  }

  /** One more record appends its rows after those of the records before it. */
  lemma FlattenStep(recs: seq<Json>, i: nat, expiry: string, now: string, underlying: Json)
    requires i < |recs|
    ensures FlattenRecords(recs[..i + 1], expiry, now, underlying) ==
      FlattenRecords(recs[..i], expiry, now, underlying) + RecordRows(recs[i], expiry, now, underlying)
  {
    assert recs[..i + 1][..i] == recs[..i] && recs[..i + 1][i] == recs[i];
  }

  /**
   * The records list of a payload, when the payload is a truthy object with
   * `records` an object holding a truthy `data` array; every other shape
   * makes the source return an empty list (directly, or through an error it
   * catches).
   */
  function RecordsOf(raw: Json): (o: Option<seq<Json>>)
    ensures o.Some? ==> o.value != []
  {
    if !raw.JObj? || "records" !in raw.fields then None
    else
      var records := raw.fields["records"];
      if !records.JObj? || "data" !in records.fields then None
      else
        var data := records.fields["data"];
        if !data.JArr? || data.items == [] then None
        else Some(data.items)
  }

  /** `raw_data['records'].get('underlyingValue', 0.0)`. */
  function UnderlyingOf(raw: Json): Json {
    if raw.JObj? && "records" in raw.fields && raw.fields["records"].JObj? then
      Chain.FieldOr(raw.fields["records"].fields, "underlyingValue", JNum(0.0))
    else JNum(0.0)
  }

  function ExtractSpec(raw: Json, expiry: string, now: string): seq<Row> {
    match RecordsOf(raw)
    case None => []
    case Some(recs) => FlattenRecords(recs, expiry, now, UnderlyingOf(raw))
  }

  /**
   * The body of the per-record `try`: each guard that fails skips the
   * record, and the rows are appended CE first.
   */
  method AppendRecordRows(rows: seq<Row>, row: Json, expiry: string, now: string, underlying: Json)
    returns (out: seq<Row>)
    ensures out == rows + RecordRows(row, expiry, now, underlying)
  {
    out := rows;
    if !row.JObj? {
      return;
    }
    if "expiryDate" !in row.fields {
      return;
    }
    if row.fields["expiryDate"] != JStr(expiry) {
      return;
    }
    var ce := Chain.FieldOr(row.fields, "CE", JObj(map[]));
    var pe := Chain.FieldOr(row.fields, "PE", JObj(map[]));
    if !Truthy(ce) && !Truthy(pe) {
      return;
    }
    var source := if Truthy(ce) then ce else pe;
    if !source.JObj? {
      return;
    }
    var strike := Chain.FieldOr(source.fields, "strikePrice", JNull);
    if !Truthy(strike) {
      return;
    }
    if Truthy(ce) {
      out := out + [QuoteRow(now, strike, "CE", expiry, ce.fields, underlying)];
    }
    if Truthy(pe) && pe.JObj? {
      out := out + [QuoteRow(now, strike, "PE", expiry, pe.fields, underlying)];
    }
  }

  /** `extract_option_chain_data`: the loop over the records. */
  method ExtractOptionChainData(raw: Json, expiry: string, now: string) returns (rows: seq<Row>)
    ensures rows == ExtractSpec(raw, expiry, now)
  {
    rows := [];
    var recordsOpt := RecordsOf(raw);
    if recordsOpt.None? {
      return;
    }
    var records := recordsOpt.value;
    var underlying := UnderlyingOf(raw);
    var i := 0;
    while i < |records|
      invariant 0 <= i <= |records|
      invariant rows == FlattenRecords(records[..i], expiry, now, underlying)
    {
      FlattenStep(records, i, expiry, now, underlying);
      rows := AppendRecordRows(rows, records[i], expiry, now, underlying);
      i := i + 1;
    }
    assert records[..|records|] == records;
  }

  /** Each record yields at most two rows; with two, the CE row comes before the PE row. */
  lemma RecordRowsShape(rec: Json, expiry: string, now: string, underlying: Json)
    ensures var rs := RecordRows(rec, expiry, now, underlying);
      |rs| <= 2 &&
      (forall r :: r in rs ==> r.expiry == expiry && (r.optionType == "CE" || r.optionType == "PE") && Truthy(r.strike)) &&
      (|rs| == 2 ==> rs[0].optionType == "CE" && rs[1].optionType == "PE" && rs[0].strike == rs[1].strike)
  {
  }

  /** A record of the wrong expiry, or with neither side, or with a falsy strike yields no row. */
  lemma RecordSkipped(rec: Json, expiry: string, now: string, underlying: Json)
    requires rec.JObj?
    requires var ce := Chain.FieldOr(rec.fields, "CE", JObj(map[]));
      var pe := Chain.FieldOr(rec.fields, "PE", JObj(map[]));
      "expiryDate" !in rec.fields || rec.fields["expiryDate"] != JStr(expiry) ||
      (!Truthy(ce) && !Truthy(pe)) ||
      (Truthy(ce) && ce.JObj? && !Truthy(Chain.FieldOr(ce.fields, "strikePrice", JNull))) ||
      (!Truthy(ce) && pe.JObj? && !Truthy(Chain.FieldOr(pe.fields, "strikePrice", JNull)))
    ensures RecordRows(rec, expiry, now, underlying) == []
  {
  }

  /** A well-formed record of the expiry with both quotes yields its CE row then its PE row, strike taken from CE. */
  lemma RecordWithBothSides(rec: Json, expiry: string, now: string, underlying: Json,
                            ce: map<string, Json>, pe: map<string, Json>)
    requires rec.JObj? && "expiryDate" in rec.fields && rec.fields["expiryDate"] == JStr(expiry)
    requires "CE" in rec.fields && rec.fields["CE"] == JObj(ce) && ce != map[]
    requires "PE" in rec.fields && rec.fields["PE"] == JObj(pe) && pe != map[]
    requires "strikePrice" in ce && Truthy(ce["strikePrice"])
    ensures RecordRows(rec, expiry, now, underlying) ==
      [QuoteRow(now, ce["strikePrice"], "CE", expiry, ce, underlying),
       QuoteRow(now, ce["strikePrice"], "PE", expiry, pe, underlying)]
  {
  }

  lemma {:induction false} FlattenRecordsShape(recs: seq<Json>, expiry: string, now: string, underlying: Json)
    ensures var rs := FlattenRecords(recs, expiry, now, underlying);
      |rs| <= 2 * |recs| &&
      forall r :: r in rs ==> r.expiry == expiry && (r.optionType == "CE" || r.optionType == "PE") && Truthy(r.strike)
  {
    if recs != [] {
      FlattenRecordsShape(recs[..|recs| - 1], expiry, now, underlying);
      RecordRowsShape(recs[|recs| - 1], expiry, now, underlying);
    }
  }

  /**
   * Every extracted row carries the requested expiry, a side of 'CE' or
   * 'PE' and a truthy strike, and no record contributes more than two rows.
   */
  lemma ExtractedRowsWellFormed(raw: Json, expiry: string, now: string)
    ensures var rs := ExtractSpec(raw, expiry, now);
      (RecordsOf(raw).None? ==> rs == []) &&
      (RecordsOf(raw).Some? ==> |rs| <= 2 * |RecordsOf(raw).value|) &&
      forall r :: r in rs ==> r.expiry == expiry && (r.optionType == "CE" || r.optionType == "PE") && Truthy(r.strike)
  {
    if RecordsOf(raw).Some? {
      FlattenRecordsShape(RecordsOf(raw).value, expiry, now, UnderlyingOf(raw));
    }
  }

  /** Payloads that are not an object holding `records.data` as a non-empty array give no rows. */
  lemma MalformedPayloads(expiry: string, now: string, m: map<string, Json>)
    ensures ExtractSpec(JNull, expiry, now) == []
    ensures ExtractSpec(JObj(map[]), expiry, now) == []
    ensures "records" !in m ==> ExtractSpec(JObj(m), expiry, now) == []
    ensures ("records" in m && m["records"].JObj? && "data" in m["records"].fields &&
             !m["records"].fields["data"].JArr?) ==> ExtractSpec(JObj(m), expiry, now) == []
  {
  }
}
