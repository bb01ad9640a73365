/**
 * The decoded option-chain payload as the snapshot, monitor and strike code
 * reads it, and the ATM strike every one of them derives from it.
 *
 * A quote is the JSON object of one side (`CE` or `PE`) of a record; a
 * field read with `[...]` that is absent raises `KeyError`, one read with
 * `.get(k, d)` defaults to d.  Record fields the code reads with `[...]`
 * are `Option`s here, `None` when absent.
 */
module Chain {

  import opened Wrappers

  type Quote = map<string, real>

  /** `q[k]`: absent keys raise. */
  function Field(q: Quote, k: string): (r: Result<real, string>)
    ensures r.Ok? <==> k in q
    ensures r.Ok? ==> r.value == q[k]
  {
    if k in q then Ok(q[k]) else Err("KeyError: " + k)
  }

  /** `q.get(k, d)` on a dictionary with string keys. */
  function FieldOr<V>(q: map<string, V>, k: string, d: V): (r: V)
    ensures k in q ==> r == q[k]
    ensures k !in q ==> r == d
  {
    if k in q then q[k] else d
  }

  /** One element of `records.data`. */
  datatype ChainItem = ChainItem(expiryDate: Option<string>, strikePrice: Option<real>,
                                 ce: Option<Quote>, pe: Option<Quote>)

  datatype Records = Records(underlyingValue: Option<real>, expiryDates: seq<string>, data: seq<ChainItem>)

  /** The decoded document: its `records` object, if present. */
  datatype Payload = Payload(records: Option<Records>)

  /** Python's `round` to an integer: to the nearest, halves to the even neighbour. */
  function RoundHalfEven(x: real): (n: int)
    ensures -(1.0 / 2.0) <= x - (n as real) <= 1.0 / 2.0
    ensures x - (n as real) == 1.0 / 2.0 || (n as real) - x == 1.0 / 2.0 ==> n % 2 == 0
  {
    var f := x.Floor;
    var d := x - (f as real);
    if d < 0.5 then f
    else if d > 0.5 then f + 1
    else if f % 2 == 0 then f
    else f + 1
  }

  /** `round(current_price / 50) * 50`. */
  function AtmStrike(price: real): (atm: int)
    ensures atm % 50 == 0
  {
    RoundHalfEven(price / 50.0) * 50
  }

  /**
   * The ATM strike is a multiple of 50 no farther from the price than any
   * other multiple of 50, and within 25 of it.
   */
  lemma AtmStrikeNearest(price: real, k: int)
    ensures -25.0 <= price - (AtmStrike(price) as real) <= 25.0
    ensures k % 50 == 0 ==> Dist(price, AtmStrike(price) as real) <= Dist(price, k as real)
  {
    var n := RoundHalfEven(price / 50.0);
    var x := price / 50.0;
    assert price == x * 50.0;
    assert price - (AtmStrike(price) as real) == (x - (n as real)) * 50.0;
    if k % 50 == 0 {
      var m := k / 50;
      assert k == m * 50;
      assert price - (k as real) == (x - (m as real)) * 50.0;
      if m != n {
        assert Dist(x, n as real) <= 1.0 / 2.0;
        assert Dist(x, m as real) >= 1.0 / 2.0;
        DistScale(x, n as real, 50.0);
        DistScale(x, m as real, 50.0);
      }
    }
  }

  function Dist(a: real, b: real): real {
    if a >= b then a - b else b - a
  }

  lemma DistScale(a: real, b: real, c: real)
    requires c > 0.0
    ensures Dist(a * c, b * c) == Dist(a, b) * c
  {
    if a >= b {
      assert a * c >= b * c;
    } else {
      assert a * c < b * c;
    }
  }

  /** Halves go to the even multiple of 50: 24025 is halfway and goes to 24000, 24075 goes to 24100. */
  lemma AtmStrikeTies()
    ensures AtmStrike(24025.0) == 24000
    ensures AtmStrike(24075.0) == 24100
    ensures AtmStrike(24026.0) == 24050
  {
    assert (24025.0 / 50.0).Floor == 480;
    assert (24075.0 / 50.0).Floor == 481;
    assert (24026.0 / 50.0).Floor == 480;
  }
}
