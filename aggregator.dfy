/**
 * calculate_average_price of stromzoner.py: the arithmetic mean of the
 * NOK_per_kWh field of a fetched list, or None for a missing or empty list.
 * Prices are exact reals; the source's float rounding is not modelled.
 */
module Aggregator {
  import opened Wrappers
  import opened Prices

  /** Python's `not prices` for a fetched list: None or the empty list. */
  predicate NoPrices(prices: Option<seq<PriceRecord>>)
  {
    prices.None? || prices.value == []
  }

  /** The sum of the prices of a list, added left to right as `sum` does. */
  function SumPrices(records: seq<PriceRecord>): real
  {
    if records == [] then 0.0
    else SumPrices(records[..|records| - 1]) + records[|records| - 1].nokPerKwh
  }

  function CalculateAveragePrice(prices: Option<seq<PriceRecord>>): (avg: Option<real>)
    ensures avg.None? <==> NoPrices(prices)
    ensures avg.Some? ==> avg.value * (|prices.value| as real) == SumPrices(prices.value)
  {
    if NoPrices(prices) then None
    else Some(SumPrices(prices.value) / (|prices.value| as real))
  }

  lemma {:induction false} SumOfConstant(records: seq<PriceRecord>, p: real)
    requires forall i :: 0 <= i < |records| ==> records[i].nokPerKwh == p
    ensures SumPrices(records) == (|records| as real) * p
  {
    if records != [] {
      SumOfConstant(records[..|records| - 1], p);
    }
  }

  /** A list whose prices are all p averages to p. */
  lemma AverageOfConstant(records: seq<PriceRecord>, p: real)
    requires records != []
    requires forall i :: 0 <= i < |records| ==> records[i].nokPerKwh == p
    ensures CalculateAveragePrice(Some(records)) == Some(p)
  {
    SumOfConstant(records, p);
    var n := |records| as real;
    assert SumPrices(records) / n == p by {
      assert (n * p) / n == p;
    }
  }

  lemma {:induction false} SumBounds(records: seq<PriceRecord>, lo: real, hi: real)
    requires forall i :: 0 <= i < |records| ==> lo <= records[i].nokPerKwh <= hi
    ensures (|records| as real) * lo <= SumPrices(records) <= (|records| as real) * hi
  {
    if records != [] {
      SumBounds(records[..|records| - 1], lo, hi);
    }
  }

  /** The average lies between the cheapest and the dearest hour. */
  lemma AverageBounds(records: seq<PriceRecord>, lo: real, hi: real)
    requires records != []
    requires forall i :: 0 <= i < |records| ==> lo <= records[i].nokPerKwh <= hi
    ensures CalculateAveragePrice(Some(records)).Some?
    ensures lo <= CalculateAveragePrice(Some(records)).value <= hi
  {
    SumBounds(records, lo, hi);
    var n := |records| as real;
    var avg := CalculateAveragePrice(Some(records)).value;
    assert avg * n == SumPrices(records);
    CancelPositiveFactor(n, lo, avg);
    CancelPositiveFactor(n, avg, hi);
  }

  lemma CancelPositiveFactor(n: real, x: real, y: real)
    requires n > 0.0 && n * x <= n * y
    ensures x <= y
  {
  }

  lemma {:induction false} SumWithVat(records: seq<PriceRecord>, zone: string)
    ensures SumPrices(WithVat(records, zone))
         == (if zone == VatExemptZone then 1.0 else VatFactor) * SumPrices(records)
  {
    if records != [] {
      var init := records[..|records| - 1];
      SumWithVat(init, zone);
      var adjusted := WithVat(records, zone);
      assert adjusted[..|adjusted| - 1] == WithVat(init, zone);
    }
  }

  /** Adding VAT to every hour scales the average by the VAT factor. */
  lemma AverageWithVat(records: seq<PriceRecord>, zone: string)
    ensures CalculateAveragePrice(Some(WithVat(records, zone))).None? <==> records == []
    ensures records != [] ==>
      CalculateAveragePrice(Some(WithVat(records, zone))).value
        == (if zone == VatExemptZone then 1.0 else VatFactor) * CalculateAveragePrice(Some(records)).value
  {
    var adjusted := WithVat(records, zone);
    if records != [] {
      SumWithVat(records, zone);
      var f := if zone == VatExemptZone then 1.0 else VatFactor;
      var n := |records| as real;
      var s := SumPrices(records);
      assert SumPrices(adjusted) == f * s;
      assert CalculateAveragePrice(Some(adjusted)).value == (f * s) / n;
      QuotientOfScaled(f, s, n);
    }
  }

  lemma QuotientOfScaled(f: real, s: real, n: real)
    requires n != 0.0
    ensures (f * s) / n == f * (s / n)
  {
  }

  /** The example of two hours priced 10 and 20. */
  lemma AverageOfTenAndTwenty(a: PriceRecord, b: PriceRecord)
    requires a.nokPerKwh == 10.0 && b.nokPerKwh == 20.0
    ensures CalculateAveragePrice(Some([a, b])) == Some(15.0)
  {
    assert [a, b][..1] == [a];
    assert [a][..0] == [];
    assert SumPrices([a]) == 10.0;
    assert SumPrices([a, b]) == SumPrices([a]) + 20.0;
  }
}
