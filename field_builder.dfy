/**
 * The per-zone step of stromzoner.py's main loop: from a zone's two fetched
 * lists, either nothing (the zone is skipped), a division by zero, or the
 * three output fields of the zone. Formatting with two decimals is the
 * parameter `fmt`, left uninterpreted.
 */
module FieldBuilder {
  import opened Wrappers
  import opened Prices
  import opened Aggregator

  const IncreaseColor: string := "#ff5722"
  const DecreaseColor: string := "#4caf50"

  /** What one zone contributes to the payload. */
  datatype ZoneResult =
    | Skipped
    | DivisionByZero
    | Fields(entries: map<string, string>)

  function AverageKey(digit: char): string
  {
    "sone" + [digit]
  }

  function ChangeKey(digit: char): string
  {
    "sone" + [digit] + "-prosentendring-yesterday"
  }

  /** The colour field's name, as the content system spells it: "-color" for
      zone 1 only and "-colo" for every other zone. */
  function ColorKey(digit: char): string
  {
    if digit == '1' then "sone" + [digit] + "-yesterday-color"
    else "sone" + [digit] + "-yesterday-colo"
  }

  function ZoneKeys(digit: char): set<string>
  {
    {AverageKey(digit), ChangeKey(digit), ColorKey(digit)}
  }

  /** Every field name of a zone starts with "sone" and the zone's digit, so
      zones with different digits never share a field, and no zone field is
      one of the seeded keys "name" and "slug". */
  lemma ZoneKeysOfDigit(digit: char)
    ensures |ZoneKeys(digit)| == 3
    ensures forall k :: k in ZoneKeys(digit) ==> |k| >= 5 && k[..4] == "sone" && k[4] == digit
  {
    assert |AverageKey(digit)| == 5;
    assert |ChangeKey(digit)| == 30;
    assert |ColorKey(digit)| == 20 || |ColorKey(digit)| == 21;
  }

  lemma ColorKeysOfZones()
    ensures ColorKey('1') == "sone1-yesterday-color"
    ensures forall d :: d in "2345" ==> ColorKey(d) == "sone" + [d] + "-yesterday-colo"
  {
  }

  function Abs(x: real): (a: real)
    ensures a >= 0.0 && (a == x || a == -x)
  {
    if x < 0.0 then -x else x
  }

  function PercentChange(todayAvg: real, yesterdayAvg: real): real
    requires yesterdayAvg != 0.0
  {
    ((todayAvg - yesterdayAvg) / yesterdayAvg) * 100.0
  }

  /** For a positive yesterday average the change is positive exactly when the
      price rose; for a negative one the sign is reversed; an unchanged price
      gives a change of zero. */
  lemma PercentChangeSign(todayAvg: real, yesterdayAvg: real)
    requires yesterdayAvg != 0.0
    ensures yesterdayAvg > 0.0 ==> (PercentChange(todayAvg, yesterdayAvg) > 0.0 <==> todayAvg > yesterdayAvg)
    ensures yesterdayAvg < 0.0 ==> (PercentChange(todayAvg, yesterdayAvg) > 0.0 <==> todayAvg < yesterdayAvg)
    ensures todayAvg == yesterdayAvg ==> PercentChange(todayAvg, yesterdayAvg) == 0.0
  {
    var q := (todayAvg - yesterdayAvg) / yesterdayAvg;
    assert q * yesterdayAvg == todayAvg - yesterdayAvg;
    if yesterdayAvg > 0.0 {
      if q > 0.0 { assert q * yesterdayAvg > 0.0; }
    } else {
      if q > 0.0 { assert q * yesterdayAvg < 0.0; }
    }
  }

  /** Scaling both days by the same non-zero factor (the VAT) leaves the
      percentage change as it was. */
  lemma PercentChangeScaleInvariant(todayAvg: real, yesterdayAvg: real, f: real)
    requires yesterdayAvg != 0.0 && f != 0.0
    ensures PercentChange(f * todayAvg, f * yesterdayAvg) == PercentChange(todayAvg, yesterdayAvg)
  {
    assert (f * todayAvg - f * yesterdayAvg) == f * (todayAvg - yesterdayAvg);
    assert (f * (todayAvg - yesterdayAvg)) / (f * yesterdayAvg) == (todayAvg - yesterdayAvg) / yesterdayAvg;
  }

  /** The three fields of a zone, or why it has none. */
  function ZoneFields(zone: string, todayPrices: Option<seq<PriceRecord>>,
                      yesterdayPrices: Option<seq<PriceRecord>>, fmt: real -> string): ZoneResult
    requires |zone| >= 3
  {
    if NoPrices(todayPrices) || NoPrices(yesterdayPrices) then Skipped
    else
      var todayAvg := CalculateAveragePrice(todayPrices);
      var yesterdayAvg := CalculateAveragePrice(yesterdayPrices);
      if todayAvg.None? || yesterdayAvg.None? then Skipped
      else if yesterdayAvg.value == 0.0 then DivisionByZero
      else
        var change := PercentChange(todayAvg.value, yesterdayAvg.value);
        var digit := zone[2];
        var sign := if change > 0.0 then "+" else "-";
        var color := if change > 0.0 then IncreaseColor else DecreaseColor;
        Fields(map[AverageKey(digit) := fmt(todayAvg.value),
                   ChangeKey(digit) := sign + fmt(Abs(change)) + "%",
                   ColorKey(digit) := color])
  }

  /** A zone is skipped exactly when either day's list is missing or empty;
      the later check for a missing average never fires. */
  lemma ZoneSkipped(zone: string, todayPrices: Option<seq<PriceRecord>>,
                    yesterdayPrices: Option<seq<PriceRecord>>, fmt: real -> string)
    requires |zone| >= 3
    ensures ZoneFields(zone, todayPrices, yesterdayPrices, fmt).Skipped?
        <==> NoPrices(todayPrices) || NoPrices(yesterdayPrices)
  {
  }

  /** Division by zero happens exactly when both lists are present and
      yesterday's average is zero. */
  lemma ZoneDivisionByZero(zone: string, todayPrices: Option<seq<PriceRecord>>,
                           yesterdayPrices: Option<seq<PriceRecord>>, fmt: real -> string)
    requires |zone| >= 3
    ensures ZoneFields(zone, todayPrices, yesterdayPrices, fmt).DivisionByZero?
        <==> !NoPrices(todayPrices) && !NoPrices(yesterdayPrices)
             && CalculateAveragePrice(yesterdayPrices).value == 0.0
  {
  }

  /** A processed zone writes exactly its three fields: today's average,
      the signed percentage followed by "%", and the colour, where a change
      of zero or less gets "-" and green. */
  lemma ZoneWritten(zone: string, todayPrices: Option<seq<PriceRecord>>,
                    yesterdayPrices: Option<seq<PriceRecord>>, fmt: real -> string)
    requires |zone| >= 3
    requires ZoneFields(zone, todayPrices, yesterdayPrices, fmt).Fields?
    ensures var e := ZoneFields(zone, todayPrices, yesterdayPrices, fmt).entries;
            var todayAvg := CalculateAveragePrice(todayPrices).value;
            var yesterdayAvg := CalculateAveragePrice(yesterdayPrices).value;
            var d := zone[2];
            && yesterdayAvg != 0.0
            && e.Keys == ZoneKeys(d) && |e| == 3
            && e[AverageKey(d)] == fmt(todayAvg)
            && (PercentChange(todayAvg, yesterdayAvg) > 0.0 ==>
                  && e[ChangeKey(d)] == "+" + fmt(PercentChange(todayAvg, yesterdayAvg)) + "%"
                  && e[ColorKey(d)] == IncreaseColor)
            && (PercentChange(todayAvg, yesterdayAvg) <= 0.0 ==>
                  && e[ChangeKey(d)] == "-" + fmt(-PercentChange(todayAvg, yesterdayAvg)) + "%"
                  && e[ColorKey(d)] == DecreaseColor)
  {
    ZoneKeysOfDigit(zone[2]);
  }

  /** With a positive yesterday average, a zone whose price rose is shown
      with "+" and orange-red, and one whose price fell or stayed is shown
      with "-" and green. */
  lemma ZoneColorFollowsPrice(zone: string, todayPrices: Option<seq<PriceRecord>>,
                              yesterdayPrices: Option<seq<PriceRecord>>, fmt: real -> string)
    requires |zone| >= 3
    requires ZoneFields(zone, todayPrices, yesterdayPrices, fmt).Fields?
    requires CalculateAveragePrice(yesterdayPrices).value > 0.0
    ensures var e := ZoneFields(zone, todayPrices, yesterdayPrices, fmt).entries;
            var rose := CalculateAveragePrice(todayPrices).value > CalculateAveragePrice(yesterdayPrices).value;
            && e[ColorKey(zone[2])] == (if rose then IncreaseColor else DecreaseColor)
            && e[ChangeKey(zone[2])][0] == (if rose then '+' else '-')
  {
    ZoneWritten(zone, todayPrices, yesterdayPrices, fmt);
    PercentChangeSign(CalculateAveragePrice(todayPrices).value, CalculateAveragePrice(yesterdayPrices).value);
  }

  /** Adding VAT does not change a zone's percentage: it equals the one
      computed from the prices as the API returned them. */
  lemma ZoneChangeIgnoresVat(today: seq<PriceRecord>, yesterday: seq<PriceRecord>, zone: string)
    requires today != [] && yesterday != []
    requires CalculateAveragePrice(Some(yesterday)).value != 0.0
    ensures CalculateAveragePrice(Some(WithVat(yesterday, zone))).value != 0.0
    ensures PercentChange(CalculateAveragePrice(Some(WithVat(today, zone))).value,
                          CalculateAveragePrice(Some(WithVat(yesterday, zone))).value)
         == PercentChange(CalculateAveragePrice(Some(today)).value, CalculateAveragePrice(Some(yesterday)).value)
  {
    AverageWithVat(today, zone);
    AverageWithVat(yesterday, zone);
    var f := if zone == VatExemptZone then 1.0 else VatFactor;
    PercentChangeScaleInvariant(CalculateAveragePrice(Some(today)).value,
                                CalculateAveragePrice(Some(yesterday)).value, f);
  }
}
