/**
 * The zone loop of stromzoner.py's main: the payload is seeded with "name"
 * and "slug", then each of the five zones, in order, is fetched for today
 * and yesterday and contributes its fields or nothing. The clock and the
 * network are inputs; publishing and printing the payload are not modelled.
 */
module Orchestrator {
  import opened Wrappers
  import opened Prices
  import opened Aggregator
  import opened FieldBuilder

  /** What main reads from outside: the two date strings, the price API
      (URL to response) and the two-decimal formatter. */
  datatype RunInputs = RunInputs(
    todayStr: string,
    yesterdayStr: string,
    api: string -> Response,
    fmt: real -> string)

  /** How a run ends: with the payload handed to the publisher, or with the
      ZeroDivisionError that a zero yesterday average raises. */
  datatype RunOutcome =
    | Completed(fieldData: map<string, string>)
    | ZeroDivisionError(zone: string)

  const Zones: seq<string> := ["NO1", "NO2", "NO3", "NO4", "NO5"]

  function SeedFields(): map<string, string>
  {
    map["name" := "Zone", "slug" := "zone"]
  }

  /** Zone names long enough to have a digit at index 2. */
  predicate ZoneList(zones: seq<string>)
  {
    forall i :: 0 <= i < |zones| ==> |zones[i]| >= 3
  }

  predicate DistinctDigits(zones: seq<string>)
    requires ZoneList(zones)
  {
    forall i, j :: 0 <= i < j < |zones| ==> zones[i][2] != zones[j][2]
  }

  /** What one zone contributes, given what the price API answers for it. */
  function ZoneOutcome(inputs: RunInputs, zone: string): ZoneResult
    requires |zone| >= 3
  {
    ZoneFields(zone,
               FetchedPrices(inputs.api(ApiUrl(inputs.todayStr, zone)), zone),
               FetchedPrices(inputs.api(ApiUrl(inputs.yesterdayStr, zone)), zone),
               inputs.fmt)
  }

  /** The outcome of the five zones' results, zone by zone in order: each one
      adds its fields, adds nothing, or ends the run with ZeroDivisionError. */
  function Assemble(zones: seq<string>, results: seq<ZoneResult>): RunOutcome
    requires |results| == |zones|
    decreases |zones|
  {
    if zones == [] then Completed(SeedFields())
    else
      var n := |zones| - 1;
      match Assemble(zones[..n], results[..n])
      case ZeroDivisionError(z) => ZeroDivisionError(z)
      case Completed(m) =>
        match results[n]
        case Skipped => Completed(m)
        case DivisionByZero => ZeroDivisionError(zones[n])
        case Fields(e) => Completed(m + e)
  }

  function ZoneOutcomes(inputs: RunInputs, zones: seq<string>): (results: seq<ZoneResult>)
    requires ZoneList(zones)
    ensures |results| == |zones|
    ensures forall j :: 0 <= j < |zones| ==> results[j] == ZoneOutcome(inputs, zones[j])
  {
    seq(|zones|, j requires 0 <= j < |zones| => ZoneOutcome(inputs, zones[j]))
  }

  /** What the zone loop over `zones` hands to the publisher, or the error
      it stops with. */
  function RunOver(inputs: RunInputs, zones: seq<string>): RunOutcome
    requires ZoneList(zones)
  {
    Assemble(zones, ZoneOutcomes(inputs, zones))
  }

  /** What main hands to the publisher, or the error it stops with. */
  function RunZones(inputs: RunInputs): RunOutcome
  {
    RunOver(inputs, Zones)
  }

  /** The number of zones that contributed fields. */
  function WrittenCount(results: seq<ZoneResult>): nat
  {
    if results == [] then 0
    else WrittenCount(results[..|results| - 1]) + (if results[|results| - 1].Fields? then 1 else 0)
  }

  /** Each zone's fields: three names, each with the zone's digit at index 4. */
  predicate WellKeyed(zones: seq<string>, results: seq<ZoneResult>)
    requires ZoneList(zones) && |results| == |zones|
  {
    forall j :: 0 <= j < |zones| && results[j].Fields? ==>
      && |results[j].entries.Keys| == 3
      && forall k :: k in results[j].entries ==> |k| >= 5 && k[4] == zones[j][2]
  }

  /** One more zone of the loop. */
  lemma AssembleNext(zones: seq<string>, results: seq<ZoneResult>, n: nat)
    requires |results| == |zones| && n < |zones|
    ensures Assemble(zones[..n + 1], results[..n + 1]) ==
      match Assemble(zones[..n], results[..n])
      case ZeroDivisionError(z) => ZeroDivisionError(z)
      case Completed(m) =>
        match results[n]
        case Skipped => Completed(m)
        case DivisionByZero => ZeroDivisionError(zones[n])
        case Fields(e) => Completed(m + e)
  {
    assert zones[..n + 1][..n] == zones[..n];
    assert results[..n + 1][..n] == results[..n];
  }

  /** Once a zone has raised ZeroDivisionError the run ends with it: the
      later zones are never reached. */
  lemma {:induction false} ErrorPersists(zones: seq<string>, results: seq<ZoneResult>, n: nat)
    requires |results| == |zones| && n <= |zones|
    requires Assemble(zones[..n], results[..n]).ZeroDivisionError?
    ensures Assemble(zones, results) == Assemble(zones[..n], results[..n])
    decreases |zones| - n
  {
    if n == |zones| {
      assert zones[..n] == zones && results[..n] == results;
    } else {
      AssembleNext(zones, results, n);
      ErrorPersists(zones, results, n + 1);
    }
  }

  lemma UpdateThree<K, V>(m: map<K, V>, a: K, x: V, b: K, y: V, c: K, z: V)
    ensures m[a := x][b := y][c := z] == m + map[a := x, b := y, c := z]
  {
  }

  /** main: the zone loop over the five zones in their fixed order. */
  method Run(inputs: RunInputs) returns (outcome: RunOutcome)
    ensures outcome == RunZones(inputs)
  {
    outcome := CollectFieldData(inputs, Zones);
  }

  /** The three writes of a processed zone, in the order and with the key
      spellings of the loop body, add exactly the zone's fields. */
  lemma ZoneWriteStep(zone: string, todayPrices: Option<seq<PriceRecord>>,
                      yesterdayPrices: Option<seq<PriceRecord>>, fmt: real -> string,
                      m: map<string, string>)
    requires |zone| >= 3 && !NoPrices(todayPrices) && !NoPrices(yesterdayPrices)
    requires CalculateAveragePrice(yesterdayPrices).value != 0.0
    ensures ZoneFields(zone, todayPrices, yesterdayPrices, fmt).Fields?
    ensures var todayAvg := CalculateAveragePrice(todayPrices).value;
            var yesterdayAvg := CalculateAveragePrice(yesterdayPrices).value;
            var change := ((todayAvg - yesterdayAvg) / yesterdayAvg) * 100.0;
            var d := zone[2];
            var sign := if change > 0.0 then "+" else "-";
            var color := if change > 0.0 then IncreaseColor else DecreaseColor;
            var m' := m["sone" + [d] := fmt(todayAvg)]
                        ["sone" + [d] + "-prosentendring-yesterday" := sign + fmt(Abs(change)) + "%"];
            (if d == '1' then m'["sone" + [d] + "-yesterday-color" := color]
             else m'["sone" + [d] + "-yesterday-colo" := color])
            == m + ZoneFields(zone, todayPrices, yesterdayPrices, fmt).entries
  {
    var todayAvg := CalculateAveragePrice(todayPrices).value;
    var yesterdayAvg := CalculateAveragePrice(yesterdayPrices).value;
    var change := PercentChange(todayAvg, yesterdayAvg);
    var d := zone[2];
    var sign := if change > 0.0 then "+" else "-";
    var color := if change > 0.0 then IncreaseColor else DecreaseColor;
    assert ZoneFields(zone, todayPrices, yesterdayPrices, fmt)
        == Fields(map[AverageKey(d) := fmt(todayAvg),
                      ChangeKey(d) := sign + fmt(Abs(change)) + "%",
                      ColorKey(d) := color]);
    UpdateThree(m, AverageKey(d), fmt(todayAvg), ChangeKey(d), sign + fmt(Abs(change)) + "%",
                ColorKey(d), color);
  }

  /** The zone loop of main, statement by statement, over a list of zones. */
  method CollectFieldData(inputs: RunInputs, zones: seq<string>) returns (outcome: RunOutcome)
    requires ZoneList(zones)
    ensures outcome == RunOver(inputs, zones)
  {
    ghost var results := ZoneOutcomes(inputs, zones);
    var fieldData := map["name" := "Zone", "slug" := "zone"];
    for i := 0 to |zones|
      invariant Assemble(zones[..i], results[..i]) == Completed(fieldData)
    {
      var zone := zones[i];
      ghost var before := fieldData;
      AssembleNext(zones, results, i);
      var todayPrices := GetElectricityPrices(inputs.todayStr, zone, inputs.api);
      var yesterdayPrices := GetElectricityPrices(inputs.yesterdayStr, zone, inputs.api);
      ghost var result := ZoneFields(zone, todayPrices, yesterdayPrices, inputs.fmt);
      assert results[i] == result;

      if NoPrices(todayPrices) || NoPrices(yesterdayPrices) {
        ZoneSkipped(zone, todayPrices, yesterdayPrices, inputs.fmt);
        continue;
      }

      var todayAvg := CalculateAveragePrice(todayPrices);
      var yesterdayAvg := CalculateAveragePrice(yesterdayPrices);

      if todayAvg.None? || yesterdayAvg.None? {
        continue;
      }

      if yesterdayAvg.value == 0.0 {
        ZoneDivisionByZero(zone, todayPrices, yesterdayPrices, inputs.fmt);
        ErrorPersists(zones, results, i + 1);
        assert zones[..|zones|] == zones && results[..|zones|] == results;
        return ZeroDivisionError(zone);
      }
      var percentChange := ((todayAvg.value - yesterdayAvg.value) / yesterdayAvg.value) * 100.0;
      var zoneNumber := zone[2];

      fieldData := fieldData["sone" + [zoneNumber] := inputs.fmt(todayAvg.value)];

      var changeSign, color;
      if percentChange > 0.0 {
        changeSign, color := "+", IncreaseColor;
      } else {
        changeSign, color := "-", DecreaseColor;
      }

      fieldData := fieldData["sone" + [zoneNumber] + "-prosentendring-yesterday"
                               := changeSign + inputs.fmt(Abs(percentChange)) + "%"];

      if zoneNumber == '1' {
        fieldData := fieldData["sone" + [zoneNumber] + "-yesterday-color" := color];
      } else {
        fieldData := fieldData["sone" + [zoneNumber] + "-yesterday-colo" := color];
      }
      ZoneWriteStep(zone, todayPrices, yesterdayPrices, inputs.fmt, before);
    }
    assert zones[..|zones|] == zones && results[..|zones|] == results;
    outcome := Completed(fieldData);
  }

  /** The seeded "name" and "slug" survive every zone. */
  lemma {:induction false} AssembleKeepsSeed(zones: seq<string>, results: seq<ZoneResult>, m: map<string, string>)
    requires ZoneList(zones)
    requires |results| == |zones| && WellKeyed(zones, results)
    requires Assemble(zones, results) == Completed(m)
    ensures "name" in m && m["name"] == "Zone"
    ensures "slug" in m && m["slug"] == "zone"
    decreases |zones|
  {
    if zones != [] {
      var n := |zones| - 1;
      var zs, rs := zones[..n], results[..n];
      assert forall j :: 0 <= j < n ==> zs[j] == zones[j] && rs[j] == results[j];
      AssembleKeepsSeed(zs, rs, Assemble(zs, rs).fieldData);
    }
  }

  /** A written zone's fields are in the payload with that zone's values:
      distinct zone digits keep later zones from overwriting them. */
  lemma {:induction false} AssembleHasZone(zones: seq<string>, results: seq<ZoneResult>, m: map<string, string>, j: nat)
    requires ZoneList(zones) && DistinctDigits(zones)
    requires |results| == |zones| && WellKeyed(zones, results)
    requires Assemble(zones, results) == Completed(m)
    requires j < |zones| && results[j].Fields?
    ensures forall k :: k in results[j].entries ==> k in m && m[k] == results[j].entries[k]
    decreases |zones|
  {
    var n := |zones| - 1;
    var zs, rs := zones[..n], results[..n];
    var m' := Assemble(zs, rs).fieldData;
    if j < n {
      PrefixWellFormed(zones, results, n);
      assert zs[j] == zones[j] && rs[j] == results[j];
      AssembleHasZone(zs, rs, m', j);
      if results[n].Fields? {
        assert zones[j][2] != zones[n][2];
        KeepEarlierEntries(m', results[j].entries, results[n].entries, zones[j][2], zones[n][2]);
      }
    }
  }

  /** Adding the fields of a zone with another digit keeps an earlier
      zone's fields and their values. */
  lemma KeepEarlierEntries(m: map<string, string>, earlier: map<string, string>, e: map<string, string>,
                           d: char, d': char)
    requires d != d'
    requires forall k :: k in earlier ==> k in m && m[k] == earlier[k] && |k| >= 5 && k[4] == d
    requires forall k :: k in e ==> |k| >= 5 && k[4] == d'
    ensures forall k :: k in earlier ==> k in m + e && (m + e)[k] == earlier[k]
  {
  }

  /** No key of the payload carries, at index 4, a digit that no written
      zone has; the seeded keys are too short to carry any. */
  lemma {:induction false} AssembleNoDigit(zones: seq<string>, results: seq<ZoneResult>, m: map<string, string>, d: char)
    requires ZoneList(zones)
    requires |results| == |zones| && WellKeyed(zones, results)
    requires Assemble(zones, results) == Completed(m)
    requires forall j :: 0 <= j < |zones| && results[j].Fields? ==> zones[j][2] != d
    ensures forall k :: k in m && |k| >= 5 ==> k[4] != d
    decreases |zones|
  {
    if zones != [] {
      var n := |zones| - 1;
      var zs, rs := zones[..n], results[..n];
      assert forall j :: 0 <= j < n ==> zs[j] == zones[j] && rs[j] == results[j];
      var m' := Assemble(zs, rs).fieldData;
      AssembleNoDigit(zs, rs, m', d);
      if results[n].Fields? {
        forall k | k in results[n].entries
          ensures |k| >= 5 && k[4] != d
        {
          KeyDigit(zones, results, n, k);
        }
      }
    }
  }

  lemma KeyDigit(zones: seq<string>, results: seq<ZoneResult>, j: nat, k: string)
    requires ZoneList(zones) && |results| == |zones| && WellKeyed(zones, results)
    requires j < |zones| && results[j].Fields? && k in results[j].entries
    ensures |k| >= 5 && k[4] == zones[j][2]
  {
  }

  /** The payload holds no key but the seeded ones and written zones' fields. */
  lemma {:induction false} AssembleOnlyEntries(zones: seq<string>, results: seq<ZoneResult>, m: map<string, string>)
    requires |results| == |zones|
    requires Assemble(zones, results) == Completed(m)
    ensures forall k :: k in m ==>
              k == "name" || k == "slug" ||
              exists j :: 0 <= j < |zones| && results[j].Fields? && k in results[j].entries
    decreases |zones|
  {
    if zones != [] {
      var n := |zones| - 1;
      var zs, rs := zones[..n], results[..n];
      assert forall j :: 0 <= j < n ==> rs[j] == results[j];
      var m' := Assemble(zs, rs).fieldData;
      AssembleOnlyEntries(zs, rs, m');
      if results[n].Fields? {
        forall k | k in m
          ensures k == "name" || k == "slug" ||
                  exists j :: 0 <= j < |zones| && results[j].Fields? && k in results[j].entries
        {
          if k in results[n].entries {
            assert results[n].Fields? && k in results[n].entries;
          }
        }
      }
    }
  }

  /** A zone that wrote nothing has none of its field names in the payload. */
  lemma AssembleSkippedZone(zones: seq<string>, results: seq<ZoneResult>, m: map<string, string>, j: nat)
    requires ZoneList(zones) && DistinctDigits(zones)
    requires |results| == |zones| && WellKeyed(zones, results)
    requires Assemble(zones, results) == Completed(m)
    requires j < |zones| && !results[j].Fields?
    ensures forall k :: k in m && |k| >= 5 ==> k[4] != zones[j][2]
  {
    AssembleNoDigit(zones, results, m, zones[j][2]);
  }

  /** The payload has the two seeded keys and three per written zone. */
  lemma {:induction false} AssembleSize(zones: seq<string>, results: seq<ZoneResult>, m: map<string, string>)
    requires ZoneList(zones) && DistinctDigits(zones)
    requires |results| == |zones| && WellKeyed(zones, results)
    requires Assemble(zones, results) == Completed(m)
    ensures |m.Keys| == 2 + 3 * WrittenCount(results)
    decreases |zones|
  {
    if zones == [] {
      assert m.Keys == {"name", "slug"};
    } else {
      var n := |zones| - 1;
      var zs, rs := zones[..n], results[..n];
      var m' := Assemble(zs, rs).fieldData;
      PrefixWellFormed(zones, results, n);
      AssembleSize(zs, rs, m');
      match results[n]
      case Skipped =>
      case Fields(e) =>
        PrefixAvoidsDigit(zones, results, n);
        AssembleNoDigit(zs, rs, m', zones[n][2]);
        assert |e.Keys| == 3;
        SizeStep(m', e, zones[n][2]);
    }
  }

  /** No zone before position n shares the digit of zone n. */
  lemma PrefixAvoidsDigit(zones: seq<string>, results: seq<ZoneResult>, n: nat)
    requires ZoneList(zones) && DistinctDigits(zones)
    requires |results| == |zones| && n < |zones|
    ensures forall j :: 0 <= j < n && results[..n][j].Fields? ==> zones[..n][j][2] != zones[n][2]
  {
  }

  lemma PrefixWellFormed(zones: seq<string>, results: seq<ZoneResult>, n: nat)
    requires ZoneList(zones) && DistinctDigits(zones)
    requires |results| == |zones| && WellKeyed(zones, results)
    requires n <= |zones|
    ensures ZoneList(zones[..n]) && DistinctDigits(zones[..n])
    ensures WellKeyed(zones[..n], results[..n])
  {
    var zs, rs := zones[..n], results[..n];
    assert forall j :: 0 <= j < n ==> zs[j] == zones[j] && rs[j] == results[j];
  }

  lemma SizeStep(m: map<string, string>, e: map<string, string>, d: char)
    requires forall k :: k in m && |k| >= 5 ==> k[4] != d
    requires forall k :: k in e ==> |k| >= 5 && k[4] == d
    ensures |(m + e).Keys| == |m.Keys| + |e.Keys|
  {
    assert (m + e).Keys == m.Keys + e.Keys;
    assert m.Keys * e.Keys == {};
  }

  /** A run completes exactly when no zone divides by zero; otherwise it
      stops with the first such zone. */
  lemma {:induction false} AssembleCompletes(zones: seq<string>, results: seq<ZoneResult>)
    requires |results| == |zones|
    ensures Assemble(zones, results).Completed?
        <==> forall j :: 0 <= j < |zones| ==> !results[j].DivisionByZero?
    ensures Assemble(zones, results).ZeroDivisionError? ==>
              exists j :: 0 <= j < |zones| && results[j].DivisionByZero?
                          && zones[j] == Assemble(zones, results).zone
                          && forall i :: 0 <= i < j ==> !results[i].DivisionByZero?
    decreases |zones|
  {
    if zones != [] {
      var n := |zones| - 1;
      var zs, rs := zones[..n], results[..n];
      assert forall j :: 0 <= j < n ==> zs[j] == zones[j] && rs[j] == results[j];
      AssembleCompletes(zs, rs);
      if Assemble(zs, rs).Completed? && results[n].DivisionByZero? {
        assert zones[n] == Assemble(zones, results).zone;
      }
    }
  }

  /** Every zone outcome writes three fields named after the zone's digit. */
  lemma OutcomesWellKeyed(inputs: RunInputs, zones: seq<string>)
    requires ZoneList(zones)
    ensures WellKeyed(zones, ZoneOutcomes(inputs, zones))
  {
    var results := ZoneOutcomes(inputs, zones);
    forall j | 0 <= j < |zones| && results[j].Fields?
      ensures |results[j].entries.Keys| == 3
      ensures forall k :: k in results[j].entries ==> |k| >= 5 && k[4] == zones[j][2]
    {
      var zone := zones[j];
      ZoneWritten(zone, FetchedPrices(inputs.api(ApiUrl(inputs.todayStr, zone)), zone),
                  FetchedPrices(inputs.api(ApiUrl(inputs.yesterdayStr, zone)), zone), inputs.fmt);
      ZoneKeysOfDigit(zone[2]);
    }
  }

  lemma ZonesDistinct()
    ensures ZoneList(Zones) && DistinctDigits(Zones)
    ensures forall j :: 0 <= j < |Zones| ==> Zones[j][2] == "12345"[j]
  {
  }

  lemma {:induction false} WrittenCountAll(results: seq<ZoneResult>)
    requires forall j :: 0 <= j < |results| ==> results[j].Fields?
    ensures WrittenCount(results) == |results|
  {
    if results != [] {
      var n := |results| - 1;
      assert forall j :: 0 <= j < n ==> results[..n][j] == results[j];
      WrittenCountAll(results[..n]);
    }
  }

  /** A completed run's payload: "name" and "slug" as seeded, every written
      zone's fields with its values, and nothing with the digit of a zone
      that wrote nothing. */
  lemma RunPayload(inputs: RunInputs, zones: seq<string>, m: map<string, string>)
    requires ZoneList(zones) && DistinctDigits(zones)
    requires RunOver(inputs, zones) == Completed(m)
    ensures "name" in m && m["name"] == "Zone"
    ensures "slug" in m && m["slug"] == "zone"
    ensures forall j, k | 0 <= j < |zones| && ZoneOutcome(inputs, zones[j]).Fields?
                          && k in ZoneOutcome(inputs, zones[j]).entries ::
              k in m && m[k] == ZoneOutcome(inputs, zones[j]).entries[k]
    ensures forall j, k | 0 <= j < |zones| && !ZoneOutcome(inputs, zones[j]).Fields? && k in m && |k| >= 5 ::
              k[4] != zones[j][2]
  {
    var results := ZoneOutcomes(inputs, zones);
    OutcomesWellKeyed(inputs, zones);
    AssembleKeepsSeed(zones, results, m);
    forall j | 0 <= j < |zones| && results[j].Fields? {
      AssembleHasZone(zones, results, m, j);
    }
    forall j | 0 <= j < |zones| && !results[j].Fields? {
      AssembleSkippedZone(zones, results, m, j);
    }
  }

  /** When a zone's price list could not be fetched for today or for
      yesterday, none of that zone's field names is in the payload. */
  lemma RunFailedFetch(inputs: RunInputs, zones: seq<string>, m: map<string, string>, j: nat)
    requires ZoneList(zones) && DistinctDigits(zones)
    requires RunOver(inputs, zones) == Completed(m)
    requires j < |zones|
    requires inputs.api(ApiUrl(inputs.todayStr, zones[j])).statusCode != 200
          || inputs.api(ApiUrl(inputs.yesterdayStr, zones[j])).statusCode != 200
    ensures forall k :: k in ZoneKeys(zones[j][2]) ==> k !in m
  {
    var zone := zones[j];
    ZoneSkipped(zone, FetchedPrices(inputs.api(ApiUrl(inputs.todayStr, zone)), zone),
                FetchedPrices(inputs.api(ApiUrl(inputs.yesterdayStr, zone)), zone), inputs.fmt);
    RunPayload(inputs, zones, m);
    ZoneKeysOfDigit(zone[2]);
  }

  /** When every zone is fetched and processed, the payload has exactly the
      two seeded keys and three per zone. */
  lemma RunAllZonesWritten(inputs: RunInputs, zones: seq<string>)
    requires ZoneList(zones) && DistinctDigits(zones)
    requires forall j :: 0 <= j < |zones| ==> ZoneOutcome(inputs, zones[j]).Fields?
    ensures RunOver(inputs, zones).Completed?
    ensures |RunOver(inputs, zones).fieldData.Keys| == 2 + 3 * |zones|
  {
    var results := ZoneOutcomes(inputs, zones);
    OutcomesWellKeyed(inputs, zones);
    AssembleCompletes(zones, results);
    WrittenCountAll(results);
    AssembleSize(zones, results, RunOver(inputs, zones).fieldData);
  }

  /** With all five zones fetched and processed, main sends 17 keys. */
  lemma RunSendsSeventeenKeys(inputs: RunInputs)
    requires forall j :: 0 <= j < |Zones| ==> ZoneOutcome(inputs, Zones[j]).Fields?
    ensures RunZones(inputs).Completed?
    ensures |RunZones(inputs).fieldData.Keys| == 17
  {
    ZonesDistinct();
    RunAllZonesWritten(inputs, Zones);
  }

  /** The run hands a payload to the publisher exactly when no zone has
      both lists and a zero average yesterday; otherwise it stops at such
      a zone. */
  lemma RunCompletes(inputs: RunInputs, zones: seq<string>)
    requires ZoneList(zones)
    ensures RunOver(inputs, zones).Completed?
        <==> forall j :: 0 <= j < |zones| ==> !ZoneOutcome(inputs, zones[j]).DivisionByZero?
    ensures RunOver(inputs, zones).ZeroDivisionError? ==>
              exists j :: 0 <= j < |zones| && zones[j] == RunOver(inputs, zones).zone
                          && ZoneOutcome(inputs, zones[j]).DivisionByZero?
  {
    AssembleCompletes(zones, ZoneOutcomes(inputs, zones));
  }
}
