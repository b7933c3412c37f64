# stromzone: daily zone prices to a content record

A Dafny model of `stromzoner.py`, the script that fetches the hourly
electricity spot prices of the five Norwegian price zones NO1–NO5 for today
and yesterday, adds 25% VAT (except in NO4), averages each day, and builds
the flat field mapping it sends to a content-management record: per zone
the average price, the signed day-over-day percentage and a colour.

The model has five modules:

- `Wrappers` (`wrappers.dfy`): the `Option` type, whose `None` stands for
  Python's None where a fetch fails or an average does not exist.
- `Prices` (`prices.dfy`): the price API URL, the VAT loop, and the fetch
  (`GetElectricityPrices`), which copies the parsed list into an array and
  adjusts it record by record in place. The HTTP GET is a parameter
  `api: string -> Response` from a URL to a status code and parsed body.
- `Aggregator` (`aggregator.dfy`): `calculate_average_price` over exact
  reals, with the sum added left to right.
- `FieldBuilder` (`field_builder.dfy`): what one zone contributes
  (`ZoneFields`). It is skipped, it divides by zero, or it writes its three
  fields; `PercentChange` is the percentage formula of line 73. The
  `f"{x:.2f}"` formatting is a parameter `fmt: real -> string`.
- `Orchestrator` (`orchestrator.dfy`): the zone loop of `main` as a method
  that updates a `map<string, string>` zone by zone. `Assemble` is the
  function it is proved against. Lemmas say what the payload holds.

The dates, the price API and the formatter come in as `RunInputs`. The
division at line 73 is unguarded in the source: a zero yesterday average
raises ZeroDivisionError and ends the run before anything is published.
The model returns this as the outcome `ZeroDivisionError(zone)`.

The code tests `percent_change > 0`, so a change of exactly zero gets "-"
and green (`ZoneWritten`). The sign follows the percentage, not the price. When
yesterday's average is negative, a rise in price gives a negative
percentage, a "-" and green (`PercentChangeSign`).

## Model

| member | source | states |
|---|---|---|
| `Prices.ApiUrl` | stromzoner.py:6-7 | the URL starts with the price API prefix, ends in ".json", and its length is that of the date, "_" and the zone between them |
| `Prices.ApiUrlInjective` | stromzoner.py:6-7 | for zone names of equal length, equal URLs mean the same date and zone, so today's and yesterday's requests are distinct |
| `Prices.WithVat` | stromzoner.py:17-19 | same length and order; each price is 1.25 times the original unless the zone is "NO4", where the list is unchanged; every other field of each record is kept |
| `Prices.GetElectricityPrices` | stromzoner.py:11-23 | returns None unless the status is 200; otherwise it returns the parsed list with VAT added by the in-place loop |
| `Prices.FetchedPrices` | stromzoner.py:14-23 | a fetch yields a list exactly when the status is 200, and that list is the parsed body with VAT added (`WithVat`); any other status yields None |
| `Aggregator.CalculateAveragePrice` | stromzoner.py:25-28 | None exactly when the list is missing or empty; otherwise the average times the count equals the sum of the prices |
| `Aggregator.NoPrices` | stromzoner.py:64 | Python's `not prices`, used here and at line 26: None or the empty list. It has no contract of its own; `CalculateAveragePrice` (None exactly when `NoPrices`) and `ZoneSkipped` state what it decides |
| `Aggregator.SumPrices` | stromzoner.py:28 | the `sum(...)` of the prices, added left to right. It has no contract of its own; `CalculateAveragePrice` (the average times the count is this sum), `SumOfConstant`, `SumBounds` and `SumWithVat` state what it yields |
| `Aggregator.SumOfConstant` | stromzoner.py:28 | n identical prices p sum to n·p |
| `Aggregator.AverageOfConstant` | stromzoner.py:26-28 | a non-empty list of identical prices p averages to p |
| `Aggregator.AverageBounds` | stromzoner.py:28 | the average lies between any lower and upper bound of the hourly prices |
| `Aggregator.SumWithVat` | stromzoner.py:17-19 | adding VAT multiplies the sum by 1.25, or by 1 in NO4 |
| `Aggregator.AverageWithVat` | stromzoner.py:17-28 | adding VAT multiplies the average by 1.25, or by 1 in NO4, and does not change whether there is an average |
| `Aggregator.AverageOfTenAndTwenty` | stromzoner.py:25-28 | two hours priced 10 and 20 average to 15 |
| `FieldBuilder.ZoneKeysOfDigit` | stromzoner.py:74-92 | a zone has three distinct field names; each starts with "sone" and has the zone digit at index 4 |
| `FieldBuilder.AverageKey` | stromzoner.py:76 | the average field's name "sone{n}". It has no contract of its own; `ZoneKeysOfDigit` shows it starts with "sone" and the digit, and `ZoneWritten` that it holds fmt(today's average) |
| `FieldBuilder.ChangeKey` | stromzoner.py:86 | the percentage field's name "sone{n}-prosentendring-yesterday". It has no contract of its own; `ZoneKeysOfDigit` shows it is distinct from the other two names and carries the digit, and `ZoneWritten` and `ZoneColorFollowsPrice` state the text it holds |
| `FieldBuilder.ColorKeysOfZones` | stromzoner.py:88-92 | the colour field is "sone1-yesterday-color" for zone 1 and "sone{n}-yesterday-colo" for zones 2 to 5 |
| `FieldBuilder.ColorKey` | stromzoner.py:88-92 | the colour field's name for a digit. It has no contract of its own; `ColorKeysOfZones` fixes its spelling for each zone and `ZoneKeysOfDigit` shows it starts with "sone" and the digit |
| `FieldBuilder.Abs` | stromzoner.py:86 | the absolute value is non-negative and is x or -x |
| `FieldBuilder.PercentChange` | stromzoner.py:73 | the day-over-day percentage, defined only for a non-zero yesterday average. It has no contract of its own; `PercentChangeSign` and `PercentChangeScaleInvariant` state its sign and its invariance under scaling |
| `FieldBuilder.PercentChangeSign` | stromzoner.py:73 | with a positive yesterday average the change is positive exactly when today is dearer; with a negative one, exactly when today is cheaper; an unchanged price gives 0 |
| `FieldBuilder.PercentChangeScaleInvariant` | stromzoner.py:73 | scaling both averages by the same non-zero factor leaves the percentage unchanged |
| `FieldBuilder.ZoneFields` | stromzoner.py:64-92 | one zone's pass through the loop body: skipped, division by zero, or its three fields. It has no contract of its own; `ZoneSkipped`, `ZoneDivisionByZero`, `ZoneWritten` and `ZoneColorFollowsPrice` state each outcome and when it happens |
| `FieldBuilder.ZoneSkipped` | stromzoner.py:64-71 | a zone is skipped exactly when either day's list is missing or empty; the missing-average check never fires on its own |
| `FieldBuilder.ZoneDivisionByZero` | stromzoner.py:67-73 | a zone divides by zero exactly when both lists are present and yesterday's average is 0 |
| `FieldBuilder.ZoneWritten` | stromzoner.py:73-92 | a written zone has exactly its three fields: fmt of today's average; "+", fmt(change) and "%" with #ff5722 when the change is positive; "-", fmt(-change) and "%" with #4caf50 otherwise, zero included |
| `FieldBuilder.ZoneColorFollowsPrice` | stromzoner.py:79-86 | with a positive yesterday average, a rise gives "+" and #ff5722; a fall or no change gives "-" and #4caf50 |
| `FieldBuilder.ZoneChangeIgnoresVat` | stromzoner.py:17-19 | the percentage from VAT-adjusted lists equals the one from the raw API prices |
| `Orchestrator.CollectFieldData` | stromzoner.py:55-92 | the loop seeds name and slug, then fetches, averages and writes zone by zone; it returns the payload `Assemble` gives for the zones' outcomes, or the first zone's ZeroDivisionError |
| `Orchestrator.Run` | stromzoner.py:54-92 | main's zone loop over NO1 to NO5 in this order |
| `Orchestrator.SeedFields` | stromzoner.py:55-58 | the dictionary the loop starts from, "name" ↦ "Zone" and "slug" ↦ "zone". It has no contract of its own; `AssembleKeepsSeed` and `RunPayload` show both pairs reach the payload, and `AssembleOnlyEntries` that nothing else is there before the zones |
| `Orchestrator.ZoneOutcome` | stromzoner.py:61-92 | one zone's step, fed with the two fetches for today and yesterday. It has no contract of its own; `OutcomesWellKeyed` states its keys, `RunFailedFetch` what a failed fetch leads to, and the `Zone*` rows of `FieldBuilder` each outcome |
| `Orchestrator.ErrorPersists` | stromzoner.py:73 | once a zone raises ZeroDivisionError, the run ends with that error whatever the later zones hold |
| `Orchestrator.Assemble` | stromzoner.py:55-92 | the zone loop as a fold over the zones' `ZoneFields` outcomes: the seeded mapping, updated by each written zone, or the first zero division. It has no contract of its own; `CollectFieldData` is proved equal to it, and `AssembleKeepsSeed`, `AssembleHasZone`, `AssembleNoDigit`, `AssembleOnlyEntries`, `AssembleSkippedZone`, `AssembleSize` and `AssembleCompletes` state what it yields |
| `Orchestrator.RunOver` | stromzoner.py:60-95 | what the zone loop over a list of zones hands to `update_webflow_item`, or the ZeroDivisionError it stops with. It has no contract of its own; `CollectFieldData` is proved to compute it, and `RunPayload`, `RunFailedFetch`, `RunAllZonesWritten` and `RunCompletes` state what it holds |
| `Orchestrator.RunZones` | stromzoner.py:54-95 | the same over the fixed list NO1 to NO5. It has no contract of its own; `Run` is proved to compute it and `RunSendsSeventeenKeys` states its size when every zone writes |
| `Orchestrator.AssembleKeepsSeed` | stromzoner.py:55-58 | "name" stays "Zone" and "slug" stays "zone" through every zone |
| `Orchestrator.AssembleHasZone` | stromzoner.py:74-92 | every field a written zone adds is in the final payload with that zone's value; no other zone overwrites it |
| `Orchestrator.AssembleNoDigit` | stromzoner.py:74-92 | no payload key carries at index 4 the digit of a zone that wrote nothing |
| `Orchestrator.AssembleOnlyEntries` | stromzoner.py:55-92 | every payload key is "name", "slug" or a field of a written zone |
| `Orchestrator.AssembleSkippedZone` | stromzoner.py:64-71 | a zone that wrote nothing has no field carrying its digit in the payload |
| `Orchestrator.AssembleSize` | stromzoner.py:55-92 | the payload has 2 + 3·(number of written zones) keys |
| `Orchestrator.AssembleCompletes` | stromzoner.py:73 | the run completes exactly when no zone divides by zero; otherwise the error names the first zone that does |
| `Orchestrator.OutcomesWellKeyed` | stromzoner.py:74-92 | every zone's outcome writes three fields named after its digit |
| `Orchestrator.ZonesDistinct` | stromzoner.py:54 | the five zones have distinct digits 1 to 5 |
| `Orchestrator.RunPayload` | stromzoner.py:55-92 | a completed payload has the seeded pair and every written zone's fields with their values; a zone that wrote nothing leaves no key with its digit |
| `Orchestrator.RunFailedFetch` | stromzoner.py:21-23 | a zone whose fetch for either day did not return 200 has none of its three field names in the payload |
| `Orchestrator.RunAllZonesWritten` | stromzoner.py:55-92 | when every zone is written, the run completes with 2 + 3·(number of zones) keys |
| `Orchestrator.RunSendsSeventeenKeys` | stromzoner.py:54-92 | with all five zones written, main sends exactly 17 keys |
| `Orchestrator.RunCompletes` | stromzoner.py:73 | the payload reaches the publisher exactly when no zone divides by zero; otherwise the error names such a zone |

## Left out

- The HTTP GET to the price API and the JSON parsing (stromzoner.py:13-15) are the parameter `api`. A malformed body, or a body that is not a list of records, is not modelled. `api` is total, so a `requests.get` that raises (a connection error or a timeout) and would end the run is not modelled either.
- Price records carry `NOK_per_kWh`, `time_start` and `time_end`. Other fields the API sends are not modelled; the VAT loop leaves them alone just as it leaves the two times.
- `update_webflow_item` (stromzoner.py:30-46) is not modelled: the PATCH envelope, the headers, the request and its logged outcome. The model ends with the payload that main would pass to it.
- `date.today()`, `timedelta` and `strftime` (stromzoner.py:49-52) read the clock. The two date strings are inputs.
- `print` and `json.dumps` (stromzoner.py:22, 43-46, 98-99) are logging only. The key order of the printed dictionary is not modelled, since a `map` has none.
- The bearer token imported from `weds` (stromzoner.py:4) belongs to the publisher, which is left out.
- Prices are exact reals, so IEEE float rounding is not modelled. The exact text that `:.2f` produces is the uninterpreted parameter `fmt`.
- GetElectricityPrices: the source mutates the record dictionaries of the parsed list in place. The model copies the parsed records into an array and updates the array's elements, so aliasing between dictionaries is not modelled.
- CollectFieldData takes the zone list as a parameter and requires each name to have at least three characters (`zone[2]`). `Run` passes the fixed five zones; the IndexError a shorter name would raise cannot happen there.
