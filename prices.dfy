/**
 * The price fetcher of stromzoner.py: the URL of one zone's price list for one
 * day, and the VAT adjustment applied to a successfully fetched list.
 * The HTTP GET itself is a parameter `api` mapping a URL to the response.
 */
module Prices {
  import opened Wrappers

  /** One hourly entry of the price API's JSON array; only NOK_per_kWh is used. */
  datatype PriceRecord = PriceRecord(nokPerKwh: real, timeStart: string, timeEnd: string)

  /** The status code and the parsed JSON body of one price API request. */
  datatype Response = Response(statusCode: int, body: seq<PriceRecord>)

  const ApiPrefix: string := "https://www.hvakosterstrommen.no/api/v1/prices/"
  const ApiSuffix: string := ".json"

  /** The one zone whose prices carry no 25% VAT. */
  const VatExemptZone: string := "NO4"
  const VatFactor: real := 1.25

  /** The address of the price list of `zone` on the day `dateStr` ("YYYY/MM-DD"). */
  function ApiUrl(dateStr: string, zone: string): (url: string)
    ensures |url| == |ApiPrefix| + |dateStr| + 1 + |zone| + |ApiSuffix|
    ensures url[..|ApiPrefix|] == ApiPrefix
    ensures url[|url| - |ApiSuffix|..] == ApiSuffix
  {
    ApiPrefix + dateStr + "_" + zone + ApiSuffix
  }

  /** Two requests for zones of equal name length hit the same URL only if they
      ask for the same day and the same zone: today's and yesterday's lists are
      distinct requests. */
  lemma ApiUrlInjective(d1: string, z1: string, d2: string, z2: string)
    requires |z1| == |z2|
    requires ApiUrl(d1, z1) == ApiUrl(d2, z2)
    ensures d1 == d2 && z1 == z2
  {
    var u := ApiUrl(d1, z1);
    var p := |ApiPrefix|;
    assert |d1| == |d2|;
    assert u[p..p + |d1|] == d1 by {
      assert u == ApiPrefix + d1 + "_" + z1 + ApiSuffix;
    }
    assert u[p..p + |d2|] == d2 by {
      assert u == ApiPrefix + d2 + "_" + z2 + ApiSuffix;
    }
    var q := p + |d1| + 1;
    assert u[q..q + |z1|] == z1 by {
      assert u == ApiPrefix + d1 + "_" + z1 + ApiSuffix;
    }
    assert u[q..q + |z2|] == z2 by {
      assert u == ApiPrefix + d2 + "_" + z2 + ApiSuffix;
    }
  }

  /** The list after the VAT loop: each record's price times 1.25 unless the
      zone is the exempt one; everything else of every record kept. */
  function WithVat(records: seq<PriceRecord>, zone: string): (adjusted: seq<PriceRecord>)
    ensures |adjusted| == |records|
    ensures forall i :: 0 <= i < |records| ==>
      && adjusted[i].nokPerKwh == (if zone == VatExemptZone then records[i].nokPerKwh
                                   else records[i].nokPerKwh * VatFactor)
      && adjusted[i].timeStart == records[i].timeStart
      && adjusted[i].timeEnd == records[i].timeEnd
    ensures zone == VatExemptZone ==> adjusted == records
  {
    if records == [] then []
    else
      var last := records[|records| - 1];
      var item := if zone != VatExemptZone then last.(nokPerKwh := last.nokPerKwh * VatFactor) else last;
      WithVat(records[..|records| - 1], zone) + [item]
  }

  /** What a fetch yields: the VAT-adjusted list on status 200, otherwise None. */
  function FetchedPrices(response: Response, zone: string): (prices: Option<seq<PriceRecord>>)
    ensures prices.Some? <==> response.statusCode == 200
    ensures prices.Some? ==> prices.value == WithVat(response.body, zone)
  {
    if response.statusCode == 200 then Some(WithVat(response.body, zone)) else None
  }

  /** Fetches the list of `zone` on `dateStr` and adds VAT to it record by
      record, in place, as the source's loop over the parsed JSON does. */
  method GetElectricityPrices(dateStr: string, zone: string, api: string -> Response)
    returns (prices: Option<seq<PriceRecord>>)
    ensures prices == FetchedPrices(api(ApiUrl(dateStr, zone)), zone)
  {
    var url := ApiUrl(dateStr, zone);
    var response := api(url);
    if response.statusCode == 200 {
      var json := response.body;
      var data := new PriceRecord[|json|](i requires 0 <= i < |json| => json[i]);
      ghost var adjusted := WithVat(json, zone);
      for i := 0 to data.Length
        invariant forall k :: 0 <= k < i ==> data[k] == adjusted[k]
        invariant forall k :: i <= k < data.Length ==> data[k] == json[k]
      {
        if zone != VatExemptZone {
          data[i] := data[i].(nokPerKwh := data[i].nokPerKwh * VatFactor);
        }
      }
      assert data[..] == adjusted;
      prices := Some(data[..]);
    } else {
      prices := None;
    }
  }
}
