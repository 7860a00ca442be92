/** The scraper object: its configuration and the records it accumulates,
    `scrape_with_multiple_methods` and `bulk_scrape_urls`
    (flexible_scraper.py:28-34, 74-137, 290-301). */
module Scraper {
  import opened Wrappers
  import opened Values
  import opened Oracles
  import opened Extraction
  import opened QualityGate
  import opened Acquisition

  /** `data['source_url'] = url; data['scraped_at'] = timestamp`. */
  function Stamp(m: Record, url: string, at: string): (r: Record)
    ensures r.Keys == m.Keys + {"source_url", "scraped_at"}
    ensures r["source_url"] == Str(url) && r["scraped_at"] == Str(at)
    ensures forall k :: k in m && k != "source_url" && k != "scraped_at" ==> r[k] == m[k]
  {
    m["source_url" := Str(url)]["scraped_at" := Str(at)]
  }

  /** The chain's result for each position of the URL list. */
  ghost function Results(cfg: Config, fields: FieldConfig, eng: Engine, net: nat -> Fetch): nat -> Value
  {
    (i: nat) => ScrapeResult(cfg, fields, eng, net(i))
  }

  /** The record the i-th URL contributes: its stamped dict, or nothing when
      the chain's result is not a dict (stamping it raises and the URL is skipped). */
  function RecordFor(urls: seq<string>, results: nat -> Value, clock: nat -> string, i: nat): (r: seq<Record>)
    requires i < |urls|
    ensures |r| <= 1
    ensures |r| == 1 <==> results(i).Dict?
    ensures |r| == 1 ==>
      "source_url" in r[0] && r[0]["source_url"] == Str(urls[i])
      && "scraped_at" in r[0] && r[0]["scraped_at"] == Str(clock(i))
  {
    match results(i)
    case Dict(m) => [Stamp(m, urls[i], clock(i))]
    case _ => []
  }

  /** The records appended for the first n URLs, in order. */
  function Collected(urls: seq<string>, results: nat -> Value, clock: nat -> string, n: nat): (r: seq<Record>)
    requires n <= |urls|
  {
    if n == 0 then []
    else Collected(urls, results, clock, n - 1) + RecordFor(urls, results, clock, n - 1)
  }

  /** One loop step: appending the i-th URL's stamped dict (or nothing, when
      the chain's result is not a dict) extends the records collected so far
      by that URL's contribution. */
  lemma BatchStep(cfg: Config, fields: FieldConfig, eng: Engine, net: nat -> Fetch, urls: seq<string>,
                  clock: nat -> string, i: nat, result: Value, base: seq<Record>, before: seq<Record>, after: seq<Record>)
    requires i < |urls| && result == ScrapeResult(cfg, fields, eng, net(i))
    requires before == base + Collected(urls, Results(cfg, fields, eng, net), clock, i)
    requires after == if result.Dict? then before + [Stamp(result.entries, urls[i], clock(i))] else before
    ensures after == base + Collected(urls, Results(cfg, fields, eng, net), clock, i + 1)
  {
  }

  /** The positions among the first n URLs that yield a record, in order. */
  function Kept(results: nat -> Value, n: nat): seq<nat>
  {
    if n == 0 then []
    else Kept(results, n - 1) + (if results(n - 1).Dict? then [n - 1] else [])
  }

  /** The positions among the first n URLs that are skipped. */
  function Skipped(results: nat -> Value, n: nat): set<nat>
  {
    set i: nat | i < n && !results(i).Dict?
  }

  /** Records come in URL order, one per URL that was not skipped, each
      stamped with its own URL and time. */
  lemma BatchOrderAndStamps(urls: seq<string>, results: nat -> Value, clock: nat -> string, n: nat)
    requires n <= |urls|
    ensures var recs := Collected(urls, results, clock, n);
      var kept := Kept(results, n);
      |recs| == |kept|
      && (forall j :: 0 <= j < |kept| ==> kept[j] < n)
      && (forall j, j' :: 0 <= j < j' < |kept| ==> kept[j] < kept[j'])
      && (forall i :: 0 <= i < n ==> (i in kept <==> results(i).Dict?))
      && (forall j :: 0 <= j < |kept| ==>
            recs[j] == Stamp(results(kept[j]).entries, urls[kept[j]], clock(kept[j])))
  {
    KeptInOrder(results, n);
    CollectedFollowsKept(urls, results, clock, n);
  }

  /** The kept positions are the positions below n whose result is a dict,
      in increasing order. */
  lemma {:induction false} KeptInOrder(results: nat -> Value, n: nat)
    ensures var kept := Kept(results, n);
      (forall j :: 0 <= j < |kept| ==> kept[j] < n)
      && (forall j, j' :: 0 <= j < j' < |kept| ==> kept[j] < kept[j'])
      && (forall i :: 0 <= i < n ==> (i in kept <==> results(i).Dict?))
  {
    if n > 0 {
      KeptInOrder(results, n - 1);
    }
  }

  /** The j-th record is the stamped dict of the j-th kept position. */
  lemma {:induction false} CollectedFollowsKept(urls: seq<string>, results: nat -> Value, clock: nat -> string, n: nat)
    requires n <= |urls|
    ensures var recs := Collected(urls, results, clock, n);
      var kept := Kept(results, n);
      |recs| == |kept|
      && forall j :: 0 <= j < |kept| ==>
           kept[j] < n && results(kept[j]).Dict?
           && recs[j] == Stamp(results(kept[j]).entries, urls[kept[j]], clock(kept[j]))
  {
    if n > 0 {
      CollectedFollowsKept(urls, results, clock, n - 1);
    }
  }

  /** The number of records is the number of URLs minus the skipped ones. */
  lemma {:induction false} BatchCount(urls: seq<string>, results: nat -> Value, clock: nat -> string, n: nat)
    requires n <= |urls|
    ensures |Collected(urls, results, clock, n)| == n - |Skipped(results, n)|
  {
    if n > 0 {
      BatchCount(urls, results, clock, n - 1);
      var prev := Skipped(results, n - 1);
      var now := Skipped(results, n);
      if results(n - 1).Dict? {
        assert now == prev;
      } else {
        assert now == prev + {n - 1};
      }
    } else {
      assert Skipped(results, 0) == {};
    }
  }

  /** Without an API endpoint no URL is ever skipped. */
  lemma NoEndpointNoSkips(cfg: Config, fields: FieldConfig, eng: Engine, urls: seq<string>,
                          net: nat -> Fetch, clock: nat -> string)
    requires "api_endpoint" !in cfg
    ensures |Collected(urls, Results(cfg, fields, eng, net), clock, |urls|)| == |urls|
  {
    var results := Results(cfg, fields, eng, net);
    forall i: nat | i < |urls| ensures results(i).Dict? {
      NoEndpointNoApi(cfg, fields, eng, net(i), net(i).api);
    }
    assert Skipped(results, |urls|) == {};
    BatchCount(urls, results, clock, |urls|);
  }

  class FlexibleWebScraper {
    var config: Config
    var data: seq<Record>

    /** `FlexibleWebScraper(config_file)`, given the already loaded config. */
    constructor (loaded: Config)
      ensures config == loaded && data == []
    {
      config := loaded;
      data := [];
    }

    /** `scrape_with_multiple_methods(url, field_config)`, where `fetch` is
        what the browser, the HTTP client and the API answer for that URL. */
    method ScrapeWithMultipleMethods(fields: FieldConfig, eng: Engine, fetch: Fetch) returns (result: Value)
      ensures result == ScrapeResult(config, fields, eng, fetch)
    {
      var extractedData: Record := map[];

      // Method 1: Selenium
      ghost var sel := SeleniumAttempt(fields, eng, fetch.browser);
      if fetch.browser.Rendered? {
        var ext := ExtractWithConfig(fetch.browser.page, fields, Selenium, eng);
        assert sel == ext.ToOption();
        if ext.Ok? {
          extractedData := ext.value;
          if IsExtractionSuccessful(config, extractedData, eng) == Some(true) {
            return Dict(extractedData);
          }
        }
      }
      assert extractedData == if sel.Some? then sel.value else map[];
      assert !(sel.Some? && Passes(config, sel.value, eng));

      // Method 2: Requests, only on status 200
      ghost var req := RequestsAttempt(fields, eng, fetch.http);
      if fetch.http.Response? && fetch.http.status == 200 {
        var ext := ExtractWithConfig(fetch.http.page, fields, Requests, eng);
        assert req == ext.ToOption();
        if ext.Ok? {
          extractedData := ext.value;
          if IsExtractionSuccessful(config, extractedData, eng) == Some(true) {
            return Dict(extractedData);
          }
        }
      }
      assert extractedData == if req.Some? then req.value else if sel.Some? then sel.value else map[];
      assert !(req.Some? && Passes(config, req.value, eng));

      // Method 3: the API endpoint, when configured
      ghost var api := ApiAttempt(config, fetch.api);
      if "api_endpoint" in config {
        var apiData := TryApiExtraction(config, fetch.api);
        assert api == apiData.ToOption();
        if apiData.Ok? && Truthy(apiData.value) {
          return apiData.value;
        }
      }
      assert !(api.Some? && Truthy(api.value));

      result := Dict(extractedData);
    }

    /** `bulk_scrape_urls(url_list, field_config)`: `net(i)` is what the world
        answers for the i-th URL and `clock(i)` the time it is stamped with. */
    method BulkScrapeUrls(urls: seq<string>, fields: FieldConfig, eng: Engine,
                          net: nat -> Fetch, clock: nat -> string)
      modifies this`data
      ensures data == old(data) + Collected(urls, Results(config, fields, eng, net), clock, |urls|)
    {
      for i := 0 to |urls|
        invariant data == old(data) + Collected(urls, Results(config, fields, eng, net), clock, i)
      {
        var result := ScrapeWithMultipleMethods(fields, eng, net(i));
        ghost var before := data;
        if result.Dict? {
          data := data + [Stamp(result.entries, urls[i], clock(i))];
        }
        BatchStep(config, fields, eng, net, urls, clock, i, result, old(data), before, data);
      }
    }
  }
}
