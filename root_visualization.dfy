/**
 * The root `raw_data_visualization.py`, the earlier iteration of the same
 * module: `gfs_get_raw_data` reads the four extent items and derives the
 * cache address and filter URL with no argument checks at all. The
 * upsampler (`Upsampler.MatrixResize`) and the extractor
 * (`Extraction.PrepareRawDataAsArray`, fixed factor 50) are shared with the
 * current iteration, whose code for them is the same.
 */
module RootVisualization {
  import opened Wrappers
  import opened Python
  import opened Decimal
  import opened Addressing
  import opened LocalCache
  import Visualization

  /**
   * `gfs_get_raw_data` up to the download. The only way it can fail before
   * the download is `extent[k]` on a list shorter than four, which raises
   * `IndexError` before the directory is created.
   */
  function PlanRequest(date: string, hour: int, forecast: int, extent: seq<int>): (r: Result<Request, Exception>)
    ensures r.Success? <==> |extent| >= 4
    ensures r.Failure? ==> r.error == IndexError
  {
    if |extent| < 4 then Failure(IndexError)
    else
      Success(Request(
        CacheAddress(date, hour, forecast),
        FilterUrl(date, hour, forecast, Str(extent[0]), Str(extent[1]), Str(extent[2]), Str(extent[3]))))
  }

  /**
   * No validation: any date, hour and horizon and any extent of at least four
   * items flow into the request. The address reads back whenever the hour
   * and horizon fit their two- and three-digit fields and the date has
   * eight characters; the URL's query carries the first four extent items
   * as leftlon, rightlon, toplat, bottomlat, in that order (items past the
   * fourth are ignored), as long as the date holds no `&`.
   */
  lemma RequestContents(date: string, hour: int, forecast: int, extent: seq<int>)
    requires |extent| >= 4
    ensures var q := PlanRequest(date, hour, forecast, extent).value;
      && (|date| == 8 && 0 <= hour < 100 && 0 <= forecast < 1000 ==>
            ParseAddress(q.address) == Some((date, hour, forecast)))
      && ('&' !in date ==>
            QueryParams(q.url) ==
              [ ("file", "gfs.t" + ZeroPad(hour, 2) + "z.pgrb2.0p25.f" + ZeroPad(forecast, 3)),
                ("all_lev", "on"), ("all_var", "on"), ("subregion", ""),
                ("leftlon", Str(extent[0])), ("rightlon", Str(extent[1])),
                ("toplat", Str(extent[2])), ("bottomlat", Str(extent[3])),
                ("dir", "%2Fgfs." + date + "%2F" + ZeroPad(hour, 2)) ])
  {
    if |date| == 8 && 0 <= hour < 100 && 0 <= forecast < 1000 {
      AddressRoundTrip(date, hour, forecast);
    }
    if '&' !in date {
      forall k | 0 <= k < 4 ensures '&' !in Str(extent[k]) {
        RenderedIntsAreNumerals(extent[k], 0);
      }
      FilterUrlParams(date, hour, forecast, Str(extent[0]), Str(extent[1]), Str(extent[2]), Str(extent[3]));
    }
  }

  /**
   * The two iterations agree wherever the current one accepts: a request
   * the current `gfs_get_raw_data` lets through gets the same address and
   * URL from the earlier one. The converse fails: the earlier one also
   * builds requests for dates, hours and horizons the current one refuses.
   */
  lemma AgreesWithProject(date: string, hour: int, forecast: int, extent: seq<int>)
    ensures Visualization.PlanRequest(PyStr(date), PyInt(hour), PyInt(forecast), PyIntList(extent)).Success? ==>
      Visualization.PlanRequest(PyStr(date), PyInt(hour), PyInt(forecast), PyIntList(extent)) ==
        PlanRequest(date, hour, forecast, extent)
    ensures |extent| >= 4 && (|date| != 8 || hour !in Visualization.HOURS || !(0 <= forecast <= 392)) ==>
      Visualization.PlanRequest(PyStr(date), PyInt(hour), PyInt(forecast), PyIntList(extent)).Failure? &&
      PlanRequest(date, hour, forecast, extent).Success?
  {
  }

  /**
   * `gfs_get_raw_data` against the cache: an extent shorter than four
   * raises before anything is touched; otherwise the run directory exists
   * afterwards and the old file is removed. When `requests.get` raises
   * (`fetch` gives `None`) the exception escapes; otherwise the file holds
   * the response body and the status says whether it was empty.
   */
  method GetRawData(cache: Cache, date: string, hour: int, forecast: int, extent: seq<int>,
                    fetch: string -> Option<Bytes>)
    returns (r: Result<Download, Exception>)
    modifies cache
    ensures |extent| < 4 ==> r == Failure(IndexError) && unchanged(cache)
    ensures |extent| >= 4 ==>
      var q := PlanRequest(date, hour, forecast, extent).value;
      && cache.dirs == old(cache.dirs) + {CacheDir(date, hour)}
      && cache.files == StoreResponse(old(cache.files), CacheAddress(date, hour, forecast), fetch(q.url))
      && r == DownloadOutcome(fetch(q.url))
  {
    var plan := PlanRequest(date, hour, forecast, extent);
    if plan.Failure? {
      return Failure(plan.error);
    }
    cache.Prepare(plan.value.address);
    var response := fetch(plan.value.url);
    if response.None? {
      return Failure(RequestException);
    }
    var status := cache.Write(plan.value.address, response.value);
    r := Success(status);
  }
}
