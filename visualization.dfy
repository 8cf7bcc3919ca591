/**
 * `project/raw_data_visualization.py`, the current iteration: the argument
 * checks of `gfs_get_raw_data` and the address and URL it derives, the
 * download itself against the cache, the loop of
 * `gfs_download_newest_data`, and the read-back in
 * `gfs_prepare_raw_data_as_array`.
 */
module Visualization {
  import opened Wrappers
  import opened Python
  import opened Decimal
  import opened Addressing
  import opened LocalCache
  import opened Tables
  import opened Extraction

  /** The run hours `gfs_get_raw_data` accepts. */
  const HOURS: seq<int> := [0, 6, 12, 18]

  /**
   * `gfs_get_raw_data` up to the download: the three type checks, then the
   * four value checks, each raising on the first failure; `len(extent)` on
   * a value without a length raises `TypeError` from the built-in. Then
   * `extent[0]` to `extent[3]` are read in order (a dict may lack one of
   * the keys, a set cannot be indexed), and the cache address and the
   * filter URL are formed.
   */
  function PlanRequest(date: Value, hour: Value, forecast: Value, extent: Value): (r: Result<Request, Exception>)
    ensures r.Failure? ==> IsTypeError(r.error) || r.error.ValueError? || r.error.KeyError?
    ensures r.Success? ==>
      && date.PyStr? && hour.PyInt? && forecast.PyInt? && ItemStrs(extent, 4).Success?
      && r.value.address == CacheAddress(date.s, hour.i, forecast.i)
  {
    if !date.PyStr? then Failure(TypeError(DateType))
    else if !hour.PyInt? then Failure(TypeError(HourType))
    else if !forecast.PyInt? then Failure(TypeError(ForecastType))
    else if |date.s| != 8 then Failure(ValueError(DateLength))
    else if hour.i !in HOURS then Failure(ValueError(HourValue))
    else if !(0 <= forecast.i < 393) then Failure(ValueError(ForecastValue))
    else if Len(extent).Failure? then Failure(Len(extent).error)
    else if Len(extent).value != 4 then Failure(ValueError(ExtentLength))
    else if ItemStrs(extent, 4).Failure? then Failure(ItemStrs(extent, 4).error)
    else
      var e := ItemStrs(extent, 4).value;
      Success(Request(CacheAddress(date.s, hour.i, forecast.i),
                      FilterUrl(date.s, hour.i, forecast.i, e[0], e[1], e[2], e[3])))
  }

  /** The extents whose length is 4 and whose items 0 to 3 can all be read. */
  predicate FourItems(extent: Value) {
    || (extent.PyStr? && |extent.s| == 4)
    || (extent.PyIntList? && |extent.items| == 4)
    || (extent.PyIntDict? && extent.entries.Keys == {0, 1, 2, 3} && extent.otherKeys == 0)
  }

  /** A dict of length 4 that holds the keys 0 to 3 holds nothing else. */
  lemma DictOfFourKeys(m: map<int, int>, others: nat)
    requires |m| + others == 4 && 0 in m && 1 in m && 2 in m && 3 in m
    ensures m.Keys == {0, 1, 2, 3} && others == 0
  {
    var keys := {0, 1, 2, 3};
    assert |keys| == 4;
    assert keys <= m.Keys;
    var rest := m.Keys - keys;
    assert m.Keys == keys + rest;
    assert |m.Keys| == |keys| + |rest|;
    assert rest == {};
  }

  /** An extent reads as four items exactly when `FourItems` holds. */
  lemma ExtentReadable(extent: Value)
    ensures (Len(extent) == Success(4) && ItemStrs(extent, 4).Success?) <==> FourItems(extent)
  {
    if Len(extent) == Success(4) && ItemStrs(extent, 4).Success? && extent.PyIntDict? {
      assert ItemStr(extent, 0).Success? && ItemStr(extent, 1).Success?;
      assert ItemStr(extent, 2).Success? && ItemStr(extent, 3).Success?;
      DictOfFourKeys(extent.entries, extent.otherKeys);
    }
    if FourItems(extent) {
      assert forall k :: 0 <= k < 4 ==> ItemStr(extent, k).Success?;
      if extent.PyIntDict? {
        assert |extent.entries| == |extent.entries.Keys| == |{0, 1, 2, 3}| == 4;
      }
    }
  }

  /**
   * The arguments accepted are exactly: a string date of 8 characters (its
   * characters are not checked), an int hour in {0, 6, 12, 18}, an int
   * horizon in 0..392, and an extent that is a string, list or tuple of
   * length 4, or a dict whose keys are exactly 0 to 3.
   */
  lemma AcceptedArguments(date: Value, hour: Value, forecast: Value, extent: Value)
    ensures PlanRequest(date, hour, forecast, extent).Success? <==>
      && date.PyStr? && |date.s| == 8
      && hour.PyInt? && hour.i in {0, 6, 12, 18}
      && forecast.PyInt? && 0 <= forecast.i <= 392
      && FourItems(extent)
  {
    ExtentReadable(extent);
  }

  /**
   * Type checks come first: if any of date, hour or horizon has the wrong
   * type, the call raises the `TypeError` of the first such argument,
   * whatever the values. Once the types are right, a failure is a
   * `ValueError`, or the `TypeError` of `len()` on an extent without a
   * length, or, for an extent of length 4, the failure of reading its
   * items: `KeyError` of a dict without one of the keys 0 to 3, or the
   * `TypeError` of indexing a set.
   */
  lemma TypeChecksFirst(date: Value, hour: Value, forecast: Value, extent: Value)
    ensures !date.PyStr? ==> PlanRequest(date, hour, forecast, extent) == Failure(TypeError(DateType))
    ensures date.PyStr? && !hour.PyInt? ==> PlanRequest(date, hour, forecast, extent) == Failure(TypeError(HourType))
    ensures date.PyStr? && hour.PyInt? && !forecast.PyInt? ==>
      PlanRequest(date, hour, forecast, extent) == Failure(TypeError(ForecastType))
    ensures date.PyStr? && hour.PyInt? && forecast.PyInt? && PlanRequest(date, hour, forecast, extent).Failure? ==>
      var e := PlanRequest(date, hour, forecast, extent).error;
      || e.ValueError?
      || (e == NoLength && Len(extent).Failure?)
      || (Len(extent) == Success(4) &&
          ((extent.PyIntDict? && e.KeyError? && exists k :: 0 <= k < 4 && k !in extent.entries && e.key == Str(k)) ||
           (extent.PySet? && e == NotSubscriptable)))
  {
    var r := PlanRequest(date, hour, forecast, extent);
    if date.PyStr? && hour.PyInt? && forecast.PyInt? && r.Failure? && !r.error.ValueError? && Len(extent) == Success(4) {
      var k :| 0 <= k < 4 && ItemStr(extent, k) == Failure(r.error);
      assert ItemStr(extent, k).Failure?;
    }
  }

  /**
   * What an accepted request addresses: the address reads back as the
   * run date, hour and horizon (two- and three-digit fields), and the URL's
   * query carries the run hour and horizon, then the extent items as
   * leftlon, rightlon, toplat, bottomlat in that order, then the date —
   * as long as neither the date nor a string extent contains `&`.
   */
  lemma AcceptedRequest(date: string, hour: int, forecast: int, extent: Value)
    requires PlanRequest(PyStr(date), PyInt(hour), PyInt(forecast), extent).Success?
    ensures var q := PlanRequest(PyStr(date), PyInt(hour), PyInt(forecast), extent).value;
      && ParseAddress(q.address) == Some((date, hour, forecast))
      && ('&' !in date && (extent.PyStr? ==> '&' !in extent.s) ==>
          var e := ItemStrs(extent, 4).value;
          QueryParams(q.url) ==
            [ ("file", "gfs.t" + ZeroPad(hour, 2) + "z.pgrb2.0p25.f" + ZeroPad(forecast, 3)),
              ("all_lev", "on"), ("all_var", "on"), ("subregion", ""),
              ("leftlon", e[0]), ("rightlon", e[1]), ("toplat", e[2]), ("bottomlat", e[3]),
              ("dir", "%2Fgfs." + date + "%2F" + ZeroPad(hour, 2)) ])
  {
    AddressRoundTrip(date, hour, forecast);
    if '&' !in date && (extent.PyStr? ==> '&' !in extent.s) {
      var e := ItemStrs(extent, 4).value;
      ExtentItemsPlain(extent);
      FilterUrlParams(date, hour, forecast, e[0], e[1], e[2], e[3]);
    }
  }

  /** The four readable items of an extent hold no `&` unless a string extent does. */
  lemma ExtentItemsPlain(extent: Value)
    requires ItemStrs(extent, 4).Success?
    requires extent.PyStr? ==> '&' !in extent.s
    ensures forall k :: 0 <= k < 4 ==> '&' !in ItemStrs(extent, 4).value[k]
  {
    var e := ItemStrs(extent, 4).value;
    forall k | 0 <= k < 4 ensures '&' !in e[k] {
      assert ItemStr(extent, k).Success?;
      match extent
      case PyStr(s) =>
        assert s[k] in s;
      case PyIntList(xs) =>
        RenderedIntsAreNumerals(xs[k], 0);
      case PyIntDict(m, _) =>
        RenderedIntsAreNumerals(m[k], 0);
    }
  }

  /**
   * The calls of the test suite, as the code answers them. Two expectations
   * there are not met: an extent of `5` with hour 10 raises the hour's
   * `ValueError`, not a `TypeError`, because the hour is checked before the
   * extent (`NonNumericDateAccepted` holds the other). With the valid hour
   * 12 instead, the last two extents reach their own checks.
   */
  lemma TestSuiteCalls()
    ensures PlanRequest(PyInt(20200816), PyInt(12), PyInt(0), PyIntList(EXTENT_POLAND)) == Failure(TypeError(DateType))
    ensures PlanRequest(PyStr("20200816"), PyStr("12"), PyInt(0), PyIntList(EXTENT_POLAND)) == Failure(TypeError(HourType))
    ensures PlanRequest(PyStr("20200816"), PyInt(12), PyStr("0"), PyIntList(EXTENT_POLAND)) == Failure(TypeError(ForecastType))
    ensures PlanRequest(PyStr("20200816"), PyInt(1), PyInt(0), PyIntList(EXTENT_POLAND)) == Failure(ValueError(HourValue))
    ensures PlanRequest(PyStr("2020081"), PyInt(0), PyInt(0), PyIntList(EXTENT_POLAND)) == Failure(ValueError(DateLength))
    ensures PlanRequest(PyStr("20200816"), PyInt(0), PyInt(400), PyIntList(EXTENT_POLAND)) == Failure(ValueError(ForecastValue))
    ensures PlanRequest(PyStr("20200816"), PyInt(10), PyInt(0), PyInt(5)) == Failure(ValueError(HourValue))
    ensures PlanRequest(PyStr("20200816"), PyInt(10), PyInt(0), PyIntList([5, 10])) == Failure(ValueError(HourValue))
    ensures PlanRequest(PyStr("20200816"), PyInt(12), PyInt(0), PyInt(5)) == Failure(NoLength)
    ensures PlanRequest(PyStr("20200816"), PyInt(12), PyInt(0), PyIntList([5, 10])) == Failure(ValueError(ExtentLength))
  {
  }

  /** The test suite expects a `ValueError` for the date "d0200811"; the code does not check digits. */
  lemma NonNumericDateAccepted()
    ensures PlanRequest(PyStr("d0200811"), PyInt(0), PyInt(0), PyIntList(EXTENT_POLAND)).Success?
  {
    AcceptedArguments(PyStr("d0200811"), PyInt(0), PyInt(0), PyIntList(EXTENT_POLAND));
  }

  /**
   * `gfs_get_raw_data`: a call whose checks fail raises before touching the
   * cache. An accepted one creates the run directory and removes the old
   * file at its address; then `fetch` stands for `requests.get` of its URL.
   * When that raises (`None`), the exception escapes and the file stays
   * removed; otherwise the response is written at the address and the
   * status says whether it had any bytes.
   */
  method GetRawData(cache: Cache, date: Value, hour: Value, forecast: Value, extent: Value,
                    fetch: string -> Option<Bytes>)
    returns (r: Result<Download, Exception>)
    modifies cache
    ensures PlanRequest(date, hour, forecast, extent).Failure? ==>
      r == Failure(PlanRequest(date, hour, forecast, extent).error) && unchanged(cache)
    ensures PlanRequest(date, hour, forecast, extent).Success? ==>
      var q := PlanRequest(date, hour, forecast, extent).value;
      && cache.dirs == old(cache.dirs) + {q.address.dir}
      && cache.files == StoreResponse(old(cache.files), q.address, fetch(q.url))
      && r == DownloadOutcome(fetch(q.url))
  {
    var plan := PlanRequest(date, hour, forecast, extent);
    if plan.Failure? {
      return Failure(plan.error);
    }
    cache.Prepare(plan.value.address);
    var response := fetch(plan.value.url);
    if response.None? {
      return Failure(RequestException);
    }
    var status := cache.Write(plan.value.address, response.value);
    r := Success(status);
  }

  // ---------------------------------------------------------------------
  // gfs_download_newest_data

  /** The request `gfs_download_newest_data` issues for one horizon of a run over Poland. */
  function PolandRequest(date: string, hour: int, forecast: int): Request {
    Request(CacheAddress(date, hour, forecast),
            FilterUrl(date, hour, forecast, Str(EXTENT_POLAND[0]), Str(EXTENT_POLAND[1]), Str(EXTENT_POLAND[2]), Str(EXTENT_POLAND[3])))
  }

  /** The requests of the download loop, one per horizon of `FORECAST_HOURS`, in order. */
  function PolandBatch(date: string, hour: int): (batch: seq<Request>)
    ensures |batch| == |FORECAST_HOURS|
  {
    seq(|FORECAST_HOURS|, k requires 0 <= k < |FORECAST_HOURS| => PolandRequest(date, hour, FORECAST_HOURS[k]))
  }

  /** The cache files after each request of `requests` has been made, in order. */
  function StoreAll(files: map<Address, Bytes>, requests: seq<Request>, fetch: string -> Option<Bytes>): map<Address, Bytes> {
    if requests == [] then files
    else
      var last := requests[|requests| - 1];
      StoreResponse(StoreAll(files, requests[..|requests| - 1], fetch), last.address, fetch(last.url))
  }

  /**
   * When no two requests share an address, every request's file is present
   * exactly when its request got a response, and then holds that response
   * (no later request overwrites an earlier one); every other file is as
   * before.
   */
  lemma {:induction false} StoreAllContents(files: map<Address, Bytes>, requests: seq<Request>,
                                            fetch: string -> Option<Bytes>)
    requires forall k, m :: 0 <= k < m < |requests| ==> requests[k].address != requests[m].address
    ensures forall k :: 0 <= k < |requests| ==>
      (requests[k].address in StoreAll(files, requests, fetch) <==> fetch(requests[k].url).Some?) &&
      (fetch(requests[k].url).Some? ==>
         StoreAll(files, requests, fetch)[requests[k].address] == fetch(requests[k].url).value)
    ensures forall a :: (forall k :: 0 <= k < |requests| ==> a != requests[k].address) ==>
      (a in StoreAll(files, requests, fetch) <==> a in files) &&
      (a in files ==> StoreAll(files, requests, fetch)[a] == files[a])
  {
    if requests != [] {
      var init := requests[..|requests| - 1];
      StoreAllContents(files, init, fetch);
      assert forall k :: 0 <= k < |init| ==> init[k] == requests[k];
    }
  }

  /** How many requests of `requests`, from the first, got a response before one raised. */
  function Answered(requests: seq<Request>, fetch: string -> Option<Bytes>): (n: nat)
    ensures n <= |requests|
    ensures forall k :: 0 <= k < n ==> fetch(requests[k].url).Some?
    ensures n < |requests| ==> fetch(requests[n].url).None?
  {
    if requests == [] || fetch(requests[0].url).None? then 0
    else
      var n := 1 + Answered(requests[1..], fetch);
      assert forall k :: 1 <= k < |requests| ==> requests[1..][k - 1] == requests[k];
      n
  }

  /** Where the loop stands at request `k`, not past the answered ones: it is the first to raise, or one more is answered. */
  lemma AnsweredAt(requests: seq<Request>, k: int, fetch: string -> Option<Bytes>)
    requires 0 <= k < |requests| && k <= Answered(requests, fetch)
    ensures fetch(requests[k].url).None? ==> k == Answered(requests, fetch)
    ensures fetch(requests[k].url).Some? ==> k < Answered(requests, fetch)
  {
  }

  /** Every request of `requests` got a response. */
  predicate AllAnswered(requests: seq<Request>, fetch: string -> Option<Bytes>) {
    forall k :: 0 <= k < |requests| ==> fetch(requests[k].url).Some?
  }

  /** The status reported for each request of `requests`, in order: whether its response had bytes. */
  function Statuses(requests: seq<Request>, fetch: string -> Option<Bytes>): (statuses: seq<Download>)
    requires AllAnswered(requests, fetch)
    ensures |statuses| == |requests|
    ensures forall k :: 0 <= k < |requests| ==> statuses[k] == StatusOf(fetch(requests[k].url).value)
  {
    if requests == [] then []
    else Statuses(requests[..|requests| - 1], fetch) + [StatusOf(fetch(requests[|requests| - 1].url).value)]
  }

  /** One more request of a batch applies its response on top of the earlier ones. */
  lemma BatchStep(files: map<Address, Bytes>, requests: seq<Request>, k: int, fetch: string -> Option<Bytes>)
    requires 0 <= k < |requests|
    ensures StoreAll(files, requests[..k + 1], fetch) ==
      StoreResponse(StoreAll(files, requests[..k], fetch), requests[k].address, fetch(requests[k].url))
  {
    assert requests[..k + 1][..k] == requests[..k];
  }

  /** One more answered request of a batch adds its status after the earlier ones. */
  lemma StatusStep(requests: seq<Request>, k: int, fetch: string -> Option<Bytes>)
    requires 0 <= k < Answered(requests, fetch)
    ensures AllAnswered(requests[..k], fetch) && AllAnswered(requests[..k + 1], fetch)
    ensures Statuses(requests[..k + 1], fetch) == Statuses(requests[..k], fetch) + [StatusOf(fetch(requests[k].url).value)]
  {
    assert requests[..k + 1][..k] == requests[..k];
  }

  /** The horizons of one run are cached under pairwise distinct addresses. */
  lemma PolandBatchDistinct(date: string, hour: int)
    ensures forall k, m :: 0 <= k < m < |FORECAST_HOURS| ==>
      PolandBatch(date, hour)[k].address != PolandBatch(date, hour)[m].address
  {
    ForecastHoursAscending();
    forall k, m | 0 <= k < m < |FORECAST_HOURS|
      ensures PolandBatch(date, hour)[k].address != PolandBatch(date, hour)[m].address
    {
      FileNamesDistinct(FORECAST_HOURS[k], FORECAST_HOURS[m]);
    }
  }

  /** Every horizon in 0..392, with `EXTENT_POLAND`, passes the horizon and extent checks. */
  lemma PolandRequestAccepted(date: string, hour: int, forecast: int)
    requires 0 <= forecast <= 392
    ensures PlanRequest(PyStr(date), PyInt(hour), PyInt(forecast), PyIntList(EXTENT_POLAND)) ==
      if |date| != 8 then Failure(ValueError(DateLength))
      else if hour !in HOURS then Failure(ValueError(HourValue))
      else Success(PolandRequest(date, hour, forecast))
  {
    var e := ItemStrs(PyIntList(EXTENT_POLAND), 4);
    assert e.Success? && e.value == [Str(EXTENT_POLAND[0]), Str(EXTENT_POLAND[1]), Str(EXTENT_POLAND[2]), Str(EXTENT_POLAND[3])];
  }

  /** Horizon `k` of the schedule passes the horizon check. */
  lemma HorizonInRange(k: int)
    requires 0 <= k < |FORECAST_HOURS|
    ensures 0 <= FORECAST_HOURS[k] <= 392
  {
    ForecastHoursAscending();
  }

  /**
   * Iteration `k` of the download loop:
   * `gfs_get_raw_data(date, hour, FORECAST_HOURS[k], EXTENT_POLAND)`.
   */
  method DownloadHorizon(cache: Cache, date: string, hour: int, k: int, fetch: string -> Option<Bytes>)
    returns (r: Result<Download, Exception>)
    requires 0 <= k < |PolandBatch(date, hour)|
    modifies cache
    ensures |date| != 8 ==> r == Failure(ValueError(DateLength)) && unchanged(cache)
    ensures |date| == 8 && hour !in HOURS ==> r == Failure(ValueError(HourValue)) && unchanged(cache)
    ensures |date| == 8 && hour in HOURS ==>
      var q := PolandBatch(date, hour)[k];
      && cache.dirs == old(cache.dirs) + {CacheDir(date, hour)}
      && cache.files == StoreResponse(old(cache.files), q.address, fetch(q.url))
      && r == DownloadOutcome(fetch(q.url))
  {
    HorizonInRange(k);
    PolandRequestAccepted(date, hour, FORECAST_HOURS[k]);
    r := GetRawData(cache, PyStr(date), PyInt(hour), PyInt(FORECAST_HOURS[k]), PyIntList(EXTENT_POLAND), fetch);
  }

  /** What `gfs_download_newest_data` ends with. */
  datatype Batch = AlreadyDownloaded | Downloaded(statuses: seq<Download>)

  /**
   * The loop of `gfs_download_newest_data`: `gfs_get_raw_data` for every
   * horizon in ascending order with `EXTENT_POLAND`. The horizon and extent
   * checks never fail there, so either the date or hour is refused on the
   * first call (and the cache is untouched), or the horizons are downloaded
   * in order until one request raises: the horizons before it are stored,
   * its own old file is gone, and the later ones are not attempted.
   */
  method DownloadHorizons(cache: Cache, date: string, hour: int, fetch: string -> Option<Bytes>)
    returns (r: Result<seq<Download>, Exception>)
    modifies cache
    ensures |date| != 8 ==> r == Failure(ValueError(DateLength)) && unchanged(cache)
    ensures |date| == 8 && hour !in HOURS ==> r == Failure(ValueError(HourValue)) && unchanged(cache)
    ensures |date| == 8 && hour in HOURS ==>
      var batch := PolandBatch(date, hour);
      var n := Answered(batch, fetch);
      && cache.dirs == old(cache.dirs) + {CacheDir(date, hour)}
      && (n == |batch| ==>
            cache.files == StoreAll(old(cache.files), batch, fetch) && r == Success(Statuses(batch, fetch)))
      && (n < |batch| ==>
            cache.files == StoreAll(old(cache.files), batch[..n + 1], fetch) && r == Failure(RequestException))
  {
    var batch := PolandBatch(date, hour);
    ghost var dirs0, files0 := cache.dirs, cache.files;
    ghost var n := Answered(batch, fetch);
    var statuses: seq<Download> := [];
    for k := 0 to |batch|
      invariant k <= n
      invariant k == 0 ==> unchanged(cache)
      invariant k > 0 ==> |date| == 8 && hour in HOURS && cache.dirs == dirs0 + {CacheDir(date, hour)}
      invariant cache.files == StoreAll(files0, batch[..k], fetch)
      invariant AllAnswered(batch[..k], fetch)
      invariant statuses == Statuses(batch[..k], fetch)
    {
      BatchStep(files0, batch, k, fetch);
      AnsweredAt(batch, k, fetch);
      var status := DownloadHorizon(cache, date, hour, k, fetch);
      if status.Failure? {
        if status.error != RequestException {
          assert k == 0;
          return Failure(status.error);
        }
        assert k == n;
        return Failure(status.error);
      }
      assert fetch(batch[k].url).Some?;
      StatusStep(batch, k, fetch);
      statuses := statuses + [status.value];
    }
    assert batch[..|batch|] == batch;
    r := Success(statuses);
  }

  /**
   * `gfs_download_newest_data` for the run it found: if the run directory
   * exists and holds as many entries as there are horizons, it does
   * nothing; otherwise it runs the download loop.
   */
  method DownloadNewestData(cache: Cache, date: string, hour: int, fetch: string -> Option<Bytes>)
    returns (r: Result<Batch, Exception>)
    modifies cache
    ensures old(CacheDir(date, hour) in cache.dirs && cache.ListDir(CacheDir(date, hour)) == |FORECAST_HOURS|) ==>
      r == Success(AlreadyDownloaded) && unchanged(cache)
    ensures !old(CacheDir(date, hour) in cache.dirs && cache.ListDir(CacheDir(date, hour)) == |FORECAST_HOURS|) ==>
      if |date| != 8 then r == Failure(ValueError(DateLength)) && unchanged(cache)
      else if hour !in HOURS then r == Failure(ValueError(HourValue)) && unchanged(cache)
      else
        var batch := PolandBatch(date, hour);
        var n := Answered(batch, fetch);
        && cache.dirs == old(cache.dirs) + {CacheDir(date, hour)}
        && (n == |batch| ==>
              cache.files == StoreAll(old(cache.files), batch, fetch) && r == Success(Downloaded(Statuses(batch, fetch))))
        && (n < |batch| ==>
              cache.files == StoreAll(old(cache.files), batch[..n + 1], fetch) && r == Failure(RequestException))
  {
    var dir := CacheDir(date, hour);
    if dir in cache.dirs && cache.ListDir(dir) == |FORECAST_HOURS| {
      return Success(AlreadyDownloaded);
    }
    var statuses := DownloadHorizons(cache, date, hour, fetch);
    if statuses.Failure? {
      return Failure(statuses.error);
    }
    r := Success(Downloaded(statuses.value));
  }

  /**
   * The extractor reads the file the downloader wrote: after an accepted
   * `gfs_get_raw_data`, `gfs_prepare_raw_data_as_array` for the same date,
   * hour and horizon is reached only when the request got a response, and
   * it returns the band upsampled by 50 exactly when that response had
   * bytes and GDAL could read the band from them. The cache ends as the
   * download left it.
   */
  method AcquireThenPrepare(cache: Cache, date: string, hour: int, forecast: int, extent: Value, band: int,
                            fetch: string -> Option<Bytes>, raster: Option<array2<int>>)
    returns (r: Result<array2<int>, Exception>)
    requires PlanRequest(PyStr(date), PyInt(hour), PyInt(forecast), extent).Success?
    modifies cache
    ensures var q := PlanRequest(PyStr(date), PyInt(hour), PyInt(forecast), extent).value;
      && (fetch(q.url).None? ==> r == Failure(RequestException))
      && (fetch(q.url).Some? ==> (r.Success? <==> |fetch(q.url).value| > 0 && raster.Some?))
      && (fetch(q.url).Some? && r.Failure? ==> r.error == AttributeError)
    ensures var q := PlanRequest(PyStr(date), PyInt(hour), PyInt(forecast), extent).value;
      && cache.dirs == old(cache.dirs) + {q.address.dir}
      && cache.files == StoreResponse(old(cache.files), q.address, fetch(q.url))
    ensures r.Success? ==>
      raster.Some? &&
      r.value.Length0 == raster.value.Length0 * 50 && r.value.Length1 == raster.value.Length1 * 50 &&
      forall row, col :: 0 <= row < r.value.Length0 && 0 <= col < r.value.Length1 ==>
        r.value[row, col] == raster.value[row / 50, col / 50]
  {
    var downloaded := GetRawData(cache, PyStr(date), PyInt(hour), PyInt(forecast), extent, fetch);
    if downloaded.Failure? {
      return Failure(downloaded.error);
    }
    r := PrepareRawDataAsArray(cache, date, hour, forecast, band, raster);
  }
}
