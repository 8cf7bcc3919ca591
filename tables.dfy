/**
 * The constant tables of `project/raw_data_visualization.py` — `BANDS`,
 * `CHARTS`, `FORECAST_HOURS`, `EXTENT_POLAND` and the two lookups inside
 * `choose_levels` — and the chart dispatch at the top of
 * `gfs_visualize_gradient_map`, with the facts that make them consistent.
 */
module Tables {
  import opened Wrappers
  import opened Python

  /** GRIB band number of each variable the app reads. */
  const BANDS: map<string, int> := map[
    "Wind gust ground" := 11,
    "u-component 250hPa" := 146,
    "v-component 250hPa" := 147,
    "Temperature 2m" := 415,
    "Dew point 2m" := 417,
    "u-component 10m" := 420,
    "v-component 10m" := 421,
    "Precipitation ground" := 424,
    "LI surface" := 432,
    "CAPE surface" := 433,
    "CIN surface" := 434,
    "Pressure sea lvl" := 520
  ]

  /** What a chart draws: one band, or the u/v pair of a wind field (a Python list). */
  datatype Target = Band(name: string) | Wind(u: string, v: string)

  const CHARTS: map<string, Target> := map[
    "Wind gust ground" := Band("Wind gust ground"),
    "Wind 250hPa" := Wind("u-component 250hPa", "v-component 250hPa"),
    "Temperature 2m" := Band("Temperature 2m"),
    "Dew point 2m" := Band("Dew point 2m"),
    "Wind 10m" := Wind("u-component 10m", "v-component 10m"),
    "Precipitation ground" := Band("Precipitation ground"),
    "LI surface" := Band("LI surface"),
    "CAPE surface" := Band("CAPE surface"),
    "CIN surface" := Band("CIN surface"),
    "Pressure sea lvl" := Band("Pressure sea lvl")
  ]

  /** The charts `gfs_visualize_gradient_map` refuses with `NotImplementedError`. */
  const WIND_CHARTS: seq<string> := ["Wind 250hPa", "Wind 10m"]

  /** The forecast horizons (hours) the downloader fetches, in order. */
  const FORECAST_HOURS: seq<int> := [
    0, 6, 12, 18, 24, 30, 36, 42, 48, 54,
    60, 66, 72, 78, 84, 90, 96, 102, 108, 114,
    120, 132, 144, 156, 168, 180, 192, 204, 216, 228,
    240, 252, 264, 276, 288, 300, 312, 324, 336, 348,
    360, 372, 384
  ]

  /** `[left_lon, right_lon, top_lat, bottom_lat]` of Poland. */
  const EXTENT_POLAND: seq<int> := [13, 25, 56, 48]

  /** `np.arange(start, stop, step)`, kept symbolic. */
  datatype Levels = Arange(start: real, stop: real, step: real)

  /** A colormap name, or (for wind gusts, as written) an arange used in its place. */
  datatype Cmap = Named(name: string) | LevelsAsCmap(levels: Levels)

  /** `arrange_levels` of `choose_levels` (the wind components are commented out there). */
  const ARRANGE_LEVELS: map<string, Levels> := map[
    "Wind gust ground" := Arange(5.0, 50.0, 1.0),
    "Temperature 2m" := Arange(-30.0, 42.0, 1.0),
    "Dew point 2m" := Arange(-30.0, 42.0, 1.0),
    "Precipitation ground" := Arange(0.0, 100.0, 1.0),
    "LI surface" := Arange(-11.0, 12.0, 0.5),
    "CAPE surface" := Arange(100.0, 4000.0, 100.0),
    "CIN surface" := Arange(-300.0, 0.0, 5.0),
    "Pressure sea lvl" := Arange(900.0, 1150.0, 2.0)
  ]

  /** `arrange_cmap` of `choose_levels`. */
  const ARRANGE_CMAP: map<string, Cmap> := map[
    "Wind gust ground" := LevelsAsCmap(Arange(5.0, 50.0, 1.0)),
    "Temperature 2m" := Named("jet"),
    "Dew point 2m" := Named("jet"),
    "Precipitation ground" := Named("BuPu"),
    "LI surface" := Named("RdBu_r"),
    "CAPE surface" := Named("PuRd"),
    "CIN surface" := Named("BuPu_r"),
    "Pressure sea lvl" := Named("cool_r")
  ]

  /** `len(np.arange(start, stop, step))` for a positive step: `ceil((stop - start) / step)`, at least 0. */
  function LevelCount(l: Levels): (n: nat)
    requires l.step > 0.0
    ensures l.start + (n as real) * l.step >= l.stop
    ensures n > 0 ==> l.start + ((n - 1) as real) * l.step < l.stop
  {
    var q := (l.stop - l.start) / l.step;
    if q <= 0.0 then 0
    else
      var n := -((-q).Floor);
      assert (n - 1) as real < q <= n as real;
      assert l.start + q * l.step == l.stop;
      assert ((n - 1) as real) * l.step < q * l.step <= (n as real) * l.step;
      assert l.start + ((n - 1) as real) * l.step < l.stop;
      n
  }

  /** `choose_levels(band)`: both lookups, each raising `KeyError` on an unknown name. */
  function ChooseLevels(band: string): (r: Result<(Levels, Cmap), Exception>)
    ensures r.Failure? ==> r == Failure(KeyError(band))
    ensures r.Success? ==> band in ARRANGE_LEVELS && band in ARRANGE_CMAP
  {
    if band !in ARRANGE_LEVELS then Failure(KeyError(band))
    else if band !in ARRANGE_CMAP then Failure(KeyError(band))
    else Success((ARRANGE_LEVELS[band], ARRANGE_CMAP[band]))
  }

  /**
   * The part of `gfs_visualize_gradient_map` before any drawing: the four
   * extent reads, then the chart dispatch (wind charts are not implemented,
   * `CHARTS[chart]` raises `KeyError` for an unknown chart), then
   * `choose_levels` of the chart's band.
   */
  function ChartStyle(extent: Value, chart: string): (r: Result<(Levels, Cmap), Exception>)
    ensures ItemStrs(extent, 4).Failure? ==> r == Failure(ItemStrs(extent, 4).error)
    ensures r.Success? ==> ItemStrs(extent, 4).Success? && chart in CHARTS && chart !in WIND_CHARTS
  {
    if ItemStrs(extent, 4).Failure? then Failure(ItemStrs(extent, 4).error)
    else if chart in WIND_CHARTS then Failure(NotImplementedError)
    else if chart !in CHARTS then Failure(KeyError(chart))
    else match CHARTS[chart]
      case Band(name) => ChooseLevels(name)
      case Wind(_, _) => Failure(Unhashable)
  }

  // ---------------------------------------------------------------------
  // Consistency of the tables

  /** Every band a chart names, alone or as a u/v pair, has a band number. */
  lemma ChartBandsExist()
    ensures forall chart :: chart in CHARTS ==>
      match CHARTS[chart]
      case Band(name) => name in BANDS
      case Wind(u, v) => u in BANDS && v in BANDS
  {
  }

  /** No two variables share a band number. */
  lemma BandNumbersDistinct()
    ensures forall a, b :: a in BANDS && b in BANDS && BANDS[a] == BANDS[b] ==> a == b
  {
  }

  /** The wind charts are exactly the charts whose target is a u/v pair. */
  lemma WindChartsArePairs()
    ensures forall chart :: chart in CHARTS ==> (CHARTS[chart].Wind? <==> chart in WIND_CHARTS)
    ensures forall chart :: chart in WIND_CHARTS ==> chart in CHARTS
  {
  }

  /** The two lookups of `choose_levels` have the same keys, and every single-band chart is among them. */
  lemma LevelTablesCoverCharts()
    ensures ARRANGE_LEVELS.Keys == ARRANGE_CMAP.Keys
    ensures forall chart :: chart in CHARTS && CHARTS[chart].Band? ==> CHARTS[chart].name in ARRANGE_LEVELS
  {
  }

  /**
   * `choose_levels` succeeds exactly on the names of its tables, and raises
   * `KeyError` (not `ValueError`) on any other name.
   */
  lemma ChooseLevelsDomain(band: string)
    ensures ChooseLevels(band).Success? <==> band in ARRANGE_LEVELS
    ensures ChooseLevels(band).Failure? ==> ChooseLevels(band).error == KeyError(band)
  {
    LevelTablesCoverCharts();
  }

  /**
   * With an extent whose items 0 to 3 can be read, the dispatch of
   * `gfs_visualize_gradient_map` refuses wind charts with
   * `NotImplementedError`, refuses an unknown chart with `KeyError` at the
   * `CHARTS` lookup, and otherwise returns the levels and colormap of the
   * chart's band: `choose_levels` itself never fails on a chart of `CHARTS`.
   */
  lemma ChartStyleOutcome(extent: Value, chart: string)
    requires ItemStrs(extent, 4).Success?
    ensures chart in WIND_CHARTS ==> ChartStyle(extent, chart) == Failure(NotImplementedError)
    ensures chart !in WIND_CHARTS && chart !in CHARTS ==> ChartStyle(extent, chart) == Failure(KeyError(chart))
    ensures chart !in WIND_CHARTS && chart in CHARTS ==>
      CHARTS[chart].Band? && CHARTS[chart].name in ARRANGE_LEVELS &&
      ChartStyle(extent, chart) == Success((ARRANGE_LEVELS[CHARTS[chart].name], ARRANGE_CMAP[CHARTS[chart].name]))
  {
    WindChartsArePairs();
    LevelTablesCoverCharts();
  }

  /** The test of `choose_levels("Temperature 2m")`: 72 levels from -30 and the `jet` colormap. */
  lemma TemperatureLevels()
    ensures ChooseLevels("Temperature 2m") == Success((Arange(-30.0, 42.0, 1.0), Named("jet")))
    ensures LevelCount(Arange(-30.0, 42.0, 1.0)) == 72
  {
  }

  // ---------------------------------------------------------------------
  // The forecast schedule

  /** Every 6 hours up to +120 h, then every 12 hours up to +384 h. */
  function ScheduledHour(k: nat): int {
    if k <= 20 then 6 * k else 120 + 12 * (k - 20)
  }

  /** `FORECAST_HOURS` is the schedule: 43 horizons, step 6 to +120 h, then step 12 to +384 h. */
  lemma ForecastHoursSchedule()
    ensures |FORECAST_HOURS| == 43
    ensures forall k :: 0 <= k < |FORECAST_HOURS| ==> FORECAST_HOURS[k] == ScheduledHour(k)
  {
  }

  /**
   * The horizons strictly increase from 0 to 384, so the download loop
   * visits each once, in ascending order, and each passes the horizon
   * check `0 <= forecast <= 392`.
   */
  lemma ForecastHoursAscending()
    ensures FORECAST_HOURS[0] == 0 && FORECAST_HOURS[|FORECAST_HOURS| - 1] == 384
    ensures forall k, m :: 0 <= k < m < |FORECAST_HOURS| ==> FORECAST_HOURS[k] < FORECAST_HOURS[m]
    ensures forall k :: 0 <= k < |FORECAST_HOURS| ==> 0 <= FORECAST_HOURS[k] <= 392
  {
    ForecastHoursSchedule();
  }
}
