# GFS forecast web app: a verified model of its core

The repository downloads raw GFS weather-model output (GRIB files) from the
NOMADS filter service, caches it on disk by run and horizon, upsamples one
raster band for plotting, and serves the rendered charts in a small Dash web
viewer. This Dafny project models the logic at the centre of that flow and
proves what it promises:

- **Request checks and cache addressing** (`project/raw_data_visualization.py`,
  module `Visualization`). `gfs_get_raw_data` does three type checks, then
  four value checks. Then it derives the cache directory
  `data/gfs/<date>/<hh>z`, the file name `gfs.pgrb2.0p25.f<fff>` and the
  filter URL. Python's dynamic arguments are a `Value` datatype, and the
  exceptions are an `Exception` datatype that records which check failed.
  The download is a method on a `Cache` class whose fields (the directories
  and the bytes of each file) it updates. The network is a function
  parameter `fetch` from URL to response body, or to `None` when
  `requests.get` raises.
- **The download loop** of `gfs_download_newest_data` over `FORECAST_HOURS`.
  It is a `for` loop whose invariant ties the cache to a specification
  function `StoreAll`.
- **The block-replication upsampler** `matrix_resize` (module `Upsampler`).
  It fills a zero `array2` in place, block by block, in nested loops. Both
  iterations of the module share it. The extractor
  `gfs_prepare_raw_data_as_array` (module `Extraction`) reads the cached
  file's band and upsamples it by the fixed factor 50.
- **The band and chart tables** and `choose_levels`, with the chart dispatch
  of `gfs_visualize_gradient_map` (module `Tables`).
- **The earlier iteration**, root `raw_data_visualization.py` (module
  `RootVisualization`). It builds the same address and URL with no checks.
- **The web viewer** `project/web_app.py` (module `WebApp`): the dropdown
  callbacks, the selection text, the image route it encodes, and the
  traversal guard and path split of `serve_image` that decode the route.

Two shared modules support these:

- `Decimal` models Python's `str(n)` and the `{n:0w}` zero-padded format,
  with a digit parser as their inverse.
- `Addressing` holds the address and URL formatting once. It also has two
  readers used as partners: `ParseAddress` reads an address back, and
  `QueryParams` splits a URL into its query parameters.

Where the docstrings or the tests expect more than the code does, the model
follows the code:

- The date is only checked for length 8. Its characters are never checked,
  although the docstring asks for the format "YYYYMMDD"
  (project/raw_data_visualization.py:95) and the test at
  tests/test_dataVisualisations.py:37 expects `ValueError` for "d0200811".
- The extent is only checked with `len(extent) == 4`, and its items are then
  read with `extent[0]` to `extent[3]`. They are not checked to be numbers,
  although the docstring asks for a `List[int]`
  (project/raw_data_visualization.py:98). A tuple of four items, or a dict
  whose keys are exactly 0 to 3, is accepted.
- `choose_levels` raises `KeyError`, not the `ValueError` that
  tests.py:13 and tests/test_dataVisualisations.py:15 expect, on an unknown
  name.
- The hour check comes before the extent check, so the call at
  tests/test_dataVisualisations.py:39 and tests.py:21 (hour 10, extent `5`)
  raises the hour's `ValueError`, not the expected `TypeError`.

## Model

| member | source | states |
|---|---|---|
| Decimal.ZeroPadRoundTrip | project/raw_data_visualization.py:123-124 | for `0 <= n < 10^w`, the `{:0w}` field of `n` is exactly `w` digits long and parses back to `n` |
| Decimal.ZeroPadInjective | project/raw_data_visualization.py:123-124 | two values in range have the same zero-padded field exactly when they are equal |
| Decimal.ParseDigits | project/raw_data_visualization.py:133 | `str(n)` of a non-negative `n` is all digits and reads back as `n` |
| Decimal.RenderedIntsAreNumerals | project/raw_data_visualization.py:133 | `str(n)` and `{n:0w}` hold only digits and `-` for any integer, so an int extent item never carries a `&` into the URL |
| Decimal.Str | project/raw_data_visualization.py:133 | `str(n)` of an extent item: sign, then the digits of the magnitude (no contract of its own; Decimal.ParseDigits and Decimal.RenderedIntsAreNumerals state what it gives) |
| Decimal.ZeroPad | project/raw_data_visualization.py:123-124 | the `{:0w}` field: sign, zeros up to the width, digits (no contract of its own; Decimal.ZeroPadRoundTrip states what it gives) |
| Addressing.CacheDir | project/raw_data_visualization.py:123 | `data/gfs/<date>/<hh>z` (no contract of its own; read back by Addressing.ParseAddress in Addressing.AddressRoundTrip) |
| Addressing.FileName | project/raw_data_visualization.py:124 | `gfs.pgrb2.0p25.f<fff>` (no contract of its own; Addressing.FileNamesDistinct and Addressing.AddressRoundTrip) |
| Addressing.FilterUrl | project/raw_data_visualization.py:133 | the filter endpoint, `?`, and the nine fields joined by `&` (no contract of its own; Addressing.FilterUrlParams reads it back) |
| Addressing.AddressRoundTrip | project/raw_data_visualization.py:123-124 | for an 8-character date, an hour in 0..99 and a horizon in 0..999, the cache address parses back to exactly that date, hour and horizon |
| Addressing.FileNamesDistinct | project/raw_data_visualization.py:124 | horizons in 0..999 get the same file name exactly when they are equal |
| Addressing.FilterUrlParams | project/raw_data_visualization.py:133 | when the date and extent strings hold no `&`, the filter URL's query is exactly the nine parameters `file`, `all_lev`, `all_var`, `subregion`, `leftlon`, `rightlon`, `toplat`, `bottomlat`, `dir`, in that order, with the hour as 2 digits, the horizon as 3 digits and the extent items in order |
| Upsampler.MatrixResize | project/raw_data_visualization.py:166-178 | the result has each input dimension multiplied by `factor`, and every cell `(r, c)` holds `data[r / factor, c / factor]`; factor 0 gives the empty grid; the input is not written; the earlier copy in the root `raw_data_visualization.py` (lines 74-86) has the same code |
| Upsampler.BlockIndex | project/raw_data_visualization.py:176 | output index `r` lies in the slice `[i*factor, (i+1)*factor)` exactly when `r / factor == i`, so the blocks are disjoint and cover every index |
| Upsampler.BlocksTile | raw_data_visualization.py:82-84 | every output index lies in the block of `r / factor` and in no other block |
| Upsampler.FillBlock | project/raw_data_visualization.py:176 | the slice assignment gives every cell of the block the value and leaves every other cell as it was |
| Upsampler.FillBand | project/raw_data_visualization.py:174-176 | one pass of the outer loop: when the output rows above source row `i`'s band already replicate their source cells, the inner loop over the columns extends this to the rows of that band |
| Upsampler.ResizeCheckerboard | tests/test_dataVisualisations.py:42-45 | `[[0,1],[1,0]]` with factor 2 becomes the 4x4 grid of 2x2 blocks that the test expects |
| LocalCache.Cache.Prepare | project/raw_data_visualization.py:126-131 | before the request, the run directory exists and any old file at the address is gone; no other file changes; a cache whose files all lie in created directories (`Valid`) stays so |
| LocalCache.Cache.Write | project/raw_data_visualization.py:140-149 | the response body is written in full at the address and no other file or directory changes; the status is whether the file has any bytes; a cache whose files all lie in created directories (`Valid`) stays so |
| LocalCache.Cache.ListDir | project/raw_data_visualization.py:260 | `len(os.listdir(path))`: the number of distinct file names cached under the directory (no contract of its own; used by Visualization.DownloadNewestData) |
| LocalCache.StoreResponse | project/raw_data_visualization.py:129-144 | the files after one accepted download: the old file is removed, and written back with the body only when a response came (no contract of its own; used by the download contracts) |
| LocalCache.DownloadOutcome | project/raw_data_visualization.py:139-149 | an accepted download returns the status of the written file, or the exception of `requests.get` (no contract of its own; used by the download contracts) |
| Extraction.PrepareRawDataAsArray | project/raw_data_visualization.py:181-200 | succeeds exactly when the cache holds a non-empty file at the address built from the date, hour and horizon and GDAL can read band `band` from it; otherwise `AttributeError` on the `None` that `gdal.Open` or `GetRasterBand` returned; the grid is the band upsampled by 50; the earlier copy in the root `raw_data_visualization.py` (lines 89-108) builds the same address and uses the same factor |
| Tables.LevelCount | project/raw_data_visualization.py:57-68 | the length of `np.arange(start, stop, step)` is the least count whose last level reaches `stop` |
| Tables.ChooseLevels | project/raw_data_visualization.py:50-89 | a failure is `KeyError` of the name itself, and a success needs the name in both lookups |
| Tables.ChooseLevelsDomain | project/raw_data_visualization.py:50-89 | `choose_levels` succeeds exactly on the eight names of its tables and raises `KeyError` on any other name |
| Tables.ChartStyle | project/raw_data_visualization.py:211-219 | the four extent reads come first, and their failure is the call's failure; a success is only for a chart of `CHARTS` that is not a wind chart |
| Tables.ChartStyleOutcome | project/raw_data_visualization.py:211-219 | with an extent whose items 0 to 3 can be read: wind charts raise `NotImplementedError`, unknown charts raise `KeyError` at `CHARTS`, and every other chart gets the levels and colormap of its band |
| Tables.ChartBandsExist | project/raw_data_visualization.py:15-41 | every band a chart names, alone or as a u/v pair, has a band number |
| Tables.BandNumbersDistinct | project/raw_data_visualization.py:15-28 | no two variables share a band number |
| Tables.WindChartsArePairs | project/raw_data_visualization.py:30-41 | the two wind charts tested at line 216 are exactly the charts whose target is a u/v pair |
| Tables.LevelTablesCoverCharts | project/raw_data_visualization.py:56-84 | both lookups of `choose_levels` have the same keys, and these cover every single-band chart |
| Tables.TemperatureLevels | tests/test_dataVisualisations.py:9-12 | `choose_levels("Temperature 2m")` gives 72 levels from -30 and the `jet` colormap |
| Tables.ForecastHoursSchedule | project/raw_data_visualization.py:43-47 | the 43 horizons step by 6 hours up to +120 h, then by 12 hours up to +384 h |
| Tables.ForecastHoursAscending | project/raw_data_visualization.py:43-47 | the horizons rise strictly from 0 to 384, and all of them lie in 0..392 |
| Visualization.PlanRequest | project/raw_data_visualization.py:101-133 | every failure is a `TypeError` (explicit, or from `len()` or indexing), a `ValueError` or a `KeyError`; a request is only made for a string date, int hour and horizon and an extent whose items 0 to 3 can be read, and it is cached at the address of that date, hour and horizon |
| Python.ItemStrs | project/raw_data_visualization.py:118-121 | `extent[0]` to `extent[n-1]` read in order: all succeed, giving each item's `str()`, or the first read that raises gives its exception |
| Visualization.ExtentReadable | project/raw_data_visualization.py:114-121 | an extent passes the length check and the four reads exactly when it is a string, list or tuple of length 4, or a dict whose keys are exactly 0 to 3 |
| Visualization.AcceptedArguments | project/raw_data_visualization.py:101-121 | the accepted calls are exactly these: a string date of length 8, an int hour in {0, 6, 12, 18}, an int horizon in 0..392, and an extent that is a string, list or tuple of length 4 or a dict whose keys are exactly 0 to 3 |
| Visualization.TypeChecksFirst | project/raw_data_visualization.py:101-121 | a wrong type for date, hour or horizon raises the `TypeError` of the first such argument, whatever the values; with the types right, a failure is a `ValueError`, the `TypeError` of `len()` on an extent without a length, or, for an extent of length 4, `KeyError` of a key 0 to 3 that a dict lacks or the `TypeError` of indexing a set |
| Visualization.AcceptedRequest | project/raw_data_visualization.py:118-133 | an accepted request's address parses back to its date, hour and horizon; when neither the date nor a string extent holds `&`, its URL's query carries the hour, the horizon, the four extent items in order and the date |
| Visualization.TestSuiteCalls | tests/test_dataVisualisations.py:32-40 | the outcome of the calls at lines 32-36 and 38-40 as the code answers them (line 37 is Visualization.NonNumericDateAccepted); the call at line 39 gets the hour's `ValueError`, not the expected `TypeError`; two more calls with the valid hour 12 reach the extent's own checks |
| Visualization.NonNumericDateAccepted | tests/test_dataVisualisations.py:37 | the date `"d0200811"` is accepted, because its characters are not checked |
| Visualization.GetRawData | project/raw_data_visualization.py:92-149 | a refused call raises its check's exception and leaves the cache untouched; an accepted one creates the run directory and removes the old file; if `requests.get` raises, the exception escapes with the file gone; otherwise the response is stored at the address and the status says whether it had bytes |
| Visualization.PolandRequestAccepted | project/raw_data_visualization.py:108-115 | with `EXTENT_POLAND` and any horizon in 0..392, only the date-length and hour checks can fail |
| Visualization.PolandBatchDistinct | project/raw_data_visualization.py:265-266 | the 43 requests of one run are cached at pairwise distinct addresses |
| Visualization.StoreAllContents | project/raw_data_visualization.py:265-266 | when the addresses are distinct, after the requests every request's file is present exactly when it got a response and then holds it, and every other file is as before |
| Visualization.Answered | project/raw_data_visualization.py:265-266 | the number of leading requests that got a response: all before it did, and the one at it (if any) raised |
| Visualization.Statuses | project/raw_data_visualization.py:265-266 | for requests that all got a response: one status per request, in order; the `k`-th says whether the `k`-th response had bytes |
| Visualization.BatchStep | project/raw_data_visualization.py:265-266 | one more pass of the loop applies the next request's outcome over the files so far |
| Visualization.StatusStep | project/raw_data_visualization.py:265-266 | a pass that is still among the answered ones (`k < Answered`) keeps every earlier request answered and appends its own status |
| Visualization.DownloadHorizon | project/raw_data_visualization.py:265-266 | one pass of the loop: `gfs_get_raw_data` for the `k`-th horizon over Poland either refuses the date or hour, with nothing touched, or creates the directory and applies that horizon's outcome: its response stored, or its file removed and the request's exception raised |
| Visualization.DownloadHorizons | project/raw_data_visualization.py:264-266 | the loop either raises the date or hour `ValueError` on its first call, with the cache untouched, or downloads the horizons in order: when every request gets a response the files are `StoreAll` of the batch and the result lists each horizon's status (`Statuses`); when request `n` raises first, the files are `StoreAll` of the first `n + 1` requests and the exception escapes |
| Visualization.DownloadNewestData | project/raw_data_visualization.py:259-266 | if the run directory exists and holds 43 entries, nothing changes; otherwise the loop runs as above, including a stop at the first request that raises |
| Visualization.AcquireThenPrepare | project/raw_data_visualization.py:139-197 | after an accepted download, the exception of `requests.get` escapes first; otherwise the extractor succeeds exactly when the response had bytes and GDAL could read the band, and then returns a grid 50 times larger in each dimension whose cell `(r, c)` is the band's cell `(r / 50, c / 50)`; the cache ends with the run directory created and the response stored at the address, or the old file removed when the request raised |
| RootVisualization.PlanRequest | raw_data_visualization.py:14-38 | the earlier `gfs_get_raw_data` refuses nothing except an extent shorter than four items, which raises `IndexError` |
| RootVisualization.RequestContents | raw_data_visualization.py:23-38 | any date, hour and horizon flow into the request; the address parses back when the fields fit; the query carries `extent[0..3]` as leftlon, rightlon, toplat, bottomlat, in that order |
| RootVisualization.AgreesWithProject | raw_data_visualization.py:14-38 | wherever the current iteration accepts, the earlier one builds the same address and URL; the earlier one also builds requests that the current one refuses |
| RootVisualization.GetRawData | raw_data_visualization.py:14-57 | a short extent raises before anything is touched; otherwise the run directory exists, the old file is removed, and either the exception of `requests.get` escapes or the file holds the response to the URL |
| WebApp.Lookup | project/web_app.py:85 | `d[key]` finds a value exactly when `key` is among the keys, and it is the value of the first pair with that key (the only one in a Python dict) |
| WebApp.Options | project/web_app.py:85 | one option per item, in order, each with label and value equal to the item |
| WebApp.UpdateForecastDropdown | project/web_app.py:84-85 | fails, with `KeyError` of the day, exactly when the day is not in the catalogue |
| WebApp.UpdateChartDropdown | project/web_app.py:92-93 | the day is looked up before the forecast; each raises its own `KeyError` when missing |
| WebApp.DropdownChain | project/web_app.py:80-93 | a day's forecast options list its forecasts in order, and every offered forecast leads to options for exactly its chart files, in order |
| WebApp.HasDotDotIff | project/web_app.py:112 | the `".." in img_path` scan holds exactly when two adjacent characters are both `.` |
| WebApp.Replace | project/web_app.py:114 | `replace` keeps the length and changes exactly the occurrences of the target character |
| WebApp.DecodeKeepsDots | project/web_app.py:114 | decoding leaves no `-`, keeps every `.` in place, and contains `..` exactly when the route did |
| WebApp.ServeImage | project/web_app.py:111-116 | refuses, naming the path, exactly when it contains `..`; otherwise the directory is `base_dir` plus at most 17 decoded characters, and these with the name rebuild the decoded path |
| WebApp.UpdateImageSrc | project/web_app.py:107-108 | the image route: the static route, then day, `12z`, forecast and chart joined by `-` (no contract of its own; WebApp.ImageRouteRoundTrip states how `serve_image` reads it back) |
| WebApp.Decode | project/web_app.py:114 | `img_path.replace('-', '/')` (no contract of its own; WebApp.DecodeKeepsDots and WebApp.RouteDecodes state what it does) |
| WebApp.RoutedPath | project/web_app.py:110 | the route matches exactly when it is the static route followed by one non-empty segment without `/`, and the `<img_path>` is that segment |
| WebApp.SetDisplayChildren | project/web_app.py:100-101 | the placeholder text appears exactly when no chart is selected; otherwise the text gives the catalogue path of the selection |
| WebApp.ImageRouteRoundTrip | project/web_app.py:107-116 | for an 8-character day and a 3-character forecast, with no `-`, `/` or `..` in the parts, the image route is matched, passes the guard, and `serve_image` sends the chart's file from a directory that, joined with it, is the catalogue path `CataloguePath` of the selection |
| WebApp.ServeRoute | project/web_app.py:111-116 | `serve_image` splits the path of such a route after the forecast's `/` |

## Left out

- Network access is left out: `requests.get`, streaming the response to disk, and the regex scraping of the NOMADS listing pages. What `requests.get` yields for a URL is the value of the `fetch` parameter: the response body, or `None` when it raises. An exception while the body is streamed into the file is not modelled. The newest date and hour found by scraping are parameters of `DownloadNewestData`.
- The `DIRNAME` prefix of cache paths is left out; addresses are relative to it. The web viewer's `base_dir` is a parameter.
- The filesystem is an abstract `Cache`: a set of created directories and a map from address to file bytes.
- LocalCache.Cache.ListDir counts the files cached under a directory. `os.listdir` would also count sub-directories and foreign files.
- GRIB decoding is left out. What GDAL reads as band `band` of the cached file is an `Option<array2<int>>` parameter of the extractor: `None` when the bytes are not a GRIB message or lack the band. Which byte strings GDAL accepts is therefore the caller's choice, except that a missing or empty file always fails. Band metadata, the printing and `gfs_scan_bands` are not modelled.
- Python values are modelled as far as the checks look at them. A list, tuple or one-dimensional array holds ints, and a dict maps int keys to ints plus a count of keys that equal no int. An extent item that is not an int, such as a float, a string or a bool, is not modelled, and neither is its `str()`.
- RootVisualization.PlanRequest takes the extent as a list of ints, the type the earlier iteration annotates. An extent of another type is not modelled there: an int raises `TypeError` at `extent[0]`, a dict without the key 0 raises `KeyError`, a tuple is accepted. Such extents are modelled for the current iteration in Visualization.PlanRequest. The date, hour and horizon are likewise taken with their annotated types (`str`, `int`, `int`); another type, such as `hour=None`, raises `TypeError` at the `{:02}` and `{:03}` formats (raw_data_visualization.py:28-29), and that failure is not modelled.
- Cell values are integers, not numpy float64.
- The `convolve` box smoothing is not modelled (floating point, library-defined boundaries). Extraction.PrepareRawDataAsArray ends at the upsampled grid.
- Upsampler.MatrixResize takes a `nat` factor. A negative factor, which makes numpy raise, is out of its domain; both iterations only pass 50.
- Drawing is not modelled: matplotlib, Basemap, meshgrid, the contour rendering and the float `linspace`. `gfs_visualize_gradient_map` is modelled up to the levels and colormap it picks (Tables.ChartStyle).
- Tables.LevelCount counts `np.arange` levels over exact reals, not floats.
- The Dash layout and callback wiring are not modelled. Flask routing is modelled only as the static prefix followed by one non-empty segment without `/`; `send_from_directory` is not modelled.
- The catalogue `charts` built by `glob` at import time is a parameter. So is `helper_path`.
- Module-level script code and the `__main__` blocks are not modelled.
- Printed messages are not modelled. The saved-or-empty outcome they report is the `Download` status.
- Some test expectations describe behaviour the code does not have, so they are not modelled: a digit check on the date; a `TypeError` for extent `5` with hour 10 (the hour check fires first); a `ValueError` from `choose_levels`; factor checks in `matrix_resize`; `ValueError`s from `gfs_prepare_raw_data_as_array` for bad arguments (the code fails only when GDAL cannot open the file or read the band); and the functions `gfs_build_visualization_map` and `prepare_basemap_pickle` and the constant `BASE_DIR`, which do not exist in the code.
- The scraped hour is `int(...)` of two characters, and `date` is the last 8 characters of a URL. Both are taken as given.
