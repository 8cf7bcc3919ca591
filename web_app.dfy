/**
 * `project/web_app.py`: the Dash viewer over the rendered charts. The
 * catalogue `charts` (day -> forecast -> chart file names, built by
 * globbing the picture directory) is a parameter here, an ordered
 * dictionary as Python keeps it. Modelled are the dropdown callbacks, the
 * selection text, the image route the viewer encodes, and the path logic
 * of `serve_image` that decodes it again.
 */
module WebApp {
  import opened Wrappers
  import opened Python

  /**
   * An insertion-ordered Python `dict` with string keys. A Python dict
   * holds each key once; the model does not rule out repeats, and
   * `Lookup` then finds the first.
   */
  type Dict<V> = seq<(string, V)>

  /** The catalogue: day -> forecast -> chart file names. */
  type Charts = Dict<Dict<seq<string>>>

  /** The keys of a dictionary, in insertion order. */
  function Keys<V>(d: Dict<V>): (ks: seq<string>)
    ensures |ks| == |d|
    ensures forall i :: 0 <= i < |d| ==> ks[i] == d[i].0
  {
    if d == [] then [] else [d[0].0] + Keys(d[1..])
  }

  /** `d[key]`: the value stored under `key`, or `None` where Python raises `KeyError`. */
  function Lookup<V(==)>(d: Dict<V>, key: string): (v: Option<V>)
    ensures v.Some? <==> key in Keys(d)
    ensures v.Some? ==> exists i :: 0 <= i < |d| && d[i] == (key, v.value) && forall j :: 0 <= j < i ==> d[j].0 != key
  {
    if d == [] then None
    else if d[0].0 == key then Some(d[0].1)
    else
      var rest := Lookup(d[1..], key);
      assert Keys(d) == [d[0].0] + Keys(d[1..]);
      if rest.Some? then
        ghost var i :| 0 <= i < |d[1..]| && d[1..][i] == (key, rest.value) && forall j :: 0 <= j < i ==> d[1..][j].0 != key;
        assert d[i + 1] == (key, rest.value) && forall j :: 0 <= j < i + 1 ==> d[j].0 != key by {
          forall j | 1 <= j < i + 1 ensures d[j].0 != key {
            assert d[j] == d[1..][j - 1];
          }
        }
        rest
      else rest
  }

  /** One entry of a Dash dropdown's `options`. */
  datatype DropdownOption = DropdownOption(caption: string, value: string)

  /** `[{'label': i, 'value': i} for i in xs]`. */
  function Options(xs: seq<string>): (opts: seq<DropdownOption>)
    ensures |opts| == |xs|
    ensures forall i :: 0 <= i < |xs| ==> opts[i].caption == xs[i] && opts[i].value == xs[i]
  {
    if xs == [] then [] else [DropdownOption(xs[0], xs[0])] + Options(xs[1..])
  }

  /**
   * `update_forecast_dropdown(name)`: one option per forecast of the day
   * `name`, in catalogue order, each labelled with its own value; `KeyError`
   * for a day not in the catalogue.
   */
  function UpdateForecastDropdown(charts: Charts, name: string): (r: Result<seq<DropdownOption>, Exception>)
    ensures r.Failure? <==> name !in Keys(charts)
    ensures r.Failure? ==> r.error == KeyError(name)
  {
    match Lookup(charts, name)
    case None => Failure(KeyError(name))
    case Some(forecasts) => Success(Options(Keys(forecasts)))
  }

  /**
   * `update_chart_dropdown(name, day)`: `name` is the forecast and `day`
   * the day (the callback's inputs are in that order). The day is looked
   * up first; one option per chart file, in order.
   */
  function UpdateChartDropdown(charts: Charts, name: string, day: string): (r: Result<seq<DropdownOption>, Exception>)
    ensures day !in Keys(charts) ==> r == Failure(KeyError(day))
    ensures day in Keys(charts) ==> (r.Failure? <==> name !in Keys(Lookup(charts, day).value))
    ensures day in Keys(charts) && r.Failure? ==> r.error == KeyError(name)
  {
    match Lookup(charts, day)
    case None => Failure(KeyError(day))
    case Some(forecasts) =>
      match Lookup(forecasts, name)
      case None => Failure(KeyError(name))
      case Some(pics) => Success(Options(pics))
  }

  /**
   * The dropdowns chain: for a day the day dropdown offers, the forecast
   * dropdown lists that day's forecasts in order, and any forecast it
   * offers leads to a chart dropdown listing that forecast's files in
   * order, each option labelled with its own value.
   */
  lemma DropdownChain(charts: Charts, day: string, k: int)
    requires day in Keys(charts)
    requires 0 <= k < |Lookup(charts, day).value|
    ensures var forecasts := Lookup(charts, day).value;
      && UpdateForecastDropdown(charts, day).Success?
      && |UpdateForecastDropdown(charts, day).value| == |forecasts|
      && UpdateForecastDropdown(charts, day).value[k] == DropdownOption(forecasts[k].0, forecasts[k].0)
      && var pick := UpdateForecastDropdown(charts, day).value[k].value;
         && UpdateChartDropdown(charts, pick, day).Success?
         && var charted := Lookup(forecasts, pick).value;
            |UpdateChartDropdown(charts, pick, day).value| == |charted| &&
            forall m :: 0 <= m < |charted| ==>
              UpdateChartDropdown(charts, pick, day).value[m] == DropdownOption(charted[m], charted[m])
  {
    var forecasts := Lookup(charts, day).value;
    assert Keys(forecasts)[k] == forecasts[k].0;
  }

  /** `static_image_route`. */
  const STATIC_IMAGE_ROUTE: string := "/static/"

  /** Python's f-string rendering of a dropdown value that may be `None`. */
  function Render(v: Option<string>): string {
    match v
    case None => "None"
    case Some(s) => s
  }

  /** `update_image_src(day, forecast, chart)`: the image route of the selection. */
  function UpdateImageSrc(day: string, forecast: string, chart: Option<string>): string {
    STATIC_IMAGE_ROUTE + (day + "-12z-" + forecast + "-" + Render(chart))
  }

  /**
   * The `<img_path>` of a request under the static route: Flask's default
   * `string` converter matches one non-empty path segment, so the rest of
   * the route must be non-empty and hold no `/`.
   */
  function RoutedPath(route: string): (p: Option<string>)
    ensures p.Some? <==>
      |route| > |STATIC_IMAGE_ROUTE| && route[..|STATIC_IMAGE_ROUTE|] == STATIC_IMAGE_ROUTE &&
      '/' !in route[|STATIC_IMAGE_ROUTE|..]
    ensures p.Some? ==> route == STATIC_IMAGE_ROUTE + p.value && p.value != [] && '/' !in p.value
  {
    if |route| > |STATIC_IMAGE_ROUTE| && route[..|STATIC_IMAGE_ROUTE|] == STATIC_IMAGE_ROUTE
       && '/' !in route[|STATIC_IMAGE_ROUTE|..]
    then Some(route[|STATIC_IMAGE_ROUTE|..])
    else None
  }

  /** `".." in s`, as a scan. */
  predicate HasDotDot(s: string) {
    |s| >= 2 && ((s[0] == '.' && s[1] == '.') || HasDotDot(s[1..]))
  }

  /** The scan finds exactly the strings with two adjacent dots somewhere. */
  lemma {:induction false} HasDotDotIff(s: string)
    ensures HasDotDot(s) <==> exists i :: 0 <= i < |s| - 1 && s[i] == '.' && s[i + 1] == '.'
  {
    if |s| >= 2 {
      HasDotDotIff(s[1..]);
      if exists i :: 0 <= i < |s| - 1 && s[i] == '.' && s[i + 1] == '.' {
        var i :| 0 <= i < |s| - 1 && s[i] == '.' && s[i + 1] == '.';
        if i > 0 {
          assert s[1..][i - 1] == '.' && s[1..][i] == '.';
        }
      }
      if HasDotDot(s[1..]) {
        var i :| 0 <= i < |s[1..]| - 1 && s[1..][i] == '.' && s[1..][i + 1] == '.';
        assert s[i + 1] == '.' && s[i + 2] == '.';
      }
    }
  }

  /** Two dots meet in `a + b` only inside one part or across the seam. */
  lemma DotDotAppend(a: string, b: string)
    ensures HasDotDot(a + b) <==>
      HasDotDot(a) || HasDotDot(b) || (|a| > 0 && |b| > 0 && a[|a| - 1] == '.' && b[0] == '.')
  {
    HasDotDotIff(a);
    HasDotDotIff(b);
    HasDotDotIff(a + b);
    var ab := a + b;
    if HasDotDot(ab) {
      var i :| 0 <= i < |ab| - 1 && ab[i] == '.' && ab[i + 1] == '.';
      if i + 1 < |a| {
        assert a[i] == '.' && a[i + 1] == '.';
      } else if i >= |a| {
        assert b[i - |a|] == '.' && b[i - |a| + 1] == '.';
      }
    }
    if HasDotDot(a) {
      var i :| 0 <= i < |a| - 1 && a[i] == '.' && a[i + 1] == '.';
      assert ab[i] == '.' && ab[i + 1] == '.';
    }
    if HasDotDot(b) {
      var i :| 0 <= i < |b| - 1 && b[i] == '.' && b[i + 1] == '.';
      assert ab[|a| + i] == '.' && ab[|a| + i + 1] == '.';
    }
    if |a| > 0 && |b| > 0 && a[|a| - 1] == '.' && b[0] == '.' {
      assert ab[|a| - 1] == '.' && ab[|a|] == '.';
    }
  }

  /** `s.replace(target, replacement)` for single characters: every occurrence, nothing else. */
  function Replace(s: string, target: char, replacement: char): (r: string)
    ensures |r| == |s|
    ensures forall i :: 0 <= i < |s| ==> r[i] == if s[i] == target then replacement else s[i]
  {
    if s == [] then [] else [if s[0] == target then replacement else s[0]] + Replace(s[1..], target, replacement)
  }

  /** `img_path.replace('-', '/')`. */
  function Decode(imgPath: string): string {
    Replace(imgPath, '-', '/')
  }

  /**
   * Decoding leaves no `-`, keeps every `.` where it was, and so keeps the
   * traversal guard's verdict: the decoded path has `..` exactly when the
   * route did.
   */
  lemma DecodeKeepsDots(imgPath: string)
    ensures |Decode(imgPath)| == |imgPath|
    ensures '-' !in Decode(imgPath)
    ensures forall i :: 0 <= i < |imgPath| ==> (Decode(imgPath)[i] == '.' <==> imgPath[i] == '.')
    ensures HasDotDot(Decode(imgPath)) <==> HasDotDot(imgPath)
  {
    var d := Decode(imgPath);
    HasDotDotIff(d);
    HasDotDotIff(imgPath);
    if HasDotDot(d) {
      var i :| 0 <= i < |d| - 1 && d[i] == '.' && d[i + 1] == '.';
      assert imgPath[i] == '.' && imgPath[i + 1] == '.';
    }
    if HasDotDot(imgPath) {
      var i :| 0 <= i < |imgPath| - 1 && imgPath[i] == '.' && imgPath[i + 1] == '.';
      assert d[i] == '.' && d[i + 1] == '.';
    }
    forall i | 0 <= i < |d| ensures d[i] != '-' {
    }
  }

  /** How many characters of the decoded path form the directory part. */
  const DIR_CHARS := 17

  /**
   * The path logic of `serve_image(img_path)`: a route with `..` anywhere is
   * refused before anything is computed; otherwise the decoded path is
   * split after its first 17 characters (fewer when it is shorter, as
   * slicing does) into the directory under `baseDir` and the file name.
   */
  function ServeImage(baseDir: string, imgPath: string): (r: Result<(string, string), Exception>)
    ensures r.Failure? <==> HasDotDot(imgPath)
    ensures r.Failure? ==> r.error == Excluded(imgPath)
    ensures r.Success? ==>
      var (dir, name) := r.value;
      && |baseDir| <= |dir| <= |baseDir| + DIR_CHARS
      && (|dir| == |baseDir| + DIR_CHARS || name == [])
      && dir[..|baseDir|] == baseDir
      && dir[|baseDir|..] + name == Decode(imgPath)
  {
    if HasDotDot(imgPath) then Failure(Excluded(imgPath))
    else
      var decoded := Decode(imgPath);
      var cut := if |decoded| < DIR_CHARS then |decoded| else DIR_CHARS;
      assert (baseDir + decoded[..cut])[|baseDir|..] == decoded[..cut];
      Success((baseDir + decoded[..cut], decoded[cut..]))
  }

  /** Where the catalogue finds a chart: `{base_dir}{day}/12z/{forecast}/{chart}`. */
  function CataloguePath(baseDir: string, day: string, forecast: string, chart: string): string {
    baseDir + day + "/12z/" + forecast + "/" + chart
  }

  /** `set_display_children`'s text when no chart is chosen. */
  const NOT_SELECTED: string := "Path is not selected yet."

  /**
   * `set_display_children(day, forecast, chart)`: the placeholder exactly
   * when no chart is selected; otherwise the catalogue path of the
   * selection after a fixed lead-in.
   */
  function SetDisplayChildren(baseDir: string, day: string, forecast: string, chart: Option<string>): (r: string)
    ensures r == NOT_SELECTED <==> chart.None?
    ensures chart.Some? ==> r == "you have selected path: " + CataloguePath(baseDir, day, forecast, chart.value)
  {
    if chart.None? then NOT_SELECTED
    else
      var r := "you have selected path: " + CataloguePath(baseDir, day, forecast, chart.value);
      assert r[0] != NOT_SELECTED[0];
      r
  }

  lemma {:induction false} ReplaceAppend(a: string, b: string, target: char, replacement: char)
    ensures Replace(a + b, target, replacement) == Replace(a, target, replacement) + Replace(b, target, replacement)
  {
    var l, r := Replace(a + b, target, replacement), Replace(a, target, replacement) + Replace(b, target, replacement);
    assert |l| == |r|;
    forall i | 0 <= i < |l| ensures l[i] == r[i] {
      if i < |a| {
        assert (a + b)[i] == a[i];
      } else {
        assert (a + b)[i] == b[i - |a|];
      }
    }
  }

  lemma ReplaceAbsent(s: string, target: char, replacement: char)
    requires target !in s
    ensures Replace(s, target, replacement) == s
  {
    var r := Replace(s, target, replacement);
    forall i | 0 <= i < |s| ensures r[i] == s[i] {
      assert s[i] in s;
    }
  }

  /**
   * The viewer's route and the server's decoding fit together: for an
   * 8-character day and a 3-character forecast, with no `-`, `/` or `..` in
   * the day, forecast or chart, the route `update_image_src` builds is
   * matched by the static route, passes the traversal guard, and
   * `serve_image` sends the chart's file from the directory that, joined
   * with it, is the catalogue path of the selection.
   */
  lemma ImageRouteRoundTrip(baseDir: string, day: string, forecast: string, chart: string)
    requires |day| == 8 && |forecast| == 3
    requires '-' !in day && '-' !in forecast && '-' !in chart
    requires '/' !in day && '/' !in forecast && '/' !in chart
    requires !HasDotDot(day) && !HasDotDot(forecast) && !HasDotDot(chart)
    ensures RoutedPath(UpdateImageSrc(day, forecast, Some(chart))).Some?
    ensures var imgPath := RoutedPath(UpdateImageSrc(day, forecast, Some(chart))).value;
      && ServeImage(baseDir, imgPath).Success?
      && ServeImage(baseDir, imgPath).value.1 == chart
      && ServeImage(baseDir, imgPath).value.0 + ServeImage(baseDir, imgPath).value.1
         == CataloguePath(baseDir, day, forecast, chart)
  {
    var imgPath := day + "-12z-" + forecast + "-" + chart;
    assert '/' !in imgPath by {
      assert '/' !in "-12z-" && '/' !in "-";
    }
    RoutedPathOfRoute(imgPath);
    ServeRoute(baseDir, day, forecast, chart);
  }

  /** A route under the static route yields the rest as `<img_path>` when it is one non-empty segment. */
  lemma RoutedPathOfRoute(imgPath: string)
    requires imgPath != [] && '/' !in imgPath
    ensures RoutedPath(STATIC_IMAGE_ROUTE + imgPath) == Some(imgPath)
  {
    var route := STATIC_IMAGE_ROUTE + imgPath;
    assert route[..|STATIC_IMAGE_ROUTE|] == STATIC_IMAGE_ROUTE;
    assert route[|STATIC_IMAGE_ROUTE|..] == imgPath;
  }

  /** `serve_image` on the `<img_path>` of an image route. */
  lemma ServeRoute(baseDir: string, day: string, forecast: string, chart: string)
    requires |day| == 8 && |forecast| == 3
    requires '-' !in day && '-' !in forecast && '-' !in chart
    requires !HasDotDot(day) && !HasDotDot(forecast) && !HasDotDot(chart)
    ensures ServeImage(baseDir, day + "-12z-" + forecast + "-" + chart) ==
      Success((baseDir + day + "/12z/" + forecast + "/", chart))
  {
    var imgPath := day + "-12z-" + forecast + "-" + chart;
    RouteHasNoDotDot(day, forecast, chart);
    RouteDecodes(day, forecast, chart);
    var dir := day + "/12z/" + forecast + "/";
    var decoded := Decode(imgPath);
    assert decoded == dir + chart;
    assert |dir| == DIR_CHARS;
    assert decoded[..DIR_CHARS] == dir;
    assert decoded[DIR_CHARS..] == chart;
    assert ServeImage(baseDir, imgPath) == Success((baseDir + decoded[..DIR_CHARS], decoded[DIR_CHARS..]));
    assert baseDir + dir == baseDir + day + "/12z/" + forecast + "/";
  }

  /** Every seam of an image route has a `-` on one side, so no two dots meet there. */
  lemma RouteHasNoDotDot(day: string, forecast: string, chart: string)
    requires !HasDotDot(day) && !HasDotDot(forecast) && !HasDotDot(chart)
    ensures !HasDotDot(day + "-12z-" + forecast + "-" + chart)
  {
    assert !HasDotDot("-12z-") && !HasDotDot("-");
    DotDotAppend(day, "-12z-");
    DotDotAppend(day + "-12z-", forecast);
    DotDotAppend(day + "-12z-" + forecast, "-");
    DotDotAppend(day + "-12z-" + forecast + "-", chart);
  }

  /** Decoding an image route turns exactly its three separators into `/`. */
  lemma RouteDecodes(day: string, forecast: string, chart: string)
    requires '-' !in day && '-' !in forecast && '-' !in chart
    ensures Decode(day + "-12z-" + forecast + "-" + chart) == day + "/12z/" + forecast + "/" + chart
  {
    ReplaceAppend(day + "-12z-" + forecast + "-", chart, '-', '/');
    ReplaceAppend(day + "-12z-" + forecast, "-", '-', '/');
    ReplaceAppend(day + "-12z-", forecast, '-', '/');
    ReplaceAppend(day, "-12z-", '-', '/');
    ReplaceAbsent(day, '-', '/');
    ReplaceAbsent(forecast, '-', '/');
    ReplaceAbsent(chart, '-', '/');
    assert Replace("-12z-", '-', '/') == "/12z/";
    assert Replace("-", '-', '/') == "/";
  }
}
