/**
 * The local cache address of a raw GRIB file and the NOMADS filter URL it
 * is downloaded from. Both iterations of `raw_data_visualization.py`
 * format these identically; this module holds the formatting once, and a
 * reader for each (the address parsed back into run and horizon, the URL
 * split into its query parameters) to state what the formatting preserves.
 */
module Addressing {
  import opened Wrappers
  import opened Decimal

  /** A cache location: the directory `data/gfs/<date>/<hh>z` and the file name in it. */
  datatype Address = Address(dir: string, file: string)

  /** A request that passed its checks: where the file is cached and the URL it is fetched from. */
  datatype Request = Request(address: Address, url: string)

  const CACHE_ROOT: string := "data/gfs/"
  const FILE_PREFIX: string := "gfs.pgrb2.0p25.f"
  const FILTER_ENDPOINT: string := "https://nomads.ncep.noaa.gov/cgi-bin/filter_gfs_0p25.pl"

  /** `"data/gfs/{}/{:02}z".format(date, hour)` */
  function CacheDir(date: string, hour: int): string {
    CACHE_ROOT + date + "/" + ZeroPad(hour, 2) + "z"
  }

  /** `"gfs.pgrb2.0p25.f{:03}".format(forecast)` */
  function FileName(forecast: int): string {
    FILE_PREFIX + ZeroPad(forecast, 3)
  }

  function CacheAddress(date: string, hour: int, forecast: int): Address {
    Address(CacheDir(date, hour), FileName(forecast))
  }

  /**
   * The `key=value` fields of the filter query, in the order the f-string
   * writes them; the four extent fields arrive already rendered by Python's
   * `str()` of the caller's extent items.
   */
  function FilterFields(date: string, hour: int, forecast: int,
                        leftLon: string, rightLon: string, topLat: string, bottomLat: string): seq<string>
  {
    [ Field("file", "gfs.t" + ZeroPad(hour, 2) + "z.pgrb2.0p25.f" + ZeroPad(forecast, 3)),
      Field("all_lev", "on"), Field("all_var", "on"), Field("subregion", ""),
      Field("leftlon", leftLon), Field("rightlon", rightLon),
      Field("toplat", topLat), Field("bottomlat", bottomLat),
      Field("dir", "%2Fgfs." + date + "%2F" + ZeroPad(hour, 2)) ]
  }

  function Field(key: string, value: string): string {
    key + "=" + value
  }

  /** The filter URL: the endpoint, `?`, and the fields separated by `&`. */
  function FilterUrl(date: string, hour: int, forecast: int,
                     leftLon: string, rightLon: string, topLat: string, bottomLat: string): string
  {
    FILTER_ENDPOINT + "?" + Join(FilterFields(date, hour, forecast, leftLon, rightLon, topLat, bottomLat), '&')
  }

  // ---------------------------------------------------------------------
  // Reading an address back

  /**
   * Reads an address whose date field is 8 characters, hour field 2 digits
   * and horizon field 3 digits back into (date, hour, forecast).
   */
  function ParseAddress(a: Address): Option<(string, nat, nat)> {
    if && |a.dir| == 21 && a.dir[..9] == CACHE_ROOT && a.dir[17] == '/' && a.dir[20] == 'z'
       && AllDigits(a.dir[18..20])
       && |a.file| == 19 && a.file[..16] == FILE_PREFIX && AllDigits(a.file[16..])
    then Some((a.dir[9..17], Parse(a.dir[18..20]), Parse(a.file[16..])))
    else None
  }

  /**
   * For an 8-character date, a two-digit hour and a three-digit horizon, the
   * cache address determines the run and horizon it was built from.
   */
  lemma AddressRoundTrip(date: string, hour: int, forecast: int)
    requires |date| == 8 && 0 <= hour < 100 && 0 <= forecast < 1000
    ensures ParseAddress(CacheAddress(date, hour, forecast)) == Some((date, hour, forecast))
  {
    ZeroPadRoundTrip(hour, 2);
    ZeroPadRoundTrip(forecast, 3);
    var a := CacheAddress(date, hour, forecast);
    assert a.dir[9..17] == date;
    assert a.dir[18..20] == ZeroPad(hour, 2);
    assert a.file[16..] == ZeroPad(forecast, 3);
  }

  /** Distinct horizons of one run are cached under distinct file names. */
  lemma FileNamesDistinct(f1: int, f2: int)
    requires 0 <= f1 < 1000 && 0 <= f2 < 1000
    ensures FileName(f1) == FileName(f2) <==> f1 == f2
  {
    ZeroPadInjective(f1, f2, 3);
    if FileName(f1) == FileName(f2) {
      assert FileName(f1)[16..] == ZeroPad(f1, 3);
      assert FileName(f2)[16..] == ZeroPad(f2, 3);
    }
  }

  // ---------------------------------------------------------------------
  // Reading a URL back into its query parameters

  /** `s.split(sep)` */
  function Split(s: string, sep: char): (parts: seq<string>)
    ensures |parts| >= 1
    decreases |s|
  {
    if s == [] then [""]
    else
      var rest := Split(s[1..], sep);
      if s[0] == sep then [""] + rest else [[s[0]] + rest[0]] + rest[1..]
  }

  /** `sep.join(parts)` */
  function Join(parts: seq<string>, sep: char): string
    requires |parts| >= 1
  {
    if |parts| == 1 then parts[0] else parts[0] + [sep] + Join(parts[1..], sep)
  }

  /** One `key=value` field, split at its first `=`. */
  function Param(field: string): (string, string)
    decreases |field|
  {
    if field == [] then ("", "")
    else if field[0] == '=' then ("", field[1..])
    else
      var kv := Param(field[1..]);
      ([field[0]] + kv.0, kv.1)
  }

  /**
   * The query parameters of a request to the filter endpoint, in order, as
   * the server splits them; a URL for another endpoint has none.
   */
  function QueryParams(url: string): seq<(string, string)> {
    var head := FILTER_ENDPOINT + "?";
    if |head| <= |url| && url[..|head|] == head then
      var fields := Split(url[|head|..], '&');
      seq(|fields|, i requires 0 <= i < |fields| => Param(fields[i]))
    else []
  }

  lemma {:induction false} SplitPrefix(a: string, b: string, sep: char)
    requires sep !in a
    ensures Split(a + [sep] + b, sep) == [a] + Split(b, sep)
    decreases |a|
  {
    if a != [] {
      assert (a + [sep] + b)[1..] == a[1..] + [sep] + b;
      SplitPrefix(a[1..], b, sep);
      assert [a[0]] + a[1..] == a;
    }
  }

  lemma {:induction false} SplitWhole(a: string, sep: char)
    requires sep !in a
    ensures Split(a, sep) == [a]
    decreases |a|
  {
    if a != [] {
      SplitWhole(a[1..], sep);
      assert [a[0]] + a[1..] == a;
    }
  }

  /** Splitting undoes joining when no part contains the separator. */
  lemma {:induction false} SplitJoin(parts: seq<string>, sep: char)
    requires |parts| >= 1
    requires forall i :: 0 <= i < |parts| ==> sep !in parts[i]
    ensures Split(Join(parts, sep), sep) == parts
    decreases |parts|
  {
    if |parts| == 1 {
      SplitWhole(parts[0], sep);
    } else {
      SplitJoin(parts[1..], sep);
      SplitPrefix(parts[0], Join(parts[1..], sep), sep);
    }
  }

  lemma {:induction false} ParamSplit(key: string, value: string)
    requires '=' !in key
    ensures Param(Field(key, value)) == (key, value)
    decreases |key|
  {
    if key != [] {
      assert Field(key, value)[1..] == Field(key[1..], value);
      ParamSplit(key[1..], value);
      assert [key[0]] + key[1..] == key;
    }
  }

  /** Reading the query back: one parameter per joined field, in order. */
  lemma QueryOfJoin(fields: seq<string>)
    requires |fields| >= 1
    requires forall i :: 0 <= i < |fields| ==> '&' !in fields[i]
    ensures QueryParams(FILTER_ENDPOINT + "?" + Join(fields, '&'))
         == seq(|fields|, i requires 0 <= i < |fields| => Param(fields[i]))
  {
    var url := FILTER_ENDPOINT + "?" + Join(fields, '&');
    assert url[|FILTER_ENDPOINT + "?"|..] == Join(fields, '&');
    SplitJoin(fields, '&');
  }

  lemma FileValueHasNoAmpersand(hour: int, forecast: int)
    ensures '&' !in "gfs.t" + ZeroPad(hour, 2) + "z.pgrb2.0p25.f" + ZeroPad(forecast, 3)
  {
    RenderedIntsAreNumerals(hour, 2);
    RenderedIntsAreNumerals(forecast, 3);
    assert '&' !in "gfs.t" && '&' !in "z.pgrb2.0p25.f";
  }

  lemma DirValueHasNoAmpersand(date: string, hour: int)
    requires '&' !in date
    ensures '&' !in "%2Fgfs." + date + "%2F" + ZeroPad(hour, 2)
  {
    RenderedIntsAreNumerals(hour, 2);
    assert '&' !in "%2Fgfs." && '&' !in "%2F";
  }

  lemma FieldsHaveNoAmpersand(date: string, hour: int, forecast: int,
                               leftLon: string, rightLon: string, topLat: string, bottomLat: string)
    requires '&' !in date && '&' !in leftLon && '&' !in rightLon && '&' !in topLat && '&' !in bottomLat
    ensures forall i :: 0 <= i < 9 ==> '&' !in FilterFields(date, hour, forecast, leftLon, rightLon, topLat, bottomLat)[i]
  {
    FileValueHasNoAmpersand(hour, forecast);
    DirValueHasNoAmpersand(date, hour);
  }

  /** Every `key=value` field reads back as its key and value when no key holds `=`. */
  lemma ParamsOfFields(keys: seq<string>, values: seq<string>)
    requires |keys| == |values|
    requires forall i :: 0 <= i < |keys| ==> '=' !in keys[i]
    ensures seq(|keys|, i requires 0 <= i < |keys| => Param(Field(keys[i], values[i])))
         == seq(|keys|, i requires 0 <= i < |keys| => (keys[i], values[i]))
  {
    forall i | 0 <= i < |keys| ensures Param(Field(keys[i], values[i])) == (keys[i], values[i]) {
      ParamSplit(keys[i], values[i]);
    }
  }

  lemma FieldsParams(date: string, hour: int, forecast: int,
                     leftLon: string, rightLon: string, topLat: string, bottomLat: string)
    ensures var f := FilterFields(date, hour, forecast, leftLon, rightLon, topLat, bottomLat);
      seq(|f|, i requires 0 <= i < |f| => Param(f[i])) ==
      [ ("file", "gfs.t" + ZeroPad(hour, 2) + "z.pgrb2.0p25.f" + ZeroPad(forecast, 3)),
        ("all_lev", "on"), ("all_var", "on"), ("subregion", ""),
        ("leftlon", leftLon), ("rightlon", rightLon), ("toplat", topLat), ("bottomlat", bottomLat),
        ("dir", "%2Fgfs." + date + "%2F" + ZeroPad(hour, 2)) ]
  {
    var f := FilterFields(date, hour, forecast, leftLon, rightLon, topLat, bottomLat);
    var keys := ["file", "all_lev", "all_var", "subregion", "leftlon", "rightlon", "toplat", "bottomlat", "dir"];
    var values := [ "gfs.t" + ZeroPad(hour, 2) + "z.pgrb2.0p25.f" + ZeroPad(forecast, 3), "on", "on", "",
                    leftLon, rightLon, topLat, bottomLat, "%2Fgfs." + date + "%2F" + ZeroPad(hour, 2) ];
    assert f == seq(9, i requires 0 <= i < 9 => Field(keys[i], values[i]));
    ParamsOfFields(keys, values);
    assert seq(|f|, i requires 0 <= i < |f| => Param(f[i]))
        == seq(9, i requires 0 <= i < 9 => Param(Field(keys[i], values[i])));
  }

  /**
   * The filter URL carries, in this order: the file of the run hour and
   * horizon, all levels, all variables, the subregion flag, the extent as
   * leftlon, rightlon, toplat, bottomlat, and the run directory — provided
   * the caller's date and extent fields contain no `&` (nothing is escaped).
   */
  lemma FilterUrlParams(date: string, hour: int, forecast: int,
                        leftLon: string, rightLon: string, topLat: string, bottomLat: string)
    requires '&' !in date && '&' !in leftLon && '&' !in rightLon && '&' !in topLat && '&' !in bottomLat
    ensures QueryParams(FilterUrl(date, hour, forecast, leftLon, rightLon, topLat, bottomLat)) ==
      [ ("file", "gfs.t" + ZeroPad(hour, 2) + "z.pgrb2.0p25.f" + ZeroPad(forecast, 3)),
        ("all_lev", "on"), ("all_var", "on"), ("subregion", ""),
        ("leftlon", leftLon), ("rightlon", rightLon), ("toplat", topLat), ("bottomlat", bottomLat),
        ("dir", "%2Fgfs." + date + "%2F" + ZeroPad(hour, 2)) ]
  {
    FieldsHaveNoAmpersand(date, hour, forecast, leftLon, rightLon, topLat, bottomLat);
    QueryOfJoin(FilterFields(date, hour, forecast, leftLon, rightLon, topLat, bottomLat));
    FieldsParams(date, hour, forecast, leftLon, rightLon, topLat, bottomLat);
  }
}
