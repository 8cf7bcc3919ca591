/**
 * `gfs_prepare_raw_data_as_array`, identical in both iterations: open the
 * cached file at the run's address, read one band, and upsample it by the
 * fixed factor 50.
 */
module Extraction {
  import opened Wrappers
  import opened Python
  import opened Addressing
  import opened LocalCache
  import opened Upsampler

  const FACTOR: nat := 50

  /**
   * Reads band `band` of the file at the address `gfs_get_raw_data` writes
   * to. What GDAL decodes from that file's bytes is passed in as `raster`:
   * `None` when the bytes are not a GRIB message or hold no such band.
   * `gdal.Open` returns `None` for a missing or empty file, and
   * `GetRasterBand` returns `None` for a band it cannot read; the next
   * method call on that `None` raises `AttributeError`. On success the grid
   * is the raster with each dimension multiplied by 50 and each cell
   * replicated over a 50 x 50 block.
   */
  method PrepareRawDataAsArray(cache: Cache, date: string, hour: int, forecast: int, band: int,
                               raster: Option<array2<int>>)
    returns (r: Result<array2<int>, Exception>)
    ensures var a := CacheAddress(date, hour, forecast);
      r.Success? <==> a in cache.files && |cache.files[a]| > 0 && raster.Some?
    ensures r.Failure? ==> r.error == AttributeError
    ensures r.Success? ==>
      raster.Some? &&
      r.value.Length0 == raster.value.Length0 * 50 && r.value.Length1 == raster.value.Length1 * 50 &&
      forall row, col :: 0 <= row < r.value.Length0 && 0 <= col < r.value.Length1 ==>
        r.value[row, col] == raster.value[row / 50, col / 50]
  {
    var address := CacheAddress(date, hour, forecast);
    if address !in cache.files || |cache.files[address]| == 0 || raster.None? {
      return Failure(AttributeError);
    }
    var grid := MatrixResize(raster.value, FACTOR);
    r := Success(grid);
  }
}
