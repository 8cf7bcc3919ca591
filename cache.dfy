/**
 * The on-disk GRIB cache as an abstract store: the directories created
 * under `data/gfs/` and the bytes of each file, keyed by its address.
 */
module LocalCache {
  import opened Wrappers
  import opened Python
  import opened Addressing

  type Bytes = seq<bv8>

  /** What `gfs_get_raw_data` prints after writing: the file has bytes, or it is empty. */
  datatype Download = Saved | NotDownloaded

  /** The status reported for a written file with these bytes. */
  function StatusOf(body: Bytes): Download {
    if |body| > 0 then Saved else NotDownloaded
  }

  /**
   * The files after one accepted `gfs_get_raw_data` whose request got
   * `response` (`None` when `requests.get` raised): the old file at the
   * address is removed first, and only a response is written back.
   */
  function StoreResponse(files: map<Address, Bytes>, a: Address, response: Option<Bytes>): map<Address, Bytes> {
    match response
    case Some(body) => files[a := body]
    case None => files - {a}
  }

  /** What one accepted `gfs_get_raw_data` returns: the status of the written file, or the request's exception. */
  function DownloadOutcome(response: Option<Bytes>): Result<Download, Exception> {
    match response
    case Some(body) => Success(StatusOf(body))
    case None => Failure(RequestException)
  }

  class Cache {
    var dirs: set<string>
    var files: map<Address, Bytes>

    constructor ()
      ensures dirs == {} && files == map[]
      ensures Valid()
    {
      dirs := {};
      files := map[];
    }

    /** Every cached file lies in a directory that was created. */
    predicate Valid()
      reads this
    {
      forall a :: a in files ==> a.dir in dirs
    }

    /** `len(os.listdir(dir))`: the number of file names in one directory. */
    function ListDir(dir: string): nat
      reads this
    {
      |set a | a in files && a.dir == dir :: a.file|
    }

    /**
     * The file effects before the request: `os.makedirs` when the run
     * directory is missing, then `os.remove` of an existing file at the
     * address (always, whatever its size).
     */
    method Prepare(a: Address)
      modifies this
      ensures dirs == old(dirs) + {a.dir}
      ensures files == old(files) - {a}
      ensures old(Valid()) ==> Valid()
    {
      if a.dir !in dirs {
        dirs := dirs + {a.dir};
      }
      if a in files {
        files := files - {a};
      }
    }

    /**
     * The response body written in full to the file at `a`, whose directory
     * exists; the status is whether `os.path.getsize` is non-zero afterwards.
     */
    method Write(a: Address, body: Bytes) returns (status: Download)
      requires a.dir in dirs
      modifies this
      ensures dirs == old(dirs)
      ensures files == old(files)[a := body]
      ensures status == StatusOf(body)
      ensures old(Valid()) ==> Valid()
    {
      files := files[a := body];
      status := if |files[a]| > 0 then Saved else NotDownloaded;
    }
  }
}
