/**
 * The slice of Python's dynamic typing that the modelled code observes:
 * the types `gfs_get_raw_data` checks with `type(x) != ...`, the values
 * `len()` and indexing accept, and the exceptions the code raises or lets
 * escape from a built-in.
 */
module Python {
  import opened Wrappers
  import opened Decimal

  /** A Python argument as far as the modelled checks, `len()` and indexing look at it. */
  datatype Value =
    | PyInt(i: int)
    | PyBool(b: bool)           // `type(True)` is `bool`, not `int`
    | PyStr(s: string)
    | PyIntList(items: seq<int>) // a list, a tuple or a one-dimensional integer array: indexed by position
    | PyIntDict(entries: map<int, int>, otherKeys: nat)
                                // a dict: its values under keys equal to an int, and the number of other keys
    | PySet(size: nat)          // a set or frozenset: it has a length but cannot be indexed
    | PyNone                    // any value without a length (None, a float, ...)

  /** The argument checks of `gfs_get_raw_data`, in the order the source runs them. */
  datatype Check =
    | DateType | HourType | ForecastType
    | DateLength | HourValue | ForecastValue | ExtentLength

  /** The exceptions the modelled code raises or lets escape. */
  datatype Exception =
    | TypeError(check: Check)   // an explicit `raise TypeError(...)`
    | ValueError(check: Check)  // an explicit `raise ValueError(...)`
    | NoLength                  // TypeError: `len()` of a value that has none
    | NotSubscriptable          // TypeError: indexing a value that is not a sequence or mapping
    | Unhashable                // TypeError: a list used as a dict key
    | IndexError
    | KeyError(key: string)     // the missing key, as `str()` renders it
    | NotImplementedError
    | AttributeError            // a method called on the `None` that GDAL returns for a file or band it cannot read
    | RequestException          // `requests.get` gave no response (connection error, timeout)
    | Excluded(path: string)    // the bare `Exception` of the static-image route

  /** True when Python reports `e` as a `TypeError` (explicit or from a built-in). */
  predicate IsTypeError(e: Exception) {
    e.TypeError? || e.NoLength? || e.NotSubscriptable? || e.Unhashable?
  }

  /** `len(v)`: strings, sequences, dicts and sets have one; any other value raises TypeError. */
  function Len(v: Value): Result<nat, Exception> {
    match v
    case PyStr(s) => Success(|s|)
    case PyIntList(xs) => Success(|xs|)
    case PyIntDict(m, others) => Success(|m| + others)
    case PySet(n) => Success(n)
    case _ => Failure(NoLength)
  }

  /**
   * `str(v[k])` for an index `k >= 0`: a character of a string, the decimal
   * of a sequence item or of the dict value under the key `k`. A sequence
   * too short raises `IndexError`, a dict without the key `KeyError`, and
   * any other value is not subscriptable.
   */
  function ItemStr(v: Value, k: nat): Result<string, Exception> {
    match v
    case PyStr(s) => if k < |s| then Success([s[k]]) else Failure(IndexError)
    case PyIntList(xs) => if k < |xs| then Success(Str(xs[k])) else Failure(IndexError)
    case PyIntDict(m, _) => if k in m then Success(Str(m[k])) else Failure(KeyError(Str(k)))
    case _ => Failure(NotSubscriptable)
  }

  /**
   * `v[0]`, ..., `v[n - 1]` read in that order, each rendered by `str()`:
   * the first read that raises ends the sequence with its exception.
   */
  function ItemStrs(v: Value, n: nat): (r: Result<seq<string>, Exception>)
    ensures r.Success? <==> forall k :: 0 <= k < n ==> ItemStr(v, k).Success?
    ensures r.Success? ==> |r.value| == n && forall k :: 0 <= k < n ==> r.value[k] == ItemStr(v, k).value
    ensures r.Failure? ==> exists k :: 0 <= k < n && ItemStr(v, k) == Failure(r.error) &&
                                      forall j :: 0 <= j < k ==> ItemStr(v, j).Success?
  {
    if n == 0 then Success([])
    else
      match ItemStrs(v, n - 1)
      case Failure(e) => Failure(e)
      case Success(init) =>
        match ItemStr(v, n - 1)
        case Failure(e) => Failure(e)
        case Success(item) => Success(init + [item])
  }
}
