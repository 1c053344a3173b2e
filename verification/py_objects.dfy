/**
 * The shapes of the unpickled Python objects the scripts inspect: the model
 * bundle and the feature-name list are whatever `joblib.load` returned, and the
 * scripts branch on `isinstance` and on dictionary lookups.
 */
module PyObjects {
  import opened Wrappers

  datatype PyObj =
    | PyNone
    | PyStr(text: string)
      /** `list` of column names */
    | PyList(items: seq<string>)
      /** `tuple` of column names */
    | PyTuple(items: seq<string>)
      /** `dict` with string keys, in insertion order */
    | PyDict(entries: seq<(string, PyObj)>)
      /** any other iterable (an ndarray, a pandas Index, a set ...) yielding column names */
    | PyIterable(items: seq<string>)
      /**
       * an object other than a dict that `obj[key]` accepts string keys on, and
       * only string keys, so that `list(obj)` raises
       */
    | PyKeyed(entries: seq<(string, PyObj)>)
      /** a non-iterable object, such as a fitted estimator or transformer */
    | PyOpaque(id: nat)

  /** Python truthiness of an optional configuration string: `None` and `""` are false. */
  predicate Truthy(v: Option<string>) {
    v.Some? && v.value != ""
  }

  /** The keys of a dictionary, in insertion order (`list(d.keys())`). */
  function Keys(entries: seq<(string, PyObj)>): (ks: seq<string>)
    ensures |ks| == |entries|
    ensures forall i :: 0 <= i < |entries| ==> ks[i] == entries[i].0
  {
    if entries == [] then [] else [entries[0].0] + Keys(entries[1..])
  }

  /** `d.get(key)`: the value stored under `key`, or `None` when the key is absent. */
  function DictGet(entries: seq<(string, PyObj)>, key: string): (v: PyObj)
    ensures key !in Keys(entries) ==> v == PyNone
    ensures key in Keys(entries) ==> exists i :: 0 <= i < |entries| && entries[i] == (key, v)
  {
    if entries == [] then PyNone
    else if entries[0].0 == key then entries[0].1
    else DictGet(entries[1..], key)
  }

  /** `d[key]`: like `DictGet`, but a missing key raises `KeyError` (here: `None`). */
  function DictIndex(entries: seq<(string, PyObj)>, key: string): (v: Option<PyObj>)
    ensures v.Some? <==> key in Keys(entries)
    ensures v.Some? ==> v.value == DictGet(entries, key)
  {
    if key in Keys(entries) then Some(DictGet(entries, key)) else None
  }
}
