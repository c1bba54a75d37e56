/**
 * The Python objects the binding receives and builds, and the few
 * interpreter operations it applies to them: len(), iteration, the cast
 * of an item to a C++ string, and item assignment in a dict.
 */
module PyObjects {
  import opened Errors

  /** An IEEE-754 single-precision value, carried as its bit pattern and never computed with. */
  type Float32 = bv32

  /**
   * A Python object. A dict keeps its entries in insertion order, as Python's
   * dict does; only str keys occur in this model.
   */
  datatype PyVal =
    | PyNone
    | PyInt(n: int)
    | PyFloat(bits: Float32)
    | PyStr(s: string)
    | PyList(items: seq<PyVal>)
    | PyTuple(elems: seq<PyVal>)
    | PyDict(entries: seq<(string, PyVal)>)

  /**
   * The objects iteration would yield, or None when the object is not
   * iterable (iter() raises TypeError). A str yields its characters as
   * one-character strs, a dict its keys.
   */
  function Iterate(v: PyVal): Option<seq<PyVal>>
  {
    match v
    case PyStr(s) => Some(seq(|s|, i requires 0 <= i < |s| => PyStr([s[i]])))
    case PyList(items) => Some(items)
    case PyTuple(elems) => Some(elems)
    case PyDict(entries) => Some(seq(|entries|, i requires 0 <= i < |entries| => PyStr(entries[i].0)))
    case _ => None
  }

  /** len(v), or None when len() raises TypeError. */
  function Len(v: PyVal): (r: Option<nat>)
    ensures r.Some? <==> Iterate(v).Some?
    ensures r.Some? ==> r.value == |Iterate(v).value|
  {
    match v
    case PyStr(s) => Some(|s|)
    case PyList(items) => Some(|items|)
    case PyTuple(elems) => Some(|elems|)
    case PyDict(entries) => Some(|entries|)
    case _ => None
  }

  /** cast<std::string>(v): only a str converts. */
  function CastToString(v: PyVal): Option<string>
  {
    if v.PyStr? then Some(v.s) else None
  }

  /** d[key], or None when key is absent. */
  function DictGet(d: seq<(string, PyVal)>, key: string): Option<PyVal>
  {
    if d == [] then None
    else if d[0].0 == key then Some(d[0].1)
    else DictGet(d[1..], key)
  }

  /** d[key] = value: an existing entry keeps its place, a new key goes last. */
  function DictSet(d: seq<(string, PyVal)>, key: string, value: PyVal): (r: seq<(string, PyVal)>)
    ensures DictGet(r, key) == Some(value)
    ensures forall k :: k != key ==> DictGet(r, k) == DictGet(d, k)
    ensures DictGet(d, key).None? ==> r == d + [(key, value)]
    ensures DictGet(d, key).Some? ==> |r| == |d|
  {
    if d == [] then [(key, value)]
    else if d[0].0 == key then [(key, value)] + d[1..]
    else [d[0]] + DictSet(d[1..], key, value)
  }
}
