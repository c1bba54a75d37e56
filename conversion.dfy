/**
 * Conversion between Python lists and C++ vectors of tokens:
 * std_vector_to_py_list, py_list_to_std_vector and batch_to_vector.
 */
module Conversion {
  import opened Errors
  import opened PyObjects

  type Tokens = seq<string>
  type Batch = seq<Tokens>

  const NoneValueMessage: string := "Invalid None value in input list"

  // ---------------------------------------------------------------------------
  // C++ vector to Python list

  /** The Python list with one element per vector element, each converted by cast. */
  function ToPyList<T>(v: seq<T>, cast: T -> PyVal): PyVal
  {
    PyList(seq(|v|, i requires 0 <= i < |v| => cast(v[i])))
  }

  /** STR_TYPE(x): a C++ string becomes a Python str. */
  function StrToPy(s: string): PyVal
  {
    PyStr(s)
  }

  function TokensToPy(t: Tokens): PyVal
  {
    ToPyList(t, StrToPy)
  }

  function BatchToPy(b: Batch): PyVal
  {
    ToPyList(b, TokensToPy)
  }

  /** std_vector_to_py_list: append every element, in order, to a fresh list. */
  method StdVectorToPyList<T>(v: seq<T>, cast: T -> PyVal) returns (l: PyVal)
    ensures l == ToPyList(v, cast)
  {
    var items: seq<PyVal> := [];
    for i := 0 to |v|
      invariant |items| == i
      invariant forall k :: 0 <= k < i ==> items[k] == cast(v[k])
    {
      items := items + [cast(v[i])];
    }
    l := PyList(items);
  }

  // ---------------------------------------------------------------------------
  // Converting every item of an iteration, stopping at the first exception

  /** Convert the items left to right; the first item whose conversion fails decides the error. */
  function MapAll<T>(s: seq<PyVal>, f: PyVal -> Result<T>): (r: Result<seq<T>>)
    ensures r.Ok? <==> forall i :: 0 <= i < |s| ==> f(s[i]).Ok?
    ensures r.Ok? ==> |r.value| == |s| && forall i :: 0 <= i < |s| ==> r.value[i] == f(s[i]).value
    decreases |s|
  {
    if s == [] then Ok([])
    else match f(s[0])
      case Err(e) => Err(e)
      case Ok(x) =>
        match MapAll(s[1..], f)
        case Err(e) => Err(e)
        case Ok(rest) => Ok([x] + rest)
  }

  /** When every item before i converts and item i does not, the conversion fails with item i's error. */
  lemma {:induction false} MapAllFirstFailure<T>(s: seq<PyVal>, f: PyVal -> Result<T>, i: nat)
    requires i < |s|
    requires forall j :: 0 <= j < i ==> f(s[j]).Ok?
    requires f(s[i]).Err?
    ensures MapAll(s, f) == Err(f(s[i]).error)
  {
    if i > 0 {
      assert f(s[0]).Ok?;
      forall j | 0 <= j < i - 1 ensures f(s[1..][j]).Ok? {
        assert s[1..][j] == s[j + 1];
      }
      assert s[1..][i - 1] == s[i];
      MapAllFirstFailure(s[1..], f, i - 1);
    }
  }

  /** A failed conversion fails with the error of one of the items. */
  lemma {:induction false} MapAllErrorOfSomeItem<T>(s: seq<PyVal>, f: PyVal -> Result<T>)
    requires MapAll(s, f).Err?
    ensures exists k :: 0 <= k < |s| && f(s[k]) == Err(MapAll(s, f).error)
  {
    assert s != [];
    if f(s[0]).Ok? {
      MapAllErrorOfSomeItem(s[1..], f);
      var k :| 0 <= k < |s[1..]| && f(s[1..][k]) == Err(MapAll(s[1..], f).error);
      assert s[k + 1] == s[1..][k];
    } else {
      assert f(s[0]) == Err(MapAll(s, f).error);
    }
  }

  // ---------------------------------------------------------------------------
  // Python list to C++ vector

  /** s.cast<std::string>(), with its failure as a CastError. */
  function CastItem(v: PyVal): Result<string>
  {
    match CastToString(v)
    case Some(s) => Ok(s)
    case None => Err(CastError)
  }

  /** What py_list_to_std_vector(l) returns or raises. */
  function TokensOf(l: PyVal): Result<Tokens>
  {
    match Iterate(l)
    case None => Err(TypeError)
    case Some(items) => MapAll(items, CastItem)
  }

  /** py_list_to_std_vector: py::len, then every item cast to a string and appended in order. */
  method PyListToStdVector(l: PyVal) returns (r: Result<Tokens>)
    ensures r == TokensOf(l)
  {
    var iterated := Iterate(l);
    if iterated.None? {
      return Err(TypeError);
    }
    var items := iterated.value;
    var v: Tokens := [];
    for i := 0 to |items|
      invariant |v| == i
      invariant forall j :: 0 <= j < i ==> CastItem(items[j]) == Ok(v[j])
    {
      var s := CastToString(items[i]);
      if s.None? {
        MapAllFirstFailure(items, CastItem, i);
        return Err(CastError);
      }
      v := v + [s.value];
    }
    assert MapAll(items, CastItem).value == v;
    r := Ok(v);
  }

  /** A list of strs: the shape py_list_to_std_vector accepts. */
  predicate IsTokenList(v: PyVal)
  {
    v.PyList? && forall i :: 0 <= i < |v.items| ==> v.items[i].PyStr?
  }

  function StringsOf(v: PyVal): Tokens
    requires IsTokenList(v)
  {
    seq(|v.items|, i requires 0 <= i < |v.items| => v.items[i].s)
  }

  /** A list converts exactly when it holds only strs, and then yields those strings in order. */
  lemma TokenListConverts(v: PyVal)
    requires v.PyList?
    ensures TokensOf(v).Ok? <==> IsTokenList(v)
    ensures IsTokenList(v) ==> TokensOf(v) == Ok(StringsOf(v))
  {
    if IsTokenList(v) {
      assert TokensOf(v).value == StringsOf(v);
    }
  }

  /** py_list_to_std_vector undoes std_vector_to_py_list on strings. */
  lemma TokensRoundTrip(t: Tokens)
    ensures IsTokenList(TokensToPy(t)) && StringsOf(TokensToPy(t)) == t
    ensures TokensOf(TokensToPy(t)) == Ok(t)
  {
    var l := TokensToPy(t);
    forall i | 0 <= i < |t| ensures l.items[i] == PyStr(t[i]) {
      assert l.items[i] == StrToPy(t[i]);
    }
    assert StringsOf(l) == t;
    TokenListConverts(l);
  }

  // ---------------------------------------------------------------------------
  // batch_to_vector

  /** One item of a batch: None is an empty example when optional, an error otherwise. */
  function ConvertItem(h: PyVal, optional: bool): Result<Tokens>
  {
    if h.PyNone? then
      if optional then Ok([]) else Err(InvalidArgument(NoneValueMessage))
    else TokensOf(h)
  }

  /**
   * The None policy of one item: InvalidArgument is raised exactly for a None
   * item under the strict policy; under the optional policy a None item is an
   * empty example; any other item converts as py_list_to_std_vector does.
   */
  lemma ItemNonePolicy(h: PyVal, optional: bool)
    ensures (ConvertItem(h, optional).Err? && ConvertItem(h, optional).error.InvalidArgument?)
            <==> (h.PyNone? && !optional)
    ensures h.PyNone? && !optional ==> ConvertItem(h, optional) == Err(InvalidArgument(NoneValueMessage))
    ensures h.PyNone? && optional ==> ConvertItem(h, optional) == Ok([])
    ensures !h.PyNone? ==> ConvertItem(h, optional) == TokensOf(h)
  {
    TokensOfNeverInvalidArgument(h);
  }

  function ItemConverter(optional: bool): PyVal -> Result<Tokens>
  {
    h => ConvertItem(h, optional)
  }

  /** What batch_to_vector(l, optional) returns or raises. */
  function BatchOf(l: PyVal, optional: bool): Result<Batch>
  {
    if l.PyNone? then Ok([])
    else match Iterate(l)
      case None => Err(TypeError)
      case Some(items) => MapAll(items, ItemConverter(optional))
  }

  /** batch_to_vector: None is the empty batch; otherwise every item is converted in order. */
  method BatchToVector(l: PyVal, optional: bool) returns (r: Result<Batch>)
    ensures r == BatchOf(l, optional)
  {
    if l.PyNone? {
      return Ok([]);
    }
    var iterated := Iterate(l);
    if iterated.None? {
      return Err(TypeError);
    }
    var items := iterated.value;
    var v: Batch := [];
    for i := 0 to |items|
      invariant |v| == i
      invariant forall j :: 0 <= j < i ==> ConvertItem(items[j], optional) == Ok(v[j])
    {
      var handle := items[i];
      if handle.PyNone? {
        if optional {
          v := v + [[]];
        } else {
          MapAllFirstFailure(items, ItemConverter(optional), i);
          return Err(InvalidArgument(NoneValueMessage));
        }
      } else {
        var tokens := PyListToStdVector(handle);
        if tokens.Err? {
          MapAllFirstFailure(items, ItemConverter(optional), i);
          return Err(tokens.error);
        }
        v := v + [tokens.value];
      }
    }
    assert MapAll(items, ItemConverter(optional)).value == v;
    r := Ok(v);
  }

  // ---------------------------------------------------------------------------
  // Properties of batch_to_vector

  /** None is the empty batch, whatever the None policy. */
  lemma NoneIsEmptyBatch(optional: bool)
    ensures BatchOf(PyNone, optional) == Ok([])
  {
  }

  /**
   * A converted batch has one example per item, in the same order: an item
   * converts as py_list_to_std_vector would convert it, and a None item is
   * an empty example, which only the optional policy admits.
   */
  lemma BatchKeepsItems(l: PyVal, optional: bool, i: nat)
    requires !l.PyNone? && BatchOf(l, optional).Ok?
    ensures Iterate(l).Some? && |BatchOf(l, optional).value| == |Iterate(l).value|
    ensures i < |Iterate(l).value| ==>
      var item := Iterate(l).value[i];
      && (item.PyNone? ==> optional && BatchOf(l, optional).value[i] == [])
      && (!item.PyNone? ==> Ok(BatchOf(l, optional).value[i]) == TokensOf(item))
  {
  }

  /** Under the optional policy, a None item never raises InvalidArgument; only malformed items fail. */
  lemma OptionalBatchNeverRejectsNone(l: PyVal)
    ensures BatchOf(l, true).Err? ==> !BatchOf(l, true).error.InvalidArgument?
  {
    if BatchOf(l, true).Err? && !l.PyNone? && Iterate(l).Some? {
      var items := Iterate(l).value;
      MapAllErrorOfSomeItem(items, ItemConverter(true));
      var k :| 0 <= k < |items| && ItemConverter(true)(items[k]) == Err(BatchOf(l, true).error);
      if !items[k].PyNone? {
        TokensOfNeverInvalidArgument(items[k]);
      }
    }
  }

  lemma TokensOfNeverInvalidArgument(v: PyVal)
    ensures TokensOf(v).Err? ==> TokensOf(v).error in {TypeError, CastError}
  {
    if TokensOf(v).Err? && Iterate(v).Some? {
      MapAllErrorOfSomeItem(Iterate(v).value, CastItem);
    }
  }

  /** Every item is None or a list of strs: the batch shape the binding documents. */
  predicate IsBatchItem(v: PyVal)
  {
    v.PyNone? || IsTokenList(v)
  }

  function ItemTokens(v: PyVal): Tokens
    requires IsBatchItem(v)
  {
    if v.PyNone? then [] else StringsOf(v)
  }

  function TypedBatchTokens(items: seq<PyVal>): Batch
    requires forall i :: 0 <= i < |items| ==> IsBatchItem(items[i])
  {
    seq(|items|, i requires 0 <= i < |items| => ItemTokens(items[i]))
  }

  /** On a well-typed list, the strict policy fails with InvalidArgument exactly when some item is None. */
  lemma StrictBatchOnTypedList(items: seq<PyVal>)
    requires forall i :: 0 <= i < |items| ==> IsBatchItem(items[i])
    ensures (exists i :: 0 <= i < |items| && items[i].PyNone?) ==>
      BatchOf(PyList(items), false) == Err(InvalidArgument(NoneValueMessage))
    ensures (forall i :: 0 <= i < |items| ==> !items[i].PyNone?) ==>
      BatchOf(PyList(items), false) == Ok(TypedBatchTokens(items))
  {
    var f := ItemConverter(false);
    forall i | 0 <= i < |items| && !items[i].PyNone?
      ensures f(items[i]) == Ok(ItemTokens(items[i]))
    {
      TokenListConverts(items[i]);
    }
    if exists i :: 0 <= i < |items| && items[i].PyNone? {
      var k := FirstNone(items);
      MapAllFirstFailure(items, f, k);
    } else {
      assert MapAll(items, f).value == TypedBatchTokens(items);
    }
  }

  /** The index of the first None item of a list that has one. */
  function FirstNone(items: seq<PyVal>): (k: nat)
    requires exists i :: 0 <= i < |items| && items[i].PyNone?
    ensures k < |items| && items[k].PyNone?
    ensures forall j :: 0 <= j < k ==> !items[j].PyNone?
  {
    if items[0].PyNone? then 0
    else
      assert exists i :: 0 <= i < |items[1..]| && items[1..][i].PyNone? by {
        var i :| 0 <= i < |items| && items[i].PyNone?;
        assert items[1..][i - 1] == items[i];
      }
      1 + FirstNone(items[1..])
  }

  /** On a well-typed list, the optional policy never fails and turns each None item into an empty example. */
  lemma OptionalBatchOnTypedList(items: seq<PyVal>)
    requires forall i :: 0 <= i < |items| ==> IsBatchItem(items[i])
    ensures BatchOf(PyList(items), true) == Ok(TypedBatchTokens(items))
  {
    var f := ItemConverter(true);
    forall i | 0 <= i < |items| ensures f(items[i]) == Ok(ItemTokens(items[i])) {
      if !items[i].PyNone? {
        TokenListConverts(items[i]);
      }
    }
    assert MapAll(items, f).value == TypedBatchTokens(items);
  }

  /** batch_to_vector undoes the list-of-lists encoding of a batch, under either policy. */
  lemma BatchRoundTrip(b: Batch, optional: bool)
    ensures BatchOf(BatchToPy(b), optional) == Ok(b)
  {
    var items := BatchToPy(b).items;
    forall i | 0 <= i < |items| ensures IsTokenList(items[i]) && ItemTokens(items[i]) == b[i] {
      assert items[i] == TokensToPy(b[i]);
      TokensRoundTrip(b[i]);
    }
    assert TypedBatchTokens(items) == b;
    if optional {
      OptionalBatchOnTypedList(items);
    } else {
      StrictBatchOnTypedList(items);
    }
  }
}
