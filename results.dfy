/**
 * Translation results coming back from the pool, and how translate_batch
 * turns them into Python lists of hypothesis dicts.
 */
module TranslationResults {
  import opened Errors
  import opened PyObjects
  import opened Conversion

  /**
   * A ctranslate2::TranslationResult as the binding reads it: the hypotheses
   * of one example with their scores and, when hasAttention holds, one
   * attention matrix (output length by input length) per hypothesis.
   */
  datatype ResultData = ResultData(
    hypotheses: seq<Tokens>,
    scores: seq<Float32>,
    attention: seq<seq<seq<Float32>>>,
    hasAttention: bool)
  {
    function NumHypotheses(): nat
    {
      |hypotheses|
    }

    /** Every index below NumHypotheses() can be read from scores and, when present, from attention. */
    predicate Valid()
    {
      |scores| >= |hypotheses| && (hasAttention ==> |attention| >= |hypotheses|)
    }
  }

  type TranslationResult = r: ResultData | r.Valid() witness ResultData([], [], [], false)

  const ScoreKey: string := "score"
  const TokensKey: string := "tokens"
  const AttentionKey: string := "attention"

  function FloatToPy(x: Float32): PyVal
  {
    PyFloat(x)
  }

  function FloatsToPy(v: seq<Float32>): PyVal
  {
    ToPyList(v, FloatToPy)
  }

  /** An attention matrix as a list of lists of floats, one list per row. */
  function AttentionToPy(m: seq<seq<Float32>>): PyVal
  {
    ToPyList(m, FloatsToPy)
  }

  /** The dict for hypothesis i: its score, its tokens and, only when the result has attention, its attention. */
  function HypothesisRecord(r: TranslationResult, i: nat): PyVal
    requires i < r.NumHypotheses()
  {
    PyDict([(ScoreKey, PyFloat(r.scores[i])), (TokensKey, TokensToPy(r.hypotheses[i]))]
           + (if r.hasAttention then [(AttentionKey, AttentionToPy(r.attention[i]))] else []))
  }

  /** The list of all hypothesis dicts of one result, in hypothesis order. */
  function HypothesesToPy(r: TranslationResult): PyVal
  {
    PyList(seq(r.NumHypotheses(), i requires 0 <= i < r.NumHypotheses() => HypothesisRecord(r, i)))
  }

  /** The list translate_batch returns: one list per pool result, in result order. */
  function ResultsToPy(results: seq<TranslationResult>): PyVal
  {
    ToPyList(results, HypothesesToPy)
  }

  /** The body of translate_batch's inner loop: build the dict for hypothesis i of r. */
  method HypothesisToPy(r: TranslationResult, i: nat) returns (hyp: PyVal)
    requires i < r.NumHypotheses()
    ensures hyp == HypothesisRecord(r, i)
  {
    var entries: seq<(string, PyVal)> := [];
    entries := DictSet(entries, ScoreKey, PyFloat(r.scores[i]));
    var tokens := StdVectorToPyList(r.hypotheses[i], StrToPy);
    entries := DictSet(entries, TokensKey, tokens);
    if r.hasAttention {
      var attn: seq<PyVal> := [];
      for j := 0 to |r.attention[i]|
        invariant |attn| == j
        invariant forall k :: 0 <= k < j ==> attn[k] == FloatsToPy(r.attention[i][k])
      {
        var row := StdVectorToPyList(r.attention[i][j], FloatToPy);
        attn := attn + [row];
      }
      assert PyList(attn) == AttentionToPy(r.attention[i]);
      entries := DictSet(entries, AttentionKey, PyList(attn));
    }
    hyp := PyDict(entries);
  }

  /** translate_batch's result loop: every result becomes the list of its hypothesis dicts. */
  method ResultsToPyList(results: seq<TranslationResult>) returns (l: PyVal)
    ensures l == ResultsToPy(results)
  {
    var pyResults: seq<PyVal> := [];
    for k := 0 to |results|
      invariant |pyResults| == k
      invariant forall m :: 0 <= m < k ==> pyResults[m] == HypothesesToPy(results[m])
    {
      var result := results[k];
      var batch: seq<PyVal> := [];
      for i := 0 to result.NumHypotheses()
        invariant |batch| == i
        invariant forall m :: 0 <= m < i ==> batch[m] == HypothesisRecord(result, m)
      {
        var hyp := HypothesisToPy(result, i);
        batch := batch + [hyp];
      }
      assert PyList(batch) == HypothesesToPy(result);
      pyResults := pyResults + [PyList(batch)];
    }
    l := PyList(pyResults);
  }

  /**
   * The layout of translate_batch's output: one list per result, in order;
   * result k's list holds exactly NumHypotheses() records, record i being
   * hypothesis i's.
   */
  lemma ResultsLayout(results: seq<TranslationResult>, k: nat, i: nat)
    requires k < |results| && i < results[k].NumHypotheses()
    ensures var out := ResultsToPy(results);
      && out.PyList? && |out.items| == |results|
      && out.items[k].PyList? && |out.items[k].items| == results[k].NumHypotheses()
      && out.items[k].items[i] == HypothesisRecord(results[k], i)
  {
    assert ResultsToPy(results).items[k] == HypothesesToPy(results[k]);
  }

  /**
   * What a Python caller reads from record i: scores()[i] under "score";
   * under "tokens" a list that converts back to hypotheses()[i]; an
   * "attention" entry exactly when the result has attention, holding
   * attention()[i]; and no other key.
   */
  lemma RecordFields(r: TranslationResult, i: nat)
    requires i < r.NumHypotheses()
    ensures HypothesisRecord(r, i).PyDict?
    ensures var d := HypothesisRecord(r, i).entries;
      && DictGet(d, ScoreKey) == Some(PyFloat(r.scores[i]))
      && DictGet(d, TokensKey).Some? && TokensOf(DictGet(d, TokensKey).value) == Ok(r.hypotheses[i])
      && (DictGet(d, AttentionKey).Some? <==> r.hasAttention)
      && (r.hasAttention ==> DictGet(d, AttentionKey) == Some(AttentionToPy(r.attention[i])))
      && forall key :: DictGet(d, key).Some? ==> key == ScoreKey || key == TokensKey || key == AttentionKey
  {
    TokensRoundTrip(r.hypotheses[i]);
    var d := HypothesisRecord(r, i).entries;
    var tail := if r.hasAttention then [(AttentionKey, AttentionToPy(r.attention[i]))] else [];
    assert d[1..][1..] == tail;
    forall key | key != ScoreKey && key != TokensKey
      ensures DictGet(d, key) == DictGet(tail, key)
      ensures DictGet(d, key).Some? ==> key == AttentionKey
    {
      if tail != [] {
        assert tail[1..] == [];
      }
    }
    assert DictGet(d, AttentionKey) == DictGet(tail, AttentionKey);
  }
}
