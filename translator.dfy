/**
 * TranslatorWrapper, the Python-facing translator: it validates and converts
 * the request, fills in the decoding options, hands the work to the
 * translator pool and converts what the pool returns.
 */
module Translator {
  import opened Errors
  import opened PyObjects
  import opened Conversion
  import opened Options
  import opened TranslationResults

  /** TranslatorPool::post(source, target_prefix, options).get(). */
  type PostFn = (Batch, Batch, TranslationOptions) -> seq<TranslationResult>

  /** TranslatorPool::consume_text_file(in, out, read_batch_size, options, with_scores): the token count. */
  type ConsumeFn = (string, string, nat, TranslationOptions, bool) -> nat

  /**
   * The translator pool, seen only through its two entry points. Its
   * batching, threads, futures and file I/O are not part of this model.
   */
  datatype TranslatorPool = TranslatorPool(post: PostFn, consumeTextFile: ConsumeFn)

  /** What translate_batch returns or raises, given the pool's post. */
  function TranslateBatchOutcome(post: PostFn, source: PyVal, targetPrefix: PyVal,
                                 options: TranslationOptions): Result<PyVal>
  {
    if source.PyNone? then Ok(PyList([]))
    else match Len(source)
      case None => Err(TypeError)
      case Some(n) =>
        if n == 0 then Ok(PyList([]))
        else match BatchOf(source, false)
          case Err(e) => Err(e)
          case Ok(sourceInput) =>
            match BatchOf(targetPrefix, true)
            case Err(e) => Err(e)
            case Ok(targetPrefixInput) => Ok(ResultsToPy(post(sourceInput, targetPrefixInput, options)))
  }

  class TranslatorWrapper {
    const pool: TranslatorPool
    /**
     * The value of a default-constructed ctranslate2::TranslationOptions.
     * Its member initialisers are not part of this model, so the wrapper
     * takes it as given; only the fields translate_file leaves alone are
     * ever read from it.
     */
    const defaultOptions: TranslationOptions

    /** The pool stands for TranslatorPool(inter_threads, intra_threads, Model::load(...)), already built. */
    constructor(pool: TranslatorPool, defaultOptions: TranslationOptions)
      ensures this.pool == pool && this.defaultOptions == defaultOptions
    {
      this.pool := pool;
      this.defaultOptions := defaultOptions;
    }

    /**
     * translate_file: fill in the options, replace a zero read batch size by
     * max_batch_size, and return the pool's token count in a 1-tuple.
     */
    method TranslateFile(inFile: string, outFile: string, maxBatchSize: nat, readBatchSize: nat,
                         beamSize: nat, numHypotheses: nat, lengthPenalty: Float32,
                         maxDecodingLength: nat, minDecodingLength: nat, useVmap: bool,
                         withScores: bool, samplingTopk: nat, samplingTemperature: Float32)
      returns (r: PyVal)
      ensures r == PyTuple([PyInt(pool.consumeTextFile(
                    inFile, outFile, EffectiveReadBatchSize(readBatchSize, maxBatchSize),
                    FileOptions(defaultOptions, maxBatchSize, beamSize, numHypotheses, lengthPenalty,
                                maxDecodingLength, minDecodingLength, useVmap, samplingTopk, samplingTemperature),
                    withScores))])
    {
      var options := defaultOptions;
      options := options.(maxBatchSize := maxBatchSize);
      options := options.(beamSize := beamSize);
      options := options.(lengthPenalty := lengthPenalty);
      options := options.(samplingTopk := samplingTopk);
      options := options.(samplingTemperature := samplingTemperature);
      options := options.(maxDecodingLength := maxDecodingLength);
      options := options.(minDecodingLength := minDecodingLength);
      options := options.(numHypotheses := numHypotheses);
      options := options.(useVmap := useVmap);

      var readSize := readBatchSize;
      if readSize == 0 {
        readSize := maxBatchSize;
      }
      var numTokens := pool.consumeTextFile(inFile, outFile, readSize, options, withScores);
      r := PyTuple([PyInt(numTokens)]);
    }

    /**
     * translate_batch: an absent or empty source gives an empty list; otherwise
     * the source is converted strictly and the target prefix optionally, the
     * options are filled in from every argument, and the pool's results are
     * turned into lists of hypothesis dicts.
     */
    method TranslateBatch(source: PyVal, targetPrefix: PyVal, maxBatchSize: nat, beamSize: nat,
                          numHypotheses: nat, lengthPenalty: Float32, maxDecodingLength: nat,
                          minDecodingLength: nat, useVmap: bool, returnAttention: bool,
                          returnAlternatives: bool, samplingTopk: nat, samplingTemperature: Float32)
      returns (r: Result<PyVal>)
      ensures r == TranslateBatchOutcome(pool.post, source, targetPrefix,
                     TranslationOptions(maxBatchSize, beamSize, numHypotheses, lengthPenalty,
                                        maxDecodingLength, minDecodingLength, useVmap,
                                        returnAttention, returnAlternatives,
                                        samplingTopk, samplingTemperature))
    {
      if source.PyNone? {
        return Ok(PyList([]));
      }
      var n := Len(source);
      if n.None? {
        return Err(TypeError);
      }
      if n.value == 0 {
        return Ok(PyList([]));
      }

      var sourceInput := BatchToVector(source, false);
      if sourceInput.Err? {
        return Err(sourceInput.error);
      }
      var targetPrefixInput := BatchToVector(targetPrefix, true);
      if targetPrefixInput.Err? {
        return Err(targetPrefixInput.error);
      }

      var options := defaultOptions;
      options := options.(maxBatchSize := maxBatchSize);
      options := options.(beamSize := beamSize);
      options := options.(lengthPenalty := lengthPenalty);
      options := options.(samplingTopk := samplingTopk);
      options := options.(samplingTemperature := samplingTemperature);
      options := options.(maxDecodingLength := maxDecodingLength);
      options := options.(minDecodingLength := minDecodingLength);
      options := options.(numHypotheses := numHypotheses);
      options := options.(useVmap := useVmap);
      options := options.(returnAttention := returnAttention);
      options := options.(returnAlternatives := returnAlternatives);

      var results := pool.post(sourceInput.value, targetPrefixInput.value, options);
      var pyResults := ResultsToPyList(results);
      r := Ok(pyResults);
    }
  }

  // ---------------------------------------------------------------------------
  // Properties of translate_batch

  /**
   * An absent or empty source yields an empty list whatever the target
   * prefix, the options and the pool: nothing is converted or posted.
   */
  lemma EmptySourceShortCircuits(post: PostFn, post': PostFn, source: PyVal,
                                 targetPrefix: PyVal, targetPrefix': PyVal,
                                 options: TranslationOptions, options': TranslationOptions)
    requires source.PyNone? || Len(source) == Some(0)
    ensures TranslateBatchOutcome(post, source, targetPrefix, options) == Ok(PyList([]))
    ensures TranslateBatchOutcome(post, source, targetPrefix, options)
         == TranslateBatchOutcome(post', source, targetPrefix', options')
  {
  }

  /**
   * A None example in the source, preceded only by examples that convert, is
   * rejected with InvalidArgument before anything is posted, whatever the
   * target prefix and whatever follows it.
   */
  lemma SourceNoneIsRejected(post: PostFn, items: seq<PyVal>, targetPrefix: PyVal,
                             options: TranslationOptions, i: nat)
    requires i < |items| && items[i].PyNone?
    requires forall j :: 0 <= j < i ==> ConvertItem(items[j], false).Ok?
    ensures TranslateBatchOutcome(post, PyList(items), targetPrefix, options)
         == Err(InvalidArgument(NoneValueMessage))
  {
    MapAllFirstFailure(items, ItemConverter(false), i);
  }

  /**
   * A well-typed request is posted as its token lists: the source strictly
   * (no None example), the target prefix optionally (a None prefix is an
   * empty one, an absent prefix list is the empty batch).
   */
  lemma TypedRequestIsPosted(post: PostFn, sourceItems: seq<PyVal>, targetPrefix: PyVal,
                             options: TranslationOptions)
    requires |sourceItems| > 0
    requires forall j :: 0 <= j < |sourceItems| ==> IsTokenList(sourceItems[j])
    requires targetPrefix.PyNone? || targetPrefix.PyList?
    requires targetPrefix.PyList? ==>
               forall j :: 0 <= j < |targetPrefix.items| ==> IsBatchItem(targetPrefix.items[j])
    ensures TranslateBatchOutcome(post, PyList(sourceItems), targetPrefix, options)
         == Ok(ResultsToPy(post(TypedBatchTokens(sourceItems),
                                if targetPrefix.PyNone? then [] else TypedBatchTokens(targetPrefix.items),
                                options)))
  {
    StrictBatchOnTypedList(sourceItems);
    if targetPrefix.PyList? {
      OptionalBatchOnTypedList(targetPrefix.items);
    }
  }

  /**
   * A successful translate_batch on a non-empty source returns one list per
   * result of post, in order, from the converted source and target prefix.
   */
  lemma SuccessFlattensPostedResults(post: PostFn, source: PyVal, targetPrefix: PyVal,
                                     options: TranslationOptions)
    requires !source.PyNone? && Len(source) != Some(0)
    requires TranslateBatchOutcome(post, source, targetPrefix, options).Ok?
    ensures BatchOf(source, false).Ok? && BatchOf(targetPrefix, true).Ok?
    ensures var results := post(BatchOf(source, false).value, BatchOf(targetPrefix, true).value, options);
      var out := TranslateBatchOutcome(post, source, targetPrefix, options).value;
      && out == ResultsToPy(results)
      && |out.items| == |results|
      && forall k :: 0 <= k < |results| ==>
           out.items[k] == HypothesesToPy(results[k]) && |out.items[k].items| == results[k].NumHypotheses()
  {
  }
}
