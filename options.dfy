/**
 * The decoding options the binding hands to the translator pool, and how
 * each wrapper fills them in from its keyword arguments.
 */
module Options {
  import opened PyObjects

  /**
   * The fields of ctranslate2::TranslationOptions that the binding sets.
   * Float-valued fields are carried as bit patterns.
   */
  datatype TranslationOptions = TranslationOptions(
    maxBatchSize: nat,
    beamSize: nat,
    numHypotheses: nat,
    lengthPenalty: Float32,
    maxDecodingLength: nat,
    minDecodingLength: nat,
    useVmap: bool,
    returnAttention: bool,
    returnAlternatives: bool,
    samplingTopk: nat,
    samplingTemperature: Float32)

  /**
   * The options translate_file builds: a default-constructed record with
   * every decoding argument written over it, except the attention and
   * alternatives flags, which translate_file never sets.
   */
  function FileOptions(defaults: TranslationOptions,
                       maxBatchSize: nat, beamSize: nat, numHypotheses: nat,
                       lengthPenalty: Float32, maxDecodingLength: nat, minDecodingLength: nat,
                       useVmap: bool, samplingTopk: nat, samplingTemperature: Float32): TranslationOptions
  {
    defaults.(maxBatchSize := maxBatchSize, beamSize := beamSize, lengthPenalty := lengthPenalty,
              samplingTopk := samplingTopk, samplingTemperature := samplingTemperature,
              maxDecodingLength := maxDecodingLength, minDecodingLength := minDecodingLength,
              numHypotheses := numHypotheses, useVmap := useVmap)
  }

  /**
   * translate_file passes every decoding argument through unchanged and
   * keeps the default attention and alternatives flags: its options are
   * exactly those translate_batch builds when called with the default flags.
   */
  lemma FileOptionsAsBatchOptions(defaults: TranslationOptions,
                                  maxBatchSize: nat, beamSize: nat, numHypotheses: nat,
                                  lengthPenalty: Float32, maxDecodingLength: nat, minDecodingLength: nat,
                                  useVmap: bool, samplingTopk: nat, samplingTemperature: Float32)
    ensures var o := FileOptions(defaults, maxBatchSize, beamSize, numHypotheses, lengthPenalty,
                                 maxDecodingLength, minDecodingLength, useVmap, samplingTopk, samplingTemperature);
      && o.returnAttention == defaults.returnAttention
      && o.returnAlternatives == defaults.returnAlternatives
      && o == TranslationOptions(maxBatchSize, beamSize, numHypotheses, lengthPenalty,
                                 maxDecodingLength, minDecodingLength, useVmap,
                                 defaults.returnAttention, defaults.returnAlternatives,
                                 samplingTopk, samplingTemperature)
  {
  }

  /** The read batch size translate_file hands to the pool: 0 stands for max_batch_size. */
  function EffectiveReadBatchSize(readBatchSize: nat, maxBatchSize: nat): (r: nat)
    ensures readBatchSize == 0 ==> r == maxBatchSize
    ensures readBatchSize != 0 ==> r == readBatchSize
  {
    if readBatchSize == 0 then maxBatchSize else readBatchSize
  }
}
