# CTranslate2 Python translator binding, modelled in Dafny

This project models the Python binding of CTranslate2's translator
(`python/translator.cc`). The binding is a thin layer over the translator
pool. It turns Python lists of token lists into C++ token batches, with a
policy for `None` items. It fills in the decoding options from its keyword
arguments. It treats a read batch size of 0 as the maximum batch size. It
turns the pool's translation results into Python lists of hypothesis dicts
(`score`, `tokens`, and `attention` only when the result has attention).

The translator pool is opaque. `TranslatorPool::post(...).get()` and
`consume_text_file` are two total function values held by the wrapper
(`Translator.TranslatorPool`). The model assumes only that `post` returns a
sequence of results whose score and attention vectors can be indexed for
every hypothesis, as the binding's own indexing needs. The model also
assumes three facts about code it does not contain:

- `num_hypotheses()` is the number of entries of `hypotheses()`.
- `has_attention()` is a flag of its own, not derived from `attention()`.
- `post` and `consume_text_file` are deterministic functions of their
  arguments. Sampling randomness and the contents of the input file are
  not among those arguments, so the model says nothing about them.

Modules, one per concern of the source file:

- `Errors`: `Option`, and `Result` with the three exceptions the model
  covers (`InvalidArgument` from the binding, Python's `TypeError`,
  pybind11's `cast_error`). UTF-8 encoding errors are not among them (see
  "## Left out").
- `PyObjects`: Python values and the interpreter operations the binding
  uses: `len()`, iteration, the cast to `std::string` and dict item
  assignment. Iterating a `str` yields its characters as one-character
  strings, so a bare string is accepted as a list of one-character tokens,
  as it is in Python.
- `Conversion`: `std_vector_to_py_list`, `py_list_to_std_vector` and
  `batch_to_vector`. Each is a method with a loop, proved equal to a
  specification function (`ToPyList`, `TokensOf`, `BatchOf`). Lemmas about
  those functions state the `None` policy and the round trip.
- `Options`: the `TranslationOptions` record and what `translate_file` puts
  in it.
- `TranslationResults`: the results returned by the pool and the loops of
  `translate_batch` that flatten them.
- `Translator`: the `TranslatorWrapper` class with `TranslateFile` and
  `TranslateBatch`. A specification function, `TranslateBatchOutcome`, is
  the reference for `TranslateBatch`, and lemmas are proved about it.

Three behaviours of the code, which the model follows, are easy to misread:

- The code does not check that the target prefix has as many entries as
  the source. No `InvalidArgument` for mismatched lengths is raised here;
  that check, if any, belongs to the pool.
- An empty or `None` source returns an empty list. It is not rejected.
- A zero `read_batch_size` becomes `max_batch_size` even when that is also
  0. The value 0 is then passed to the pool unchanged.

## Model

| member | source | states |
|---|---|---|
| `PyObjects.Len` | python/translator.cc:125 | `len()` succeeds exactly on the iterable objects, and gives the number of items iteration yields |
| `PyObjects.DictSet` | python/translator.cc:154-163 | `hyp[key] = value` makes `key` map to `value` and leaves every other key alone; a new key is appended after the existing entries |
| `Conversion.StdVectorToPyList` | python/translator.cc:14-28 | the loop builds the list holding each vector element, converted, in the same order |
| `Conversion.MapAll` | python/translator.cc:33-34 | converting every item succeeds exactly when each item converts, and then gives one value per item, in order |
| `Conversion.MapAllFirstFailure` | python/translator.cc:44-52 | when all items before `i` convert and item `i` fails, the whole conversion fails with item `i`'s exception |
| `Conversion.MapAllErrorOfSomeItem` | python/translator.cc:44-52 | a failed conversion raises the exception of one of the items |
| `Conversion.PyListToStdVector` | python/translator.cc:30-36 | the loop returns what `TokensOf` specifies: `TypeError` for an object without `len()`, `cast_error` at the first non-str item, otherwise the strings in order |
| `Conversion.TokenListConverts` | python/translator.cc:30-36 | a list converts exactly when its items are all strs, and then yields those strings in order |
| `Conversion.TokensOfNeverInvalidArgument` | python/translator.cc:30-36 | `py_list_to_std_vector` only ever raises `TypeError` or `cast_error` |
| `Conversion.TokensRoundTrip` | python/translator.cc:22-36 | `py_list_to_std_vector` undoes `std_vector_to_py_list` on strings |
| `Conversion.ItemNonePolicy` | python/translator.cc:45-51 | one item raises `InvalidArgument` exactly when it is `None` under the strict policy; a `None` item is an empty example under the optional policy; any other item converts as `py_list_to_std_vector` converts it |
| `Conversion.BatchToVector` | python/translator.cc:38-54 | the loop returns what `BatchOf` specifies, raising at the first item that fails |
| `Conversion.NoneIsEmptyBatch` | python/translator.cc:41-42 | `None` converts to the empty batch under either policy |
| `Conversion.BatchKeepsItems` | python/translator.cc:43-52 | a successful conversion has one example per item, in order; a non-`None` item becomes its `py_list_to_std_vector` tokens; a `None` item becomes an empty example, and only under the optional policy |
| `Conversion.OptionalBatchNeverRejectsNone` | python/translator.cc:45-47 | under the optional policy the conversion never raises `InvalidArgument` |
| `Conversion.StrictBatchOnTypedList` | python/translator.cc:45-49 | on a list of `None`s and str lists, the strict policy raises `InvalidArgument("Invalid None value in input list")` if some item is `None`, and otherwise returns every item's strings in order |
| `Conversion.OptionalBatchOnTypedList` | python/translator.cc:46-47 | on a list of `None`s and str lists, the optional policy always succeeds, and each `None` becomes an empty example at its own index |
| `Conversion.BatchRoundTrip` | python/translator.cc:14-54 | `batch_to_vector` under either policy undoes the list-of-lists encoding of a token batch |
| `Options.FileOptionsAsBatchOptions` | python/translator.cc:89-98 | `translate_file` copies every decoding argument unchanged and keeps the default attention and alternatives flags; its options equal those `translate_batch` builds from the same arguments and the default flags |
| `Options.EffectiveReadBatchSize` | python/translator.cc:100-101 | a read batch size of 0 becomes `max_batch_size`; any other value is kept |
| `TranslationResults.HypothesisToPy` | python/translator.cc:153-163 | the loop body builds the record for hypothesis `i`, including the attention rows, one per attention vector |
| `TranslationResults.ResultsToPyList` | python/translator.cc:150-166 | the nested loops return a list of one list per result, each holding the record of every hypothesis, in order |
| `TranslationResults.ResultsLayout` | python/translator.cc:150-166 | the output holds one list per result, in order; list `k` has exactly `num_hypotheses()` records; record `i` is hypothesis `i`'s |
| `TranslationResults.RecordFields` | python/translator.cc:153-163 | record `i` maps `score` to `scores()[i]` and `tokens` to a list that converts back to `hypotheses()[i]`; it has `attention` exactly when `has_attention()`, holding `attention()[i]`; it has no other key |
| `Translator.TranslatorWrapper.constructor` | python/translator.cc:59-71 | the wrapper holds the pool it is given |
| `Translator.TranslatorWrapper.TranslateFile` | python/translator.cc:73-110 | returns a 1-tuple holding the pool's token count for the effective read batch size and the options `translate_file` fills in field by field |
| `Translator.TranslatorWrapper.TranslateBatch` | python/translator.cc:112-169 | returns exactly what `TranslateBatchOutcome` specifies for the options built from all eleven arguments |
| `Translator.EmptySourceShortCircuits` | python/translator.cc:125-126 | a `None` or empty source gives an empty list, whatever the target prefix, the options and the pool |
| `Translator.SourceNoneIsRejected` | python/translator.cc:128 | a `None` example in the source whose earlier examples all convert raises `InvalidArgument("Invalid None value in input list")`, whatever the target prefix and the later examples (otherwise the first failing example's own error is raised, by `Conversion.MapAllFirstFailure`) |
| `Translator.TypedRequestIsPosted` | python/translator.cc:128-147 | a well-typed request is posted as its token lists: the source converted strictly, the target prefix optionally (a `None` prefix list is the empty batch, a `None` entry an empty prefix) |
| `Translator.SuccessFlattensPostedResults` | python/translator.cc:147-168 | a successful non-empty request returns the flattened results of posting the converted source and target prefix: one list per result, each with `num_hypotheses()` records |

## Left out

- The pool's scheduling, batching, ordering, threads and futures (`TranslatorPool::post`, `consume_text_file`): their code is not part of this model. They are opaque function values.
- The pool's exceptions (decode failures, mismatched prefix lengths): the model assumes `post` returns a sequence of results.
- Model loading and `contains_model`: these are calls into the model engine and the filesystem. The constructor takes an already-built pool.
- The GIL release scopes: concurrency and interpreter plumbing with no effect on the values computed.
- pybind11 module registration and its default argument values: binding metadata.
- Tokens are Unicode strings on both the Python and the C++ side. UTF-8 encoding in `cast<std::string>` (python/translator.cc:34) is not modelled. UTF-8 decoding in `STR_TYPE(x)` (python/translator.cc:26) is not modelled either, nor the exception it raises for a token that is not valid UTF-8. `TokensRoundTrip` and `RecordFields` therefore hold in the program only for tokens that are valid UTF-8.
- The Python 2 `bytes` branch of `STR_TYPE`: the model is Python 3, where tokens are `str`.
- Python-to-C++ conversion of the integer, float and bool arguments (negative sizes, overflow of `size_t`): sizes are unbounded naturals; floats are 32-bit patterns with no arithmetic.
- The default option values: the member initialisers of `TranslationOptions` live in a header that is not part of this model. The wrapper takes the default-constructed value as given. Only the two flags `translate_file` does not set are read from it.
- Other fields of `TranslationOptions` that the binding never sets are not in the record.
- Dicts model only str keys. Objects other than `None`, int, float, str, list, tuple and dict are not modelled.
- Malformed pool results: pool results are assumed to have at least `num_hypotheses()` scores and, when attention is present, attention matrices. The binding indexes them without checks, and this model does not describe what happens otherwise.
