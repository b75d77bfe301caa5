# FasterSpeech batch collation in Dafny

This project models the collation routine of NeMo's `FasterSpeechDataLayer`
(`_collate` in `nemo/collections/tts/fasterspeech_modules.py`). It also models
the two ids the routine reads from the data layer. Those ids are set in the
constructor: `pad_id or 0` and `labels.index(' ')`.

A batch arrives as a list of example records. Each record is a dict keyed by
`audio`, `audio_len`, `text`, `text_len` and `dur_true`. Collation works as follows:

1. It transposes the list of dicts into a dict of lists, one list per key of
   the first example.
2. It right-pads every audio clip with `0.0` to the longest clip (`merge`).
3. It puts a space id on either side of every transcript, then pads the rows
   with the pad id.
4. It builds a boolean mask of `text_len + 2` ones per example, padded with
   zeros (`make_mask`).
5. It pads the durations with 0.
6. It asserts that text, mask and durations have one shape.

Tensors are modelled as sequences along dimension 0. `merge` only ever pads
dimension 0, at its end: `pad[-1]` is the trailing pad of the first dimension.
Audio samples have an opaque element type `A`, so a higher-rank audio tensor is
a sequence of rows.

Modules:

- `Outcomes` (`outcomes.dfy`): `Option` and `Result`. Every exception the
  Python code raises becomes an `Err`.
- `Padding` (`padding.dfy`): `merge`, meaning the batch maximum, right-padding and stacking.
- `Transposition` (`transpose.dfy`): the list-of-dicts to dict-of-lists
  comprehension and its inverse.
- `DataLayerSetup` (`data_layer.dfy`): the pad id and the space id.
- `Collation` (`collate.dfy`): reading the columns, bordering, the mask, the
  merges, the shape checks, and the lemmas on whole columns.
- `CollationFacts` (`collate_facts.dfy`): collation stated per example, against
  the records it was given. It covers when collation succeeds and what every
  output row holds.

## Model

| member | source | states |
|---|---|---|
| Padding.Shape | nemo/collections/tts/fasterspeech_modules.py:184-185 | `tensor.shape` of a stacked batch: as many rows as the batch has, and, for a non-empty batch whose rows share one length, that length as its width |
| Padding.MaxLen | nemo/collections/tts/fasterspeech_modules.py:161 | `max_len` bounds every row length, some row attains it, and it is 0 for an empty list of rows |
| Padding.PadRight | nemo/collections/tts/fasterspeech_modules.py:164-166 | the padded row has exactly `width` entries, keeps the input as its prefix and holds the fill everywhere after it |
| Padding.Merge | nemo/collections/tts/fasterspeech_modules.py:160-167 | `merge` fails (the `max` of nothing) exactly on an empty list; otherwise it returns one row per input, every row as long as the longest input |
| Padding.MergeShape | nemo/collections/tts/fasterspeech_modules.py:161-167 | a non-empty merge succeeds and its stacked shape is the number of inputs by the longest input's length |
| Padding.MergePadsEachRow | nemo/collections/tts/fasterspeech_modules.py:161-167 | row i of the merge is input i, in input order, followed by the fill value out to the batch maximum |
| Padding.MergeOfRectangular | nemo/collections/tts/fasterspeech_modules.py:160-167 | a batch whose rows already share one length is returned unchanged |
| Padding.MergeIdempotent | nemo/collections/tts/fasterspeech_modules.py:160-167 | merging a merged batch again changes nothing |
| Padding.MergeTrimRoundTrip | nemo/collections/tts/fasterspeech_modules.py:164-167 | cutting each merged row back to its input's length recovers the inputs, so padding loses nothing |
| Transposition.Transpose | nemo/collections/tts/fasterspeech_modules.py:172 | fails on an empty batch (`batch[0]`) and, only then, when some example lacks a key of the first one; otherwise it has the first example's keys, and column k holds example i's value for k at position i |
| Transposition.TransposeRoundTrip | nemo/collections/tts/fasterspeech_modules.py:172 | when all examples share their keys, turning the columns back into records gives the batch again, so no example is lost or reordered |
| Transposition.UntransposeRoundTrip | nemo/collections/tts/fasterspeech_modules.py:172 | columns of one positive length, turned into records and transposed again, are unchanged |
| DataLayerSetup.PadIdOf | nemo/collections/tts/fasterspeech_modules.py:141 | `pad_id or 0` is 0 exactly when the argument is absent or 0, and otherwise is the argument |
| DataLayerSetup.PadIdOfIdempotent | nemo/collections/tts/fasterspeech_modules.py:141 | applying `pad_id or 0` to its own result changes nothing |
| DataLayerSetup.IndexOf | nemo/collections/tts/fasterspeech_modules.py:142 | `list.index` finds nothing exactly when the item is absent, and otherwise returns the position of its first occurrence |
| DataLayerSetup.NewDataLayer | nemo/collections/tts/fasterspeech_modules.py:141-142 | construction fails exactly when no label is `' '`; the space id then names the first `' '` label, and the pad id is `pad_id or 0` |
| Collation.SamplesColumn | nemo/collections/tts/fasterspeech_modules.py:174 | reading `batch['audio']` fails with a key error when the key is absent; otherwise it succeeds exactly when every entry is audio, and then returns the entries in order |
| Collation.IdsColumn | nemo/collections/tts/fasterspeech_modules.py:176-182 | reading `batch['text']` or `batch['dur_true']` fails with a key error when the key is absent; otherwise it succeeds exactly when every entry is a sequence of ids, and then returns them in order |
| Collation.CountColumn | nemo/collections/tts/fasterspeech_modules.py:175-181 | reading `batch['audio_len']` or `batch['text_len']` fails with a key error when the key is absent; otherwise it succeeds exactly when every entry is an integer, and then returns them in order |
| Collation.Border | nemo/collections/tts/fasterspeech_modules.py:177 | a bordered transcript is two longer, starts and ends with the space id, and holds the transcript in between |
| Collation.BorderAll | nemo/collections/tts/fasterspeech_modules.py:177 | the comprehension borders every transcript in batch order: row i is `Collation.Border` of transcript i, two longer, with the space id at both ends |
| Collation.MaxLenBorderAll | nemo/collections/tts/fasterspeech_modules.py:176-177 | bordering every transcript makes the longest row exactly two longer |
| Collation.BorderedShape | nemo/collections/tts/fasterspeech_modules.py:176-180 | the text batch has one row per transcript and is two wider than the longest transcript |
| Collation.OnesRows | nemo/collections/tts/fasterspeech_modules.py:170 | one all-true row of `length + 2` entries per length |
| Collation.MakeMask | nemo/collections/tts/fasterspeech_modules.py:169-170 | the mask fails with a negative-size error exactly when some `length + 2` is negative, and with the empty-`max` error exactly on no lengths; otherwise it is rectangular with one row per length and is as wide as the largest `length + 2` |
| Collation.MakeMaskRows | nemo/collections/tts/fasterspeech_modules.py:169-170 | mask row i is true exactly at positions below `lengths[i] + 2`, then false out to the batch width |
| Collation.PaddedBorderIsTextRow | nemo/collections/tts/fasterspeech_modules.py:176-180 | a padded, bordered transcript is the space id, the tokens, the space id, then the pad id out to the width |
| Collation.BorderedTextRows | nemo/collections/tts/fasterspeech_modules.py:176-180 | text row i is the space id, transcript i, the space id, then the pad id out to two more than the longest transcript |
| Collation.Assemble | nemo/collections/tts/fasterspeech_modules.py:174-187 | once the columns are read, only the two shape assertions can fail; a result that passes them has text, mask and durations of one shape |
| Collation.CollateColumns | nemo/collections/tts/fasterspeech_modules.py:174-187 | collating the columns of n examples never reports an empty or ragged batch; on success every output has n rows, and text, mask and durations share one shape |
| Collation.Collate | nemo/collections/tts/fasterspeech_modules.py:159-187 | collation reports an empty batch exactly for an empty batch; on success every output has one row per example, and text, mask and durations share one shape |
| Collation.TextMaskShapesAgree | nemo/collections/tts/fasterspeech_modules.py:176-184 | the first assertion holds exactly when the largest `text_len` is the length of the longest transcript |
| Collation.MatchingLengthsMaskAgrees | nemo/collections/tts/fasterspeech_modules.py:176-184 | when every `text_len` is the length of its transcript, the mask is built and has the shape of the text |
| Collation.TextDurShapesAgree | nemo/collections/tts/fasterspeech_modules.py:176-185 | the second assertion holds exactly when the longest duration list is two longer than the longest transcript |
| Collation.AssembleOkIff | nemo/collections/tts/fasterspeech_modules.py:184-185 | both assertions pass exactly when the largest `text_len` is the longest transcript's length and the longest duration list is two longer than that |
| Collation.AssembleParts | nemo/collections/tts/fasterspeech_modules.py:174-187 | a successful assembly returns the audio, text and duration merges and the mask, with the mask and the durations exactly as wide as the text |
| Collation.AssembleRows | nemo/collections/tts/fasterspeech_modules.py:174-187 | every output row of a successful assembly is its input padded as the source pads it: audio with the fill, text bordered and padded with the pad id, the mask `text_len + 2` trues, durations with 0 |
| CollationFacts.SamplesColumnOfBatch | nemo/collections/tts/fasterspeech_modules.py:172-174 | the audio column of the transposed batch is read exactly when every example holds audio under that key, and it is example i's audio at position i |
| CollationFacts.IdsColumnOfBatch | nemo/collections/tts/fasterspeech_modules.py:172-182 | the text or duration column of the transposed batch is read exactly when every example holds ids under that key, and it is example i's ids at position i |
| CollationFacts.CountColumnOfBatch | nemo/collections/tts/fasterspeech_modules.py:172-181 | the `audio_len` or `text_len` column of the transposed batch is read exactly when every example holds an integer under that key, and it is example i's integer at position i |
| CollationFacts.CollateOfWellTyped | nemo/collections/tts/fasterspeech_modules.py:172-187 | for records with all five fields of the right kinds, collation is building the mask from the `text_len`s, then assembling from the examples' own fields |
| CollationFacts.CollateOfIllTyped | nemo/collections/tts/fasterspeech_modules.py:172-182 | a missing or wrongly typed field in any example makes collation fail |
| CollationFacts.WellTypedCollateOkIff | nemo/collections/tts/fasterspeech_modules.py:169-185 | for well-typed records, collation succeeds exactly when no `text_len` is below -2 and both shape assertions hold |
| CollationFacts.CollateOkIff | nemo/collections/tts/fasterspeech_modules.py:159-187 | collation succeeds exactly for non-empty, key-consistent, well-typed batches with no `text_len` below -2, whose largest `text_len` is the longest transcript's length and whose longest duration list is two longer than that |
| CollationFacts.CollateCorrect | nemo/collections/tts/fasterspeech_modules.py:159-187 | a successful collation holds, for example i in order, its audio padded with the fill, its `audio_len`, its transcript bordered and padded, a mask of `text_len + 2` trues, and its durations padded with 0 |
| CollationFacts.ConsistentIsCollatable | nemo/collections/tts/fasterspeech_modules.py:176-185 | a batch where every `text_len` is its transcript's length and every duration list is two longer passes both assertions |
| CollationFacts.ConsistentBatchCollates | nemo/collections/tts/fasterspeech_modules.py:169-185 | such a batch collates, and its mask is true exactly on the bordered transcript and false on the padding |

## Left out

- Dataset construction (`WaveformFeaturizer`, `AudioDataset`, `FastSpeechDataset`), the `DataLoader` and the `DistributedSampler` (lines 126-140 and 143-157): file I/O and framework wiring whose code is not part of this model.
- `FasterSpeech` (lines 201-250): neural-network numerics.
- `FasterSpeechDurLoss` (lines 277-293): a floating-point loss.
- The neural-type port declarations: metadata for the framework.
- Audio sample values: the element type `A` is opaque, and its fill value is a parameter (`0.0` in the source).
- The `dtype` conversions (`.to(float)`, `long`, `bool`): they only fix the element type, and each column uses a Dafny type of its own.
- `torch.tensor(batch['audio_len'])`: modelled as passing the integer lengths through.
- `batch.pop('text_len')`: the removal has no effect, because the transposed dict is local to the routine.
- Padding.PadRight: takes only non-negative padding amounts. `merge` never asks for a negative one, which `F.pad` would treat as cropping.
- `torch.stack` of rows that differ beyond dimension 0: such rows cannot arise, because the elements of a row are opaque.
- Collation.CollateError: a wrongly typed field (`WrongKind`) is an error of the model. In Python, the tensor library would fail or behave in its own way.
- Collation.CollateError: the KeyError raised during transposition carries no key name (`RaggedBatch`). Which key fails first depends on dict iteration order.
- Collation.Collate: reads the columns before any merge, which changes the Python order of work. The merges cannot fail on a non-empty batch, so the error returned is the same.
- Collation.Assemble: the model assumes Python assertions are enabled. The two shape checks are `assert` statements, and under `python -O` they are stripped: `_collate` then returns text, mask and durations of different shapes without raising. `Assemble`, `CollateColumns`, `Collate`, `AssembleOkIff` and `CollateOkIff` treat the checks as always executed.
- Collation.Assemble: its result carries only the assertion that failed, not the formatted shape message.
