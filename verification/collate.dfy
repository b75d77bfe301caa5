/** The FasterSpeech data layer's collation routine: a ragged list of example
    records becomes five rectangular batches (audio, audio lengths, bordered
    text, text mask, durations), followed by two shape checks. */
module Collation {
  import opened Outcomes
  import opened Padding
  import Transposition
  import opened DataLayerSetup

  /** One value of an example record. Audio samples have an opaque element
      type `A`; token ids and durations are integers. */
  datatype Field<A> = Samples(samples: seq<A>) | Ids(ids: seq<int>) | Count(n: int)

  /** An example as the dataset yields it: a dict keyed by field name. */
  type Example<A> = map<string, Field<A>>

  /** The batch after transposition: one list of values per key. */
  type Columns<A> = map<string, seq<Field<A>>>

  const AudioKey: string := "audio"
  const AudioLenKey: string := "audio_len"
  const TextKey: string := "text"
  const TextLenKey: string := "text_len"
  const DurKey: string := "dur_true"
  /** Name of the mask output, used in the shape-check message. */
  const TextMaskName: string := "text_mask"

  /** The ways collation fails, each named after what the Python code raises. */
  datatype CollateError =
    | EmptyBatch                                // `batch[0]` on no examples: IndexError
    | RaggedBatch                               // an example lacks a key of the first: KeyError
    | MissingKey(key: string)                   // the first example lacks a field read here: KeyError
    | WrongKind(key: string)                    // a field holds a value of another kind
    | EmptyMerge                                // `max` over no rows: ValueError
    | NegativeSize                              // `torch.ones` of a negative size
    | ShapeMismatch(left: string, right: string) // one of the closing asserts: AssertionError

  /** The five outputs of collation, in the order they are returned. */
  datatype Collated<A> = Collated(
    audio: seq<seq<A>>,
    audioLen: seq<int>,
    text: seq<seq<int>>,
    textMask: seq<seq<bool>>,
    dur: seq<seq<int>>)

  // ---------------------------------------------------------------------------
  // Reading columns

  /** Column `key` as audio sample sequences. */
  function SamplesColumn<A>(cols: Columns<A>, key: string): (r: Result<seq<seq<A>>, CollateError>)
    ensures key !in cols ==> r == Err(MissingKey(key))
    ensures key in cols ==> (r.Ok? <==> forall i :: 0 <= i < |cols[key]| ==> cols[key][i].Samples?)
    ensures r.Err? ==> r == Err(MissingKey(key)) || r == Err(WrongKind(key))
    ensures r.Ok? ==> |r.value| == |cols[key]|
    ensures r.Ok? ==> forall i :: 0 <= i < |r.value| ==> cols[key][i] == Samples(r.value[i])
  {
    if key !in cols then Err(MissingKey(key))
    else if forall i :: 0 <= i < |cols[key]| ==> cols[key][i].Samples? then
      Ok(seq(|cols[key]|, i requires 0 <= i < |cols[key]| && cols[key][i].Samples? => cols[key][i].samples))
    else Err(WrongKind(key))
  }

  /** Column `key` as integer sequences (token ids or durations). */
  function IdsColumn<A>(cols: Columns<A>, key: string): (r: Result<seq<seq<int>>, CollateError>)
    ensures key !in cols ==> r == Err(MissingKey(key))
    ensures key in cols ==> (r.Ok? <==> forall i :: 0 <= i < |cols[key]| ==> cols[key][i].Ids?)
    ensures r.Err? ==> r == Err(MissingKey(key)) || r == Err(WrongKind(key))
    ensures r.Ok? ==> |r.value| == |cols[key]|
    ensures r.Ok? ==> forall i :: 0 <= i < |r.value| ==> cols[key][i] == Ids(r.value[i])
  {
    if key !in cols then Err(MissingKey(key))
    else if forall i :: 0 <= i < |cols[key]| ==> cols[key][i].Ids? then
      Ok(seq(|cols[key]|, i requires 0 <= i < |cols[key]| && cols[key][i].Ids? => cols[key][i].ids))
    else Err(WrongKind(key))
  }

  /** Column `key` as integers (lengths). */
  function CountColumn<A>(cols: Columns<A>, key: string): (r: Result<seq<int>, CollateError>)
    ensures key !in cols ==> r == Err(MissingKey(key))
    ensures key in cols ==> (r.Ok? <==> forall i :: 0 <= i < |cols[key]| ==> cols[key][i].Count?)
    ensures r.Err? ==> r == Err(MissingKey(key)) || r == Err(WrongKind(key))
    ensures r.Ok? ==> |r.value| == |cols[key]|
    ensures r.Ok? ==> forall i :: 0 <= i < |r.value| ==> cols[key][i] == Count(r.value[i])
  {
    if key !in cols then Err(MissingKey(key))
    else if forall i :: 0 <= i < |cols[key]| ==> cols[key][i].Count? then
      Ok(seq(|cols[key]|, i requires 0 <= i < |cols[key]| && cols[key][i].Count? => cols[key][i].n))
    else Err(WrongKind(key))
  }

  // ---------------------------------------------------------------------------
  // Text borders and the mask

  /** `F.pad(text, pad=[1, 1], value=space_id)`: a space id on either side. */
  function Border(text: seq<int>, spaceId: int): (r: seq<int>)
    ensures |r| == |text| + 2
    ensures r[0] == spaceId && r[|text| + 1] == spaceId
    ensures r[1..|text| + 1] == text
  {
    [spaceId] + text + [spaceId]
  }

  /** Every transcript of the batch, bordered, in batch order. */
  function BorderAll(texts: seq<seq<int>>, spaceId: int): (r: seq<seq<int>>)
    ensures |r| == |texts|
    ensures forall i :: 0 <= i < |texts| ==> r[i] == Border(texts[i], spaceId)
    ensures forall i :: 0 <= i < |texts| ==>
      |r[i]| == |texts[i]| + 2 && r[i][0] == spaceId && r[i][|texts[i]| + 1] == spaceId
  {
    seq(|texts|, i requires 0 <= i < |texts| => Border(texts[i], spaceId))
  }

  /** Bordering adds two to the batch width. */
  lemma MaxLenBorderAll(texts: seq<seq<int>>, spaceId: int)
    requires |texts| > 0
    ensures MaxLen(BorderAll(texts, spaceId)) == MaxLen(texts) + 2
  {
    var bordered := BorderAll(texts, spaceId);
    var k :| 0 <= k < |texts| && |texts[k]| == MaxLen(texts);
    assert |bordered[k]| == MaxLen(texts) + 2;
    MaxLenIsLeastBound(bordered, MaxLen(texts) + 2);
  }

  /** The bordered, merged text batch has one row per transcript and is two
      wider than the longest transcript. */
  lemma BorderedShape(texts: seq<seq<int>>, spaceId: int, padId: int)
    requires |texts| > 0
    ensures Merge(BorderAll(texts, spaceId), padId).Ok?
    ensures Shape(Merge(BorderAll(texts, spaceId), padId).value) == Dims(|texts|, MaxLen(texts) + 2)
  {
    MaxLenBorderAll(texts, spaceId);
  }

  /** `row` is the mask of a transcript of length `length` in a batch of
      width `width`: `length + 2` trues, then falses. */
  ghost predicate MaskRow(row: seq<bool>, length: int, width: nat) {
    && |row| == width
    && forall j :: 0 <= j < width ==> (row[j] <==> j < length + 2)
  }

  /** `make_mask(lengths)`: one row of `length + 2` trues per length, padded
      with falses to the widest row. The list of ones is built before the
      merge, so a negative size is reported before an empty batch. */
  function MakeMask(lengths: seq<int>): (r: Result<seq<seq<bool>>, CollateError>)
    ensures r == Err(NegativeSize) <==> exists i :: 0 <= i < |lengths| && lengths[i] + 2 < 0
    ensures r == Err(EmptyMerge) <==> |lengths| == 0
    ensures r.Err? ==> r == Err(NegativeSize) || r == Err(EmptyMerge)
    ensures r.Ok? ==> |r.value| == |lengths| && Rectangular(r.value, |r.value[0]|)
    ensures r.Ok? ==> forall i :: 0 <= i < |lengths| ==> lengths[i] + 2 <= |r.value[0]|
    ensures r.Ok? ==> exists i :: 0 <= i < |lengths| && lengths[i] + 2 == |r.value[0]|
  {
    if exists i :: 0 <= i < |lengths| && lengths[i] + 2 < 0 then Err(NegativeSize)
    else Merge(OnesRows(lengths), false).MapError(_ => EmptyMerge)
  }

  /** `[torch.ones(length + 2) for length in lengths]`. */
  function OnesRows(lengths: seq<int>): (r: seq<seq<bool>>)
    requires forall i :: 0 <= i < |lengths| ==> lengths[i] + 2 >= 0
    ensures |r| == |lengths|
    ensures forall i :: 0 <= i < |lengths| ==> |r[i]| == lengths[i] + 2
    ensures forall i, j :: 0 <= i < |lengths| && 0 <= j < |r[i]| ==> r[i][j]
  {
    seq(|lengths|, i requires 0 <= i < |lengths| && lengths[i] + 2 >= 0 => seq(lengths[i] + 2, _ => true))
  }

  /** Row `i` of the mask is `lengths[i] + 2` trues followed by falses out to
      the batch width. */
  lemma MakeMaskRows(lengths: seq<int>)
    requires MakeMask(lengths).Ok?
    ensures var m := MakeMask(lengths).value;
      forall i :: 0 <= i < |lengths| ==> MaskRow(m[i], lengths[i], |m[0]|)
  {
    var ones := OnesRows(lengths);
    var m := MakeMask(lengths).value;
    MergePadsEachRow(ones, false);
    forall i | 0 <= i < |lengths|
      ensures MaskRow(m[i], lengths[i], |m[0]|)
    {
      assert PaddedTo(m[i], ones[i], MaxLen(ones), false);
      forall j | 0 <= j < |m[0]|
        ensures m[i][j] <==> j < lengths[i] + 2
      {
        if j < lengths[i] + 2 {
          assert m[i][j] == m[i][..|ones[i]|][j];
        }
      }
    }
  }

  // ---------------------------------------------------------------------------
  // Collation

  /** Lifts the transposition's failures into collation errors. The helper
      modules keep error types of their own so that each can be read and proved
      without collation; collation reports every failure in one vocabulary. */
  function FromTranspose(e: Transposition.TransposeError): CollateError {
    match e
    case EmptyBatch => EmptyBatch
    case KeyAbsent => RaggedBatch
  }

  /** `row` is `space_id`, the tokens `t`, `space_id`, then `pad_id` out to `width`. */
  ghost predicate TextRow(row: seq<int>, t: seq<int>, layer: DataLayer, width: nat) {
    && |t| + 2 <= width
    && |row| == width
    && row[0] == layer.spaceId
    && row[1..|t| + 1] == t
    && row[|t| + 1] == layer.spaceId
    && forall j :: |t| + 2 <= j < width ==> row[j] == layer.padId
  }

  /** A bordered transcript padded with the pad id is a text row. */
  lemma PaddedBorderIsTextRow(row: seq<int>, t: seq<int>, layer: DataLayer, width: nat)
    requires PaddedTo(row, Border(t, layer.spaceId), width, layer.padId)
    ensures TextRow(row, t, layer, width)
  {
    var b := Border(t, layer.spaceId);
    assert row[..|b|] == b;
    assert row[0] == b[0];
    assert row[|t| + 1] == b[|t| + 1];
    assert row[1..|t| + 1] == b[1..|t| + 1];
  }

  /** The largest value of `lens` is `longest`. */
  predicate Peaks(lens: seq<int>, longest: int) {
    && (forall i :: 0 <= i < |lens| ==> lens[i] <= longest)
    && (exists i :: 0 <= i < |lens| && lens[i] == longest)
  }

  /** The outputs `c` collate the columns row by row, in example order: audio
      and durations padded with their fills, each text bordered and padded with
      the pad id, each mask `text_len + 2` trues then falses, all of one width. */
  ghost predicate CollatedColumns<A>(
    c: Collated<A>, layer: DataLayer,
    audios: seq<seq<A>>, audioLens: seq<int>, texts: seq<seq<int>>, textLens: seq<int>, durs: seq<seq<int>>,
    audioFill: A)
    requires |textLens| == |texts|
  {
    var width := MaxLen(texts) + 2;
    && |c.audio| == |audios|
    && (forall i :: 0 <= i < |audios| ==> PaddedTo(c.audio[i], audios[i], MaxLen(audios), audioFill))
    && c.audioLen == audioLens
    && |c.text| == |texts|
    && (forall i :: 0 <= i < |texts| ==> TextRow(c.text[i], texts[i], layer, width))
    && |c.textMask| == |texts|
    && (forall i :: 0 <= i < |texts| ==> MaskRow(c.textMask[i], textLens[i], width))
    && |c.dur| == |durs|
    && (forall i :: 0 <= i < |durs| ==> PaddedTo(c.dur[i], durs[i], width, 0))
  }

  /** The rest of collation once every column is read and the mask is built:
      the merges (which cannot fail on a non-empty batch, so where they happen
      does not matter) and the two shape assertions. */
  function Assemble<A>(
    layer: DataLayer, audios: seq<seq<A>>, audioLens: seq<int>, texts: seq<seq<int>>,
    textMask: seq<seq<bool>>, durs: seq<seq<int>>, audioFill: A): (r: Result<Collated<A>, CollateError>)
    requires |audios| > 0 && |texts| > 0 && |durs| > 0
    ensures r.Err? ==> r == Err(ShapeMismatch(TextKey, TextMaskName)) || r == Err(ShapeMismatch(TextKey, DurKey))
    ensures r.Ok? ==> Shape(r.value.text) == Shape(textMask) == Shape(r.value.dur)
  {
    var audio := Merge(audios, audioFill).value;
    var text := Merge(BorderAll(texts, layer.spaceId), layer.padId).value;
    var dur := Merge(durs, 0).value;
    if Shape(text) != Shape(textMask) then Err(ShapeMismatch(TextKey, TextMaskName))
    else if Shape(text) != Shape(dur) then Err(ShapeMismatch(TextKey, DurKey))
    else Ok(Collated(audio, audioLens, text, textMask, dur))
  }

  /** Everything after the transposition: read the columns in the order the
      source reads them, build the mask, merge and check shapes. `cols` is a
      transposed batch of `n` examples, so every column has `n` entries. */
  function CollateColumns<A>(layer: DataLayer, cols: Columns<A>, n: nat, audioFill: A): (r: Result<Collated<A>, CollateError>)
    requires n > 0
    requires forall k :: k in cols ==> |cols[k]| == n
    ensures r.Err? ==> !r.error.EmptyBatch? && !r.error.RaggedBatch?
    ensures r.Ok? ==> |r.value.audio| == |r.value.audioLen| == n
    ensures r.Ok? ==> |r.value.text| == |r.value.textMask| == |r.value.dur| == n
    ensures r.Ok? ==> Shape(r.value.text) == Shape(r.value.textMask) == Shape(r.value.dur)
  {
    var audios :- SamplesColumn(cols, AudioKey);
    var audioLens :- CountColumn(cols, AudioLenKey);
    var texts :- IdsColumn(cols, TextKey);
    var textLens :- CountColumn(cols, TextLenKey);
    var textMask :- MakeMask(textLens);
    var durs :- IdsColumn(cols, DurKey);
    Assemble(layer, audios, audioLens, texts, textMask, durs, audioFill)
  }

  /** `_collate(batch)`: transpose the batch, then collate its columns. An
      empty batch fails first, and only then. `audioFill` is the zero sample
      audio is padded with (0.0 in the source); durations are padded with 0
      and text with the pad id. */
  function Collate<A>(layer: DataLayer, batch: seq<Example<A>>, audioFill: A): (r: Result<Collated<A>, CollateError>)
    ensures r == Err(EmptyBatch) <==> |batch| == 0
    ensures r.Ok? ==> |r.value.audio| == |r.value.audioLen| == |batch|
    ensures r.Ok? ==> |r.value.text| == |r.value.textMask| == |r.value.dur| == |batch|
    ensures r.Ok? ==> Shape(r.value.text) == Shape(r.value.textMask) == Shape(r.value.dur)
  {
    var cols :- Transposition.Transpose(batch).MapError(FromTranspose);
    CollateColumns(layer, cols, |batch|, audioFill)
  }

  // ---------------------------------------------------------------------------
  // Collation of columns

  /** Bordered text and mask have the same shape exactly when the largest
      `text_len` is the length of the longest transcript. */
  lemma TextMaskShapesAgree(texts: seq<seq<int>>, textLens: seq<int>, spaceId: int, padId: int)
    requires |texts| > 0 && |textLens| == |texts|
    requires MakeMask(textLens).Ok?
    ensures Shape(Merge(BorderAll(texts, spaceId), padId).value) == Shape(MakeMask(textLens).value)
      <==> Peaks(textLens, MaxLen(texts))
  {
    var longest := MaxLen(texts);
    var mask := MakeMask(textLens).value;
    var w := |mask[0]|;
    BorderedShape(texts, spaceId, padId);
    assert Shape(mask) == Dims(|texts|, w);
    if w == longest + 2 {
      assert Peaks(textLens, longest);
    }
    if Peaks(textLens, longest) {
      var k :| 0 <= k < |textLens| && textLens[k] == longest;
      var j :| 0 <= j < |textLens| && textLens[j] + 2 == w;
      assert textLens[k] + 2 <= w;
      assert textLens[j] <= longest;
    }
  }

  /** When every `text_len` is the length of its transcript, the mask can be
      built and has the shape of the bordered text. */
  lemma MatchingLengthsMaskAgrees(texts: seq<seq<int>>, textLens: seq<int>, spaceId: int, padId: int)
    requires |texts| > 0 && |textLens| == |texts|
    requires forall i :: 0 <= i < |texts| ==> textLens[i] == |texts[i]|
    ensures MakeMask(textLens).Ok?
    ensures Shape(Merge(BorderAll(texts, spaceId), padId).value) == Shape(MakeMask(textLens).value)
  {
    var k :| 0 <= k < |texts| && |texts[k]| == MaxLen(texts);
    assert textLens[k] == MaxLen(texts);
    TextMaskShapesAgree(texts, textLens, spaceId, padId);
  }

  /** Bordered text and durations have the same shape exactly when the longest
      duration list is two longer than the longest transcript. */
  lemma TextDurShapesAgree(texts: seq<seq<int>>, durs: seq<seq<int>>, spaceId: int, padId: int)
    requires |texts| > 0 && |durs| == |texts|
    ensures Shape(Merge(BorderAll(texts, spaceId), padId).value) == Shape(Merge(durs, 0).value)
      <==> MaxLen(durs) == MaxLen(texts) + 2
  {
    BorderedShape(texts, spaceId, padId);
    MergeShape(durs, 0);
  }

  /** The column-level success condition: the text and mask agree when the
      largest `text_len` is the longest text, and durations agree when the
      longest duration list is two longer than the longest text. */
  lemma AssembleOkIff<A>(
    layer: DataLayer, audios: seq<seq<A>>, audioLens: seq<int>, texts: seq<seq<int>>,
    textLens: seq<int>, durs: seq<seq<int>>, audioFill: A)
    requires |audios| > 0 && |texts| > 0 && |durs| == |texts| && |textLens| == |texts|
    requires MakeMask(textLens).Ok?
    ensures Assemble(layer, audios, audioLens, texts, MakeMask(textLens).value, durs, audioFill).Ok?
      <==> Peaks(textLens, MaxLen(texts)) && MaxLen(durs) == MaxLen(texts) + 2
  {
    TextMaskShapesAgree(texts, textLens, layer.spaceId, layer.padId);
    TextDurShapesAgree(texts, durs, layer.spaceId, layer.padId);
  }

  /** A successful assembly is the three merges and the mask, and its shape
      checks leave the mask and the durations exactly as wide as the bordered
      text. */
  lemma AssembleParts<A>(
    layer: DataLayer, audios: seq<seq<A>>, audioLens: seq<int>, texts: seq<seq<int>>,
    textMask: seq<seq<bool>>, durs: seq<seq<int>>, audioFill: A)
    requires |audios| > 0 && |texts| > 0 && |durs| > 0
    requires Assemble(layer, audios, audioLens, texts, textMask, durs, audioFill).Ok?
    ensures var c := Assemble(layer, audios, audioLens, texts, textMask, durs, audioFill).value;
      && c.audio == Merge(audios, audioFill).value
      && c.audioLen == audioLens
      && c.text == Merge(BorderAll(texts, layer.spaceId), layer.padId).value
      && c.textMask == textMask
      && c.dur == Merge(durs, 0).value
    ensures |textMask| == |texts| && |textMask[0]| == MaxLen(texts) + 2
    ensures |durs| == |texts| && MaxLen(durs) == MaxLen(texts) + 2
  {
    BorderedShape(texts, layer.spaceId, layer.padId);
    MergeShape(durs, 0);
  }

  /** Row `i` of the merged, bordered text is transcript `i` between two space
      ids, padded with the pad id to two more than the longest transcript. */
  lemma BorderedTextRows(texts: seq<seq<int>>, layer: DataLayer)
    requires |texts| > 0
    ensures var text := Merge(BorderAll(texts, layer.spaceId), layer.padId).value;
      forall i :: 0 <= i < |texts| ==> TextRow(text[i], texts[i], layer, MaxLen(texts) + 2)
  {
    var width := MaxLen(texts) + 2;
    var bordered := BorderAll(texts, layer.spaceId);
    var text := Merge(bordered, layer.padId).value;
    MaxLenBorderAll(texts, layer.spaceId);
    MergePadsEachRow(bordered, layer.padId);
    forall i | 0 <= i < |texts|
      ensures TextRow(text[i], texts[i], layer, width)
    {
      assert PaddedTo(text[i], bordered[i], width, layer.padId);
      PaddedBorderIsTextRow(text[i], texts[i], layer, width);
    }
  }

  /** What a successful assembly holds, row by row. */
  lemma AssembleRows<A>(
    layer: DataLayer, audios: seq<seq<A>>, audioLens: seq<int>, texts: seq<seq<int>>,
    textLens: seq<int>, durs: seq<seq<int>>, audioFill: A)
    requires |audios| > 0 && |texts| > 0 && |durs| > 0 && |textLens| == |texts|
    requires MakeMask(textLens).Ok?
    requires Assemble(layer, audios, audioLens, texts, MakeMask(textLens).value, durs, audioFill).Ok?
    ensures CollatedColumns(
      Assemble(layer, audios, audioLens, texts, MakeMask(textLens).value, durs, audioFill).value,
      layer, audios, audioLens, texts, textLens, durs, audioFill)
  {
    var mask := MakeMask(textLens).value;
    AssembleParts(layer, audios, audioLens, texts, mask, durs, audioFill);
    MergePadsEachRow(audios, audioFill);
    BorderedTextRows(texts, layer);
    MakeMaskRows(textLens);
    MergePadsEachRow(durs, 0);
  }
}
