/** What collation promises about its outputs, stated per example against the
    records it was given, and when it succeeds at all. */
module CollationFacts {
  import opened Outcomes
  import opened Padding
  import Transposition
  import opened DataLayerSetup
  import opened Collation

  // ---------------------------------------------------------------------------
  // Views of a batch, one example at a time

  /** An example carries every field collation reads, each of the right kind. */
  predicate WellTyped<A>(e: Example<A>) {
    && AudioKey in e && e[AudioKey].Samples?
    && AudioLenKey in e && e[AudioLenKey].Count?
    && TextKey in e && e[TextKey].Ids?
    && TextLenKey in e && e[TextLenKey].Count?
    && DurKey in e && e[DurKey].Ids?
  }

  /** Every example of the batch is well typed. */
  predicate AllWellTyped<A>(batch: seq<Example<A>>) {
    forall i :: 0 <= i < |batch| ==> WellTyped(batch[i])
  }

  /** Field `key` of every example, as sample sequences. */
  function SamplesOf<A>(batch: seq<Example<A>>, key: string): (r: seq<seq<A>>)
    requires forall i :: 0 <= i < |batch| ==> key in batch[i] && batch[i][key].Samples?
    ensures |r| == |batch|
    ensures forall i :: 0 <= i < |batch| ==> r[i] == batch[i][key].samples
  {
    seq(|batch|, i requires 0 <= i < |batch| && key in batch[i] && batch[i][key].Samples? =>
      batch[i][key].samples)
  }

  /** Field `key` of every example, as integer sequences. */
  function IdsOf<A>(batch: seq<Example<A>>, key: string): (r: seq<seq<int>>)
    requires forall i :: 0 <= i < |batch| ==> key in batch[i] && batch[i][key].Ids?
    ensures |r| == |batch|
    ensures forall i :: 0 <= i < |batch| ==> r[i] == batch[i][key].ids
  {
    seq(|batch|, i requires 0 <= i < |batch| && key in batch[i] && batch[i][key].Ids? =>
      batch[i][key].ids)
  }

  /** Field `key` of every example, as integers. */
  function CountsOf<A>(batch: seq<Example<A>>, key: string): (r: seq<int>)
    requires forall i :: 0 <= i < |batch| ==> key in batch[i] && batch[i][key].Count?
    ensures |r| == |batch|
    ensures forall i :: 0 <= i < |batch| ==> r[i] == batch[i][key].n
  {
    seq(|batch|, i requires 0 <= i < |batch| && key in batch[i] && batch[i][key].Count? =>
      batch[i][key].n)
  }

  function Audios<A>(batch: seq<Example<A>>): (r: seq<seq<A>>)
    requires AllWellTyped(batch)
    ensures |r| == |batch|
  {
    SamplesOf(batch, AudioKey)
  }

  function AudioLens<A>(batch: seq<Example<A>>): (r: seq<int>)
    requires AllWellTyped(batch)
    ensures |r| == |batch|
  {
    CountsOf(batch, AudioLenKey)
  }

  function Texts<A>(batch: seq<Example<A>>): (r: seq<seq<int>>)
    requires AllWellTyped(batch)
    ensures |r| == |batch|
  {
    IdsOf(batch, TextKey)
  }

  function TextLens<A>(batch: seq<Example<A>>): (r: seq<int>)
    requires AllWellTyped(batch)
    ensures |r| == |batch|
  {
    CountsOf(batch, TextLenKey)
  }

  function Durs<A>(batch: seq<Example<A>>): (r: seq<seq<int>>)
    requires AllWellTyped(batch)
    ensures |r| == |batch|
  {
    IdsOf(batch, DurKey)
  }

  /** Exactly the batches collation returns for: non-empty, every example has
      the first one's keys and all five fields, no `text_len` below -2, the
      largest `text_len` equals the longest text (so text and mask agree), and
      the longest duration list is two longer than the longest text. */
  predicate Collatable<A>(batch: seq<Example<A>>) {
    && |batch| > 0
    && Transposition.CoversFirstKeys(batch)
    && AllWellTyped(batch)
    && (forall i :: 0 <= i < |batch| ==> TextLens(batch)[i] + 2 >= 0)
    && Peaks(TextLens(batch), MaxLen(Texts(batch)))
    && MaxLen(Durs(batch)) == MaxLen(Texts(batch)) + 2
  }

  /** The outputs `c` are the collation of `batch`, row by row and in order. */
  ghost predicate CollatedFrom<A>(c: Collated<A>, layer: DataLayer, batch: seq<Example<A>>, audioFill: A)
    requires AllWellTyped(batch)
  {
    CollatedColumns(c, layer, Audios(batch), AudioLens(batch), Texts(batch), TextLens(batch), Durs(batch), audioFill)
  }

  // ---------------------------------------------------------------------------
  // Columns of a transposed batch

  /** Reading column `key` after transposition succeeds exactly when every
      example has `key` holding samples, and then yields them in order. */
  lemma SamplesColumnOfBatch<A>(batch: seq<Example<A>>, key: string)
    requires |batch| > 0 && Transposition.CoversFirstKeys(batch)
    ensures var r := SamplesColumn(Transposition.Transpose(batch).value, key);
      && (r.Ok? <==> forall i :: 0 <= i < |batch| ==> key in batch[i] && batch[i][key].Samples?)
      && (r.Ok? ==> |r.value| == |batch| && forall i :: 0 <= i < |batch| ==> batch[i][key] == Samples(r.value[i]))
      && (r.Ok? ==> r.value == SamplesOf(batch, key))
  {
    var cols := Transposition.Transpose(batch).value;
    if key in cols {
      assert forall i :: 0 <= i < |batch| ==> cols[key][i] == batch[i][key];
      var r := SamplesColumn(cols, key);
      if r.Ok? {
        assert forall i :: 0 <= i < |batch| ==> r.value[i] == SamplesOf(batch, key)[i];
      }
    } else {
      assert key !in batch[0];
    }
  }

  /** The same for a column of token ids or durations. */
  lemma IdsColumnOfBatch<A>(batch: seq<Example<A>>, key: string)
    requires |batch| > 0 && Transposition.CoversFirstKeys(batch)
    ensures var r := IdsColumn(Transposition.Transpose(batch).value, key);
      && (r.Ok? <==> forall i :: 0 <= i < |batch| ==> key in batch[i] && batch[i][key].Ids?)
      && (r.Ok? ==> |r.value| == |batch| && forall i :: 0 <= i < |batch| ==> batch[i][key] == Ids(r.value[i]))
      && (r.Ok? ==> r.value == IdsOf(batch, key))
  {
    var cols := Transposition.Transpose(batch).value;
    if key in cols {
      assert forall i :: 0 <= i < |batch| ==> cols[key][i] == batch[i][key];
      var r := IdsColumn(cols, key);
      if r.Ok? {
        assert forall i :: 0 <= i < |batch| ==> r.value[i] == IdsOf(batch, key)[i];
      }
    } else {
      assert key !in batch[0];
    }
  }

  /** The same for a column of lengths. */
  lemma CountColumnOfBatch<A>(batch: seq<Example<A>>, key: string)
    requires |batch| > 0 && Transposition.CoversFirstKeys(batch)
    ensures var r := CountColumn(Transposition.Transpose(batch).value, key);
      && (r.Ok? <==> forall i :: 0 <= i < |batch| ==> key in batch[i] && batch[i][key].Count?)
      && (r.Ok? ==> |r.value| == |batch| && forall i :: 0 <= i < |batch| ==> batch[i][key] == Count(r.value[i]))
      && (r.Ok? ==> r.value == CountsOf(batch, key))
  {
    var cols := Transposition.Transpose(batch).value;
    if key in cols {
      assert forall i :: 0 <= i < |batch| ==> cols[key][i] == batch[i][key];
      var r := CountColumn(cols, key);
      if r.Ok? {
        assert forall i :: 0 <= i < |batch| ==> r.value[i] == CountsOf(batch, key)[i];
      }
    } else {
      assert key !in batch[0];
    }
  }

  // ---------------------------------------------------------------------------
  // Collation

  /** With every field present and of the right kind, reading the columns
      cannot fail: collation builds the mask and assembles. */
  lemma CollateOfWellTyped<A>(layer: DataLayer, batch: seq<Example<A>>, audioFill: A)
    requires |batch| > 0 && Transposition.CoversFirstKeys(batch) && AllWellTyped(batch)
    ensures var mask := MakeMask(TextLens(batch));
      Collate(layer, batch, audioFill) ==
        if mask.Err? then Err(mask.error)
        else Assemble(layer, Audios(batch), AudioLens(batch), Texts(batch), mask.value, Durs(batch), audioFill)
  {
    var cols := Transposition.Transpose(batch).value;
    assert SamplesColumn(cols, AudioKey) == Ok(Audios(batch)) by {
      SamplesColumnOfBatch(batch, AudioKey);
    }
    assert CountColumn(cols, AudioLenKey) == Ok(AudioLens(batch)) by {
      CountColumnOfBatch(batch, AudioLenKey);
    }
    assert IdsColumn(cols, TextKey) == Ok(Texts(batch)) by {
      IdsColumnOfBatch(batch, TextKey);
    }
    assert CountColumn(cols, TextLenKey) == Ok(TextLens(batch)) by {
      CountColumnOfBatch(batch, TextLenKey);
    }
    assert IdsColumn(cols, DurKey) == Ok(Durs(batch)) by {
      IdsColumnOfBatch(batch, DurKey);
    }
  }

  /** A field missing from some example, or holding the wrong kind of value,
      makes collation fail. */
  lemma CollateOfIllTyped<A>(layer: DataLayer, batch: seq<Example<A>>, audioFill: A)
    requires |batch| > 0 && Transposition.CoversFirstKeys(batch) && !AllWellTyped(batch)
    ensures Collate(layer, batch, audioFill).Err?
  {
    SamplesColumnOfBatch(batch, AudioKey);
    CountColumnOfBatch(batch, AudioLenKey);
    IdsColumnOfBatch(batch, TextKey);
    CountColumnOfBatch(batch, TextLenKey);
    IdsColumnOfBatch(batch, DurKey);
  }

  /** For a well-typed batch, collation returns exactly when the mask can be
      built and both shape asserts hold. */
  lemma WellTypedCollateOkIff<A>(layer: DataLayer, batch: seq<Example<A>>, audioFill: A)
    requires |batch| > 0 && Transposition.CoversFirstKeys(batch) && AllWellTyped(batch)
    ensures Collate(layer, batch, audioFill).Ok? <==> Collatable(batch)
  {
    CollateOfWellTyped(layer, batch, audioFill);
    if MakeMask(TextLens(batch)).Ok? {
      AssembleOkIff(layer, Audios(batch), AudioLens(batch), Texts(batch), TextLens(batch), Durs(batch), audioFill);
    }
  }

  /** Collation returns exactly for the batches `Collatable` describes. */
  lemma CollateOkIff<A>(layer: DataLayer, batch: seq<Example<A>>, audioFill: A)
    ensures Collate(layer, batch, audioFill).Ok? <==> Collatable(batch)
  {
    if |batch| == 0 || !Transposition.CoversFirstKeys(batch) {
    } else if !AllWellTyped(batch) {
      CollateOfIllTyped(layer, batch, audioFill);
    } else {
      WellTypedCollateOkIff(layer, batch, audioFill);
    }
  }

  /** A successful collation holds, for every example in order, its audio
      padded with the fill, its audio length, its text bordered by space ids
      and padded with the pad id, a mask of `text_len + 2` trues, and its
      durations padded with 0, all text-side rows two wider than the longest
      transcript. */
  lemma CollateCorrect<A>(layer: DataLayer, batch: seq<Example<A>>, audioFill: A)
    requires Collate(layer, batch, audioFill).Ok?
    ensures Collatable(batch)
    ensures CollatedFrom(Collate(layer, batch, audioFill).value, layer, batch, audioFill)
  {
    CollateOkIff(layer, batch, audioFill);
    CollateOfWellTyped(layer, batch, audioFill);
    AssembleRows(layer, Audios(batch), AudioLens(batch), Texts(batch), TextLens(batch), Durs(batch), audioFill);
  }

  /** Every `text_len` is the length of its text and every duration list is
      two longer than its text: the batch a well-formed dataset yields. */
  predicate Consistent<A>(batch: seq<Example<A>>)
    requires AllWellTyped(batch)
  {
    && (forall i :: 0 <= i < |batch| ==> TextLens(batch)[i] == |Texts(batch)[i]|)
    && (forall i :: 0 <= i < |batch| ==> |Durs(batch)[i]| == |Texts(batch)[i]| + 2)
  }

  /** A consistent batch meets both shape asserts, so collation accepts it. */
  lemma ConsistentIsCollatable<A>(batch: seq<Example<A>>)
    requires |batch| > 0 && Transposition.CoversFirstKeys(batch) && AllWellTyped(batch)
    requires Consistent(batch)
    ensures Collatable(batch)
  {
    var texts := Texts(batch);
    var longest := MaxLen(texts);
    var k :| 0 <= k < |batch| && |texts[k]| == longest;
    assert TextLens(batch)[k] == longest;
    assert |Durs(batch)[k]| == longest + 2;
    MaxLenIsLeastBound(Durs(batch), longest + 2);
  }

  /** A consistent batch collates, and its mask is true exactly on the
      bordered transcript (`len(text) + 2` entries) and false on the padding. */
  lemma ConsistentBatchCollates<A>(layer: DataLayer, batch: seq<Example<A>>, audioFill: A)
    requires |batch| > 0 && Transposition.CoversFirstKeys(batch) && AllWellTyped(batch)
    requires Consistent(batch)
    ensures Collate(layer, batch, audioFill).Ok?
    ensures var c := Collate(layer, batch, audioFill).value;
      forall i, j :: 0 <= i < |batch| && 0 <= j < |c.textMask[i]| ==>
        (c.textMask[i][j] <==> j < |Texts(batch)[i]| + 2)
  {
    ConsistentIsCollatable(batch);
    CollateOkIff(layer, batch, audioFill);
    CollateCorrect(layer, batch, audioFill);
  }
}
