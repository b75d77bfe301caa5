/** The `merge` helper of the collation routine: every sequence of a batch is
    right-padded with a fill value to the length of the longest one, and the
    padded rows are stacked into a rectangular matrix. Tensors are one
    dimensional here; `F.pad` with `pad[-1] = max_len - len` only extends
    dimension 0 at its end. */
module Padding {
  import opened Outcomes

  /** `max` over an empty generator raises `ValueError`. This module's own
      error, so that `merge` stands alone; collation maps it to its `EmptyMerge`. */
  datatype MergeError = EmptyInput

  /** The `max_len` of a batch: the length of its longest row (0 for no rows). */
  function MaxLen<T>(rows: seq<seq<T>>): (m: nat)
    ensures forall i :: 0 <= i < |rows| ==> |rows[i]| <= m
    ensures |rows| > 0 ==> exists i :: 0 <= i < |rows| && |rows[i]| == m
    ensures |rows| == 0 ==> m == 0
  {
    if |rows| == 0 then 0
    else
      var rest := MaxLen(rows[1..]);
      assert forall i :: 1 <= i < |rows| ==> rows[i] == rows[1..][i - 1];
      if |rows[0]| >= rest then |rows[0]| else rest
  }

  /** `row` is `s` followed by `fill` up to `width`. */
  ghost predicate PaddedTo<T>(row: seq<T>, s: seq<T>, width: nat, fill: T) {
    && |s| <= width
    && |row| == width
    && row[..|s|] == s
    && forall j :: |s| <= j < width ==> row[j] == fill
  }

  /** `m` has exactly `width` columns in every row. */
  predicate Rectangular<T>(m: seq<seq<T>>, width: nat) {
    forall i :: 0 <= i < |m| ==> |m[i]| == width
  }

  /** `F.pad(s, pad=[0, width - len(s)], value=fill)` for a non-negative amount. */
  function PadRight<T>(s: seq<T>, width: nat, fill: T): (r: seq<T>)
    requires |s| <= width
    ensures PaddedTo(r, s, width, fill)
  {
    s + seq(width - |s|, _ => fill)
  }

  /** `merge(tensors, value=fill)`: one row per input, in input order, each the
      input padded with `fill` to the batch maximum. */
  function Merge<T>(rows: seq<seq<T>>, fill: T): (r: Result<seq<seq<T>>, MergeError>)
    ensures r.Err? <==> |rows| == 0
    ensures r.Ok? ==> |r.value| == |rows|
    ensures r.Ok? ==> Rectangular(r.value, MaxLen(rows))
  {
    if |rows| == 0 then Err(EmptyInput)
    else
      var width := MaxLen(rows);
      Ok(seq(|rows|, i requires 0 <= i < |rows| => PadRight(rows[i], width, fill)))
  }

  /** The `shape` of a stacked, two-dimensional batch. */
  datatype Dims = Dims(rows: nat, width: nat)

  /** `tensor.shape` of a stacked batch: rows by the length of the first row. */
  function Shape<T>(m: seq<seq<T>>): (d: Dims)
    ensures d.rows == |m|
    ensures forall width: nat :: |m| > 0 && Rectangular(m, width) ==> d.width == width
  {
    Dims(|m|, if |m| == 0 then 0 else |m[0]|)
  }

  /** A merged batch is as many rows as inputs by the longest input. */
  lemma MergeShape<T>(rows: seq<seq<T>>, fill: T)
    requires |rows| > 0
    ensures Merge(rows, fill).Ok?
    ensures Shape(Merge(rows, fill).value) == Dims(|rows|, MaxLen(rows))
  {
  }

  /** Row `i` of a merged batch is input `i` followed by `fill` up to the
      batch maximum: the input survives as a prefix, in input order. */
  lemma MergePadsEachRow<T>(rows: seq<seq<T>>, fill: T)
    requires |rows| > 0
    ensures forall i :: 0 <= i < |rows| ==> PaddedTo(Merge(rows, fill).value[i], rows[i], MaxLen(rows), fill)
  {
    var merged := Merge(rows, fill).value;
    forall i | 0 <= i < |rows|
      ensures PaddedTo(merged[i], rows[i], MaxLen(rows), fill)
    {
      assert merged[i] == PadRight(rows[i], MaxLen(rows), fill);
    }
  }

  /** Any upper bound on the row lengths that some row attains is `MaxLen`. */
  lemma MaxLenIsLeastBound<T>(rows: seq<seq<T>>, m: nat)
    requires forall i :: 0 <= i < |rows| ==> |rows[i]| <= m
    requires exists i :: 0 <= i < |rows| && |rows[i]| == m
    ensures MaxLen(rows) == m
  {
    var k :| 0 <= k < |rows| && |rows[k]| == m;
    var j :| 0 <= j < |rows| && |rows[j]| == MaxLen(rows);
    assert |rows[k]| <= MaxLen(rows);
    assert |rows[j]| <= m;
  }

  /** A batch whose rows already share one length is left unchanged by `merge`. */
  lemma MergeOfRectangular<T>(rows: seq<seq<T>>, width: nat, fill: T)
    requires |rows| > 0
    requires Rectangular(rows, width)
    ensures Merge(rows, fill) == Ok(rows)
  {
    assert |rows[0]| == width;
    MaxLenIsLeastBound(rows, width);
    var merged := Merge(rows, fill).value;
    MergePadsEachRow(rows, fill);
    forall i | 0 <= i < |rows|
      ensures merged[i] == rows[i]
    {
      assert merged[i][..|rows[i]|] == rows[i];
      assert merged[i] == merged[i][..|rows[i]|];
    }
    assert merged == rows;
  }

  /** `merge` is idempotent: merging a merged batch again changes nothing. */
  lemma MergeIdempotent<T>(rows: seq<seq<T>>, fill: T)
    requires |rows| > 0
    ensures Merge(Merge(rows, fill).value, fill) == Merge(rows, fill)
  {
    MergeOfRectangular(Merge(rows, fill).value, MaxLen(rows), fill);
  }

  /** Cutting every merged row back to its input's length recovers the input:
      padding loses nothing. */
  lemma MergeTrimRoundTrip<T>(rows: seq<seq<T>>, fill: T)
    requires |rows| > 0
    ensures var merged := Merge(rows, fill).value;
      seq(|rows|, i requires 0 <= i < |rows| => merged[i][..|rows[i]|]) == rows
  {
    var merged := Merge(rows, fill).value;
    var trimmed := seq(|rows|, i requires 0 <= i < |rows| => merged[i][..|rows[i]|]);
    MergePadsEachRow(rows, fill);
    forall i | 0 <= i < |rows|
      ensures trimmed[i] == rows[i]
    {
      assert PaddedTo(merged[i], rows[i], MaxLen(rows), fill);
    }
  }
}
