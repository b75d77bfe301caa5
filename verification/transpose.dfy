/** The first step of collation: a batch arrives as a list of example records
    (dicts keyed by field name) and is turned into one column per key of the
    first example, `{key: [example[key] for example in batch] for key in batch[0]}`. */
module Transposition {
  import opened Outcomes

  /** Errors of the comprehension alone; collation, which also reads
      columns, maps them into its own error type. */
  datatype TransposeError =
    | EmptyBatch   // `batch[0]` of an empty list raises IndexError
    | KeyAbsent    // `example[key]` raises KeyError for a key of the first example

  /** Every example has (at least) the keys of the first one. */
  predicate CoversFirstKeys<K, V>(batch: seq<map<K, V>>)
    requires |batch| > 0
  {
    forall i :: 0 <= i < |batch| ==> batch[0].Keys <= batch[i].Keys
  }

  /** The list of dicts as a dict of lists: column `k` holds, in example order,
      every example's value for `k`. */
  function Transpose<K, V>(batch: seq<map<K, V>>): (r: Result<map<K, seq<V>>, TransposeError>)
    ensures r == Err(EmptyBatch) <==> |batch| == 0
    ensures r == Err(KeyAbsent) <==>
      |batch| > 0 && exists i, k :: 0 <= i < |batch| && k in batch[0] && k !in batch[i]
    ensures r.Ok? ==> r.value.Keys == batch[0].Keys
    ensures r.Ok? ==> forall k :: k in r.value ==> |r.value[k]| == |batch|
    ensures r.Ok? ==> forall k, i :: k in r.value && 0 <= i < |batch| ==> r.value[k][i] == batch[i][k]
  {
    if |batch| == 0 then Err(EmptyBatch)
    else if !CoversFirstKeys(batch) then Err(KeyAbsent)
    else
      Ok(map k | k in batch[0] :: seq(|batch|, i requires 0 <= i < |batch| => batch[i][k]))
  }

  /** The inverse direction: row `i` holds entry `i` of every column. */
  function Untranspose<K, V>(cols: map<K, seq<V>>, n: nat): (rows: seq<map<K, V>>)
    requires forall k :: k in cols ==> |cols[k]| == n
    ensures |rows| == n
    ensures forall i :: 0 <= i < n ==> rows[i].Keys == cols.Keys
    ensures forall i, k :: 0 <= i < n && k in cols ==> rows[i][k] == cols[k][i]
  {
    seq(n, i requires 0 <= i < n => map k | k in cols :: cols[k][i])
  }

  /** When every example has the same keys, transposing and transposing back
      gives the batch again: collation neither reorders nor loses examples. */
  lemma TransposeRoundTrip<K, V>(batch: seq<map<K, V>>)
    requires |batch| > 0
    requires forall i :: 0 <= i < |batch| ==> batch[i].Keys == batch[0].Keys
    ensures Transpose(batch).Ok?
    ensures Untranspose(Transpose(batch).value, |batch|) == batch
  {
    assert CoversFirstKeys(batch);
    var cols := Transpose(batch).value;
    var rows := Untranspose(cols, |batch|);
    forall i | 0 <= i < |batch|
      ensures rows[i] == batch[i]
    {
      assert rows[i].Keys == batch[i].Keys;
      forall k | k in rows[i]
        ensures rows[i][k] == batch[i][k]
      {
        assert rows[i][k] == cols[k][i];
      }
    }
  }

  /** Columns of a common, positive length transpose back to themselves. */
  lemma UntransposeRoundTrip<K, V>(cols: map<K, seq<V>>, n: nat)
    requires n > 0
    requires forall k :: k in cols ==> |cols[k]| == n
    ensures Transpose(Untranspose(cols, n)) == Ok(cols)
  {
    var rows := Untranspose(cols, n);
    assert CoversFirstKeys(rows);
    var back := Transpose(rows).value;
    assert back.Keys == cols.Keys;
    forall k | k in cols
      ensures back[k] == cols[k]
    {
      assert |back[k]| == |cols[k]|;
      forall i | 0 <= i < n
        ensures back[k][i] == cols[k][i]
      {
        assert back[k][i] == rows[i][k];
      }
    }
    assert back == cols;
  }
}
