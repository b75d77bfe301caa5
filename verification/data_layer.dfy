/** The part of the FasterSpeech data layer's constructor that collation depends
    on: the padding id and the id of the space label. Dataset and loader
    construction are not part of this model. */
module DataLayerSetup {
  import opened Outcomes

  /** `labels.index(' ')` raises ValueError when no label is a space. */
  datatype SetupError = NoSpaceLabel

  /** The ids collation reads from the data layer. */
  datatype DataLayer = DataLayer(padId: int, spaceId: nat)

  /** The label that borders every transcript. */
  const SpaceLabel: string := " "

  /** `pad_id or 0`: an absent or zero `pad_id` becomes 0, any other is kept. */
  function PadIdOf(padId: Option<int>): (r: int)
    ensures r == 0 <==> padId == None || padId == Some(0)
    ensures padId.Some? ==> r == padId.value
  {
    match padId
    case None => 0
    case Some(p) => if p == 0 then 0 else p
  }

  /** Applying `pad_id or 0` to its own result changes nothing: the stored
      pad id is already normalised. */
  lemma PadIdOfIdempotent(padId: Option<int>)
    ensures PadIdOf(Some(PadIdOf(padId))) == PadIdOf(padId)
  {
  }

  /** Python's `list.index`: the position of the first occurrence of `x`. */
  function IndexOf<T(==)>(xs: seq<T>, x: T): (r: Option<nat>)
    ensures r.None? <==> x !in xs
    ensures r.Some? ==> r.value < |xs| && xs[r.value] == x && x !in xs[..r.value]
  {
    if |xs| == 0 then None
    else if xs[0] == x then Some(0)
    else
      match IndexOf(xs[1..], x)
      case None => None
      case Some(i) =>
        assert xs[..i + 1] == [xs[0]] + xs[1..][..i];
        Some(i + 1)
  }

  /** The constructor's id set-up: fails exactly when no label is a space;
      otherwise the space id is the first space label's index. */
  function NewDataLayer(labels: seq<string>, padId: Option<int>): (r: Result<DataLayer, SetupError>)
    ensures r.Err? <==> SpaceLabel !in labels
    ensures r.Ok? ==> r.value.padId == PadIdOf(padId)
    ensures r.Ok? ==> r.value.spaceId < |labels| && labels[r.value.spaceId] == SpaceLabel
    ensures r.Ok? ==> forall j :: 0 <= j < r.value.spaceId ==> labels[j] != SpaceLabel
  {
    match IndexOf(labels, SpaceLabel)
    case None => Err(NoSpaceLabel)
    case Some(i) =>
      assert forall j :: 0 <= j < i ==> labels[j] == labels[..i][j];
      Ok(DataLayer(PadIdOf(padId), i))
  }
}
