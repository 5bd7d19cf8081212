/** The two ways `build_singer_model` pools the grouped embeddings once the
    grouping loop is done. Artist mode gives one row per artist key, the
    mean of all of that artist's segment embeddings, and one label per
    segment. Track mode gives one row per (artist, track), the mean of that
    track's segment embeddings, and one label per row. Both walk the outer
    dict in key order and fail on the first key no segment filled. */
module Pooling {
  import opened Vectors
  import opened Results
  import opened Grouping

  /** What a call returns: the `embs` rows and the answer labels. */
  datatype Profiles = Profiles(rows: seq<Vector>, labels: seq<int>)

  /** An inner dict as the grouping loop leaves it: keys in order, no empty
      list, every embedding `dim` wide, at least one track. */
  ghost predicate DictPoolable(td: TrackDict, dim: nat)
  {
    && ValidDict(td)
    && td.order != []
    && (forall p :: p in td.lists ==> HasDim(td.lists[p], dim))
  }

  ghost predicate Poolable(t: Table, dim: nat)
  {
    forall k :: 0 <= k < |t| && t[k].Some? ==> DictPoolable(t[k].value, dim)
  }

  predicate AllFilled(t: Table)
  {
    forall k :: 0 <= k < |t| ==> t[k].Some?
  }

  /** The first key whose entry is still None: the key at which either
      pooling loop raises. */
  function FirstEmpty(t: Table): (k: nat)
    requires !AllFilled(t)
    ensures k < |t| && t[k].None?
    ensures forall j :: 0 <= j < k ==> t[j].Some?
  {
    if t[0].None? then 0 else 1 + FirstEmpty(t[1..])
  }

  /** The list of `p`, empty when `p` is not a key. */
  function ListOf(td: TrackDict, p: string): seq<Vector>
  {
    if p in td.lists then td.lists[p] else []
  }

  /** `artist_all_feat` after it has been extended with the lists of the
      first `n` tracks, in insertion order. */
  function FlattenUpTo(td: TrackDict, n: nat): seq<Vector>
    requires n <= |td.order|
  {
    if n == 0 then [] else FlattenUpTo(td, n - 1) + ListOf(td, td.order[n - 1])
  }

  function Flatten(td: TrackDict): seq<Vector>
  {
    FlattenUpTo(td, |td.order|)
  }

  /** `[k] * n`. */
  function Repeat(k: int, n: nat): (r: seq<int>)
    ensures |r| == n && forall i :: 0 <= i < n ==> r[i] == k
  {
    seq(n, _ => k)
  }

  lemma {:induction false} FlattenUpToHasDim(td: TrackDict, n: nat, dim: nat)
    requires n <= |td.order| && DictPoolable(td, dim)
    ensures HasDim(FlattenUpTo(td, n), dim)
    ensures n > 0 ==> |FlattenUpTo(td, n)| > 0
  {
    if n > 0 {
      FlattenUpToHasDim(td, n - 1, dim);
      var prev, v := FlattenUpTo(td, n - 1), td.lists[td.order[n - 1]];
      assert FlattenUpTo(td, n) == prev + v;
      assert forall i :: 0 <= i < |v| ==> (prev + v)[|prev| + i] == v[i];
    }
  }

  /** An artist's row: the mean of all its segment embeddings, over every
      track at once. */
  function ArtistRow(td: TrackDict, dim: nat): (m: Vector)
    requires DictPoolable(td, dim)
    ensures |m| == dim
  {
    FlattenUpToHasDim(td, |td.order|, dim);
    Mean(Flatten(td), dim)
  }

  /** A track's row: the mean of its list. */
  function TrackRow(td: TrackDict, p: string, dim: nat): (m: Vector)
    requires DictPoolable(td, dim) && p in td.lists
    ensures |m| == dim
  {
    Mean(td.lists[p], dim)
  }

  // ---------------------------------------------------------------------
  // Artist mode.

  /** The rows of artist mode for keys 0..n-1. */
  function ArtistRowsUpTo(t: Table, n: nat, dim: nat): (rows: seq<Vector>)
    requires n <= |t| && Poolable(t, dim)
    requires forall k :: 0 <= k < n ==> t[k].Some?
    ensures |rows| == n
    ensures forall k :: 0 <= k < n ==> rows[k] == ArtistRow(t[k].value, dim)
  {
    if n == 0 then [] else ArtistRowsUpTo(t, n - 1, dim) + [ArtistRow(t[n - 1].value, dim)]
  }

  /** The labels of artist mode for keys 0..n-1: each key once per segment. */
  function ArtistLabelsUpTo(t: Table, n: nat): seq<int>
    requires n <= |t|
    requires forall k :: 0 <= k < n ==> t[k].Some?
  {
    if n == 0 then [] else ArtistLabelsUpTo(t, n - 1) + Repeat(n - 1, |Flatten(t[n - 1].value)|)
  }

  /** Artist mode (`forBuildingModel` true). */
  function ArtistProfiles(t: Table, dim: nat): Result<Profiles>
    requires Poolable(t, dim)
  {
    if !AllFilled(t) then Err(EmptyArtist(FirstEmpty(t)))
    else Ok(Profiles(ArtistRowsUpTo(t, |t|, dim), ArtistLabelsUpTo(t, |t|)))
  }

  // ---------------------------------------------------------------------
  // Track mode.

  /** The rows of one artist's tracks, in insertion order. */
  function TrackRowsOf(td: TrackDict, dim: nat): (rows: seq<Vector>)
    requires DictPoolable(td, dim)
    ensures |rows| == |td.order|
    ensures forall i :: 0 <= i < |td.order| ==> rows[i] == TrackRow(td, td.order[i], dim)
  {
    seq(|td.order|, i requires 0 <= i < |td.order| => TrackRow(td, td.order[i], dim))
  }

  function TrackRowsUpTo(t: Table, n: nat, dim: nat): seq<Vector>
    requires n <= |t| && Poolable(t, dim)
    requires forall k :: 0 <= k < n ==> t[k].Some?
  {
    if n == 0 then [] else TrackRowsUpTo(t, n - 1, dim) + TrackRowsOf(t[n - 1].value, dim)
  }

  /** The labels of track mode for keys 0..n-1: each key once per track. */
  function TrackLabelsUpTo(t: Table, n: nat): seq<int>
    requires n <= |t|
    requires forall k :: 0 <= k < n ==> t[k].Some?
  {
    if n == 0 then [] else TrackLabelsUpTo(t, n - 1) + Repeat(n - 1, |t[n - 1].value.order|)
  }

  /** The (artist, track) each track-mode row stands for. */
  function TrackKeysUpTo(t: Table, n: nat): seq<(int, string)>
    requires n <= |t|
    requires forall k :: 0 <= k < n ==> t[k].Some?
  {
    if n == 0 then []
    else
      var order := t[n - 1].value.order;
      TrackKeysUpTo(t, n - 1) + seq(|order|, i requires 0 <= i < |order| => (n - 1, order[i]))
  }

  /** Track mode (`forBuildingModel` false). */
  function TrackProfiles(t: Table, dim: nat): Result<Profiles>
    requires Poolable(t, dim)
  {
    if !AllFilled(t) then Err(EmptyArtist(FirstEmpty(t)))
    else Ok(Profiles(TrackRowsUpTo(t, |t|, dim), TrackLabelsUpTo(t, |t|)))
  }

  /** Both modes fail exactly when some key is still None, at the first. */
  lemma ProfilesFail(t: Table, dim: nat)
    requires Poolable(t, dim)
    ensures ArtistProfiles(t, dim).Err? <==> !AllFilled(t)
    ensures TrackProfiles(t, dim).Err? <==> !AllFilled(t)
    ensures !AllFilled(t) ==> ArtistProfiles(t, dim).failure == EmptyArtist(FirstEmpty(t))
    ensures !AllFilled(t) ==> TrackProfiles(t, dim).failure == EmptyArtist(FirstEmpty(t))
  {
  }

  // ---------------------------------------------------------------------
  // The pooling loops.

  /** A key that is None, with every key before it filled, is the first
      empty key. */
  lemma {:induction false} FirstEmptyIs(t: Table, k: nat)
    requires k < |t| && t[k].None?
    requires forall j :: 0 <= j < k ==> t[j].Some?
    ensures !AllFilled(t) && FirstEmpty(t) == k
    decreases k
  {
    if k > 0 {
      FirstEmptyIs(t[1..], k - 1);
    }
  }

  lemma RepeatSnoc(prefix: seq<int>, k: int, n: nat)
    ensures prefix + Repeat(k, n) + [k] == prefix + Repeat(k, n + 1)
  {
    assert Repeat(k, n) + [k] == Repeat(k, n + 1);
  }

  /** What one pass of the artist-mode loop adds. */
  lemma ArtistStep(t: Table, k: nat, dim: nat)
    requires k < |t| && Poolable(t, dim)
    requires forall j :: 0 <= j <= k ==> t[j].Some?
    ensures |Flatten(t[k].value)| > 0 && HasDim(Flatten(t[k].value), dim)
    ensures ArtistRowsUpTo(t, k + 1, dim) == ArtistRowsUpTo(t, k, dim) + [Mean(Flatten(t[k].value), dim)]
    ensures ArtistLabelsUpTo(t, k + 1) == ArtistLabelsUpTo(t, k) + Repeat(k, |Flatten(t[k].value)|)
  {
    FlattenUpToHasDim(t[k].value, |t[k].value.order|, dim);
  }

  /** The artist-mode loop: for each key in order, gather the key's
      segments (`ArtistSegments`), then append their mean. Raises at the
      first None key. */
  method PoolArtists(t: Table, dim: nat) returns (r: Result<Profiles>)
    requires Poolable(t, dim)
    ensures r == ArtistProfiles(t, dim)
  {
    var embs: seq<Vector> := [];
    var answer: seq<int> := [];
    var k := 0;
    while k < |t|
      invariant 0 <= k <= |t|
      invariant forall j :: 0 <= j < k ==> t[j].Some?
      invariant embs == ArtistRowsUpTo(t, k, dim)
      invariant answer == ArtistLabelsUpTo(t, k)
    {
      if t[k].None? {
        FirstEmptyIs(t, k);
        return Err(EmptyArtist(k));
      }
      var allFeat;
      allFeat, answer := ArtistSegments(t[k].value, k, answer);
      ArtistStep(t, k, dim);
      embs := embs + [Mean(allFeat, dim)];
      k := k + 1;
    }
    return Ok(Profiles(embs, answer));
  }

  /** The body of the artist-mode loop for key `k`: extend
      `artist_all_feat` with each track's list in insertion order, and
      append `k` to the answers once per segment. */
  method ArtistSegments(td: TrackDict, k: int, answer0: seq<int>) returns (allFeat: seq<Vector>, answer: seq<int>)
    requires ValidDict(td)
    ensures allFeat == Flatten(td)
    ensures answer == answer0 + Repeat(k, |allFeat|)
  {
    allFeat := [];
    answer := answer0;
    var i := 0;
    while i < |td.order|
      invariant 0 <= i <= |td.order|
      invariant allFeat == FlattenUpTo(td, i)
      invariant answer == answer0 + Repeat(k, |allFeat|)
    {
      assert td.order[i] in td.order;
      var v := td.lists[td.order[i]];
      allFeat := allFeat + v;
      var c := 0;
      while c < |v|
        invariant 0 <= c <= |v|
        invariant answer == answer0 + Repeat(k, |allFeat| - |v| + c)
      {
        RepeatSnoc(answer0, k, |allFeat| - |v| + c);
        answer := answer + [k];
        c := c + 1;
      }
      i := i + 1;
    }
  }

  /** The track-mode loop: for each key in order and each of its tracks in
      insertion order, append the track's mean and the key. Raises at the
      first None key. */
  method PoolTracks(t: Table, dim: nat) returns (r: Result<Profiles>)
    requires Poolable(t, dim)
    ensures r == TrackProfiles(t, dim)
  {
    var embs: seq<Vector> := [];
    var answer: seq<int> := [];
    var k := 0;
    while k < |t|
      invariant 0 <= k <= |t|
      invariant forall j :: 0 <= j < k ==> t[j].Some?
      invariant embs == TrackRowsUpTo(t, k, dim)
      invariant answer == TrackLabelsUpTo(t, k)
    {
      if t[k].None? {
        FirstEmptyIs(t, k);
        return Err(EmptyArtist(k));
      }
      embs, answer := TrackSegments(t[k].value, k, dim, embs, answer);
      k := k + 1;
    }
    return Ok(Profiles(embs, answer));
  }

  /** The inner loop of track mode: one row per track of the artist, the
      mean of its segments, and the artist key once per track. */
  method TrackSegments(td: TrackDict, k: int, dim: nat, embs0: seq<Vector>, answer0: seq<int>)
    returns (embs: seq<Vector>, answer: seq<int>)
    requires DictPoolable(td, dim)
    ensures embs == embs0 + TrackRowsOf(td, dim)
    ensures answer == answer0 + Repeat(k, |td.order|)
  {
    embs, answer := embs0, answer0;
    var i := 0;
    while i < |td.order|
      invariant 0 <= i <= |td.order|
      invariant embs == embs0 + TrackRowsOf(td, dim)[..i]
      invariant answer == answer0 + Repeat(k, i)
    {
      RepeatSnoc(answer0, k, i);
      embs := embs + [Mean(td.lists[td.order[i]], dim)];
      answer := answer + [k];
      i := i + 1;
    }
  }
}
