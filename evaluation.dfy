/** `test()`: build the gallery from the model segments (one row per artist
    key) and the queries from the evaluation segments (one row per track),
    compare every query with every gallery row, and count the queries whose
    own artist comes first (top-1) or among the first `TopK` (top-k). The
    similarity measure and `argsort` are parameters. */
module Evaluation {
  import opened Vectors
  import opened Results
  import opened Manifest
  import opened Grouping
  import opened Pooling
  import opened PoolingFacts
  import opened SingerModel
  import opened Retrieval

  /** The two counts and the number of queries they are out of. */
  datatype Scores = Scores(top1: nat, topK: nat, queries: nat)

  /** `cosine_similarity(queries, gallery)`, for any similarity measure. */
  function Similarities(queries: seq<Vector>, gallery: seq<Vector>, sim: (Vector, Vector) -> real): seq<Row>
  {
    seq(|queries|, i requires 0 <= i < |queries| =>
      seq(|gallery|, j requires 0 <= j < |gallery| => sim(queries[i], gallery[j])))
  }

  /** `argsort` applied to every row. */
  function Ranks(scores: seq<Row>, argsort: Row -> seq<int>): seq<seq<int>>
  {
    seq(|scores|, i requires 0 <= i < |scores| => argsort(scores[i]))
  }

  /** A built gallery has a row for every artist key, and row `a` is the
      mean of artist `a`'s model-segment embeddings. */
  lemma GalleryShape(env: Env, segs: seq<Segment>, dim: nat)
    requires FixedDim(env, dim) && SingerProfiles(env, segs, dim, true).Ok?
    ensures Entries(env, segs).Ok?
    ensures forall a :: 0 <= a < NumArtistKeys ==> ArtistEmbs(Entries(env, segs).value, a) != []
    ensures |SingerProfiles(env, segs, dim, true).value.rows| == NumArtistKeys
    ensures forall a :: 0 <= a < NumArtistKeys ==>
              && HasDim(ArtistEmbs(Entries(env, segs).value, a), dim)
              && SingerProfiles(env, segs, dim, true).value.rows[a] == Mean(ArtistEmbs(Entries(env, segs).value, a), dim)
  {
    SingerProfilesEmptyArtist(env, segs, dim, true);
    GalleryRowsByArtist(env, segs, dim);
  }

  /** Built queries have one label per row, each an artist key. */
  lemma QueriesShape(env: Env, segs: seq<Segment>, dim: nat)
    requires FixedDim(env, dim) && SingerProfiles(env, segs, dim, false).Ok?
    ensures var q := SingerProfiles(env, segs, dim, false).value;
            && |q.labels| == |q.rows|
            && forall i :: 0 <= i < |q.labels| ==> 0 <= q.labels[i] < NumArtistKeys
  {
    SingerProfilesEmptyArtist(env, segs, dim, false);
    QueryRowsByTrack(env, segs, dim);
    var q, es := SingerProfiles(env, segs, dim, false).value, Entries(env, segs).value;
    var keys := SegmentTracks(es, NumArtistKeys);
    forall i | 0 <= i < |q.labels|
      ensures 0 <= q.labels[i] < NumArtistKeys
    {
      assert keys[i] in keys;
      assert (keys[i].0, keys[i].1) in keys;
    }
  }

  /** What `test()` computes: the first failure of either build, or the
      two counts over the queries. */
  function TestScores(env: Env, train: seq<Segment>, test: seq<Segment>, dim: nat,
                      sim: (Vector, Vector) -> real, argsort: Row -> seq<int>): (r: Result<Scores>)
    requires FixedDim(env, dim)
    ensures var g, q := SingerProfiles(env, train, dim, true), SingerProfiles(env, test, dim, false);
            && (r.Err? <==> g.Err? || q.Err?)
            && (g.Err? ==> r == Err(g.failure))
            && (g.Ok? && q.Err? ==> r == Err(q.failure))
            && (r.Ok? ==> r.value.top1 <= r.value.queries && r.value.topK <= r.value.queries
                          && r.value.queries == |q.value.rows|)
  {
    match SingerProfiles(env, train, dim, true)
    case Err(f) => Err(f)
    case Ok(g) =>
      match SingerProfiles(env, test, dim, false)
      case Err(f) => Err(f)
      case Ok(q) =>
        GalleryShape(env, train, dim);
        QueriesShape(env, test, dim);
        var scores := Similarities(q.rows, g.rows, sim);
        Ok(Scores(Top1Count(scores, q.labels), TopKCount(q.labels, Ranks(scores, argsort), TopK), |q.rows|))
  }

  /** `test()` after loading the lists and the network. */
  method RunTest(env: Env, train: seq<Segment>, test: seq<Segment>, dim: nat,
                 sim: (Vector, Vector) -> real, argsort: Row -> seq<int>) returns (r: Result<Scores>)
    requires FixedDim(env, dim)
    ensures r == TestScores(env, train, test, dim, sim, argsort)
  {
    var gallery := BuildSingerModel(env, train, dim, true);
    if gallery.Err? {
      return Err(gallery.failure);
    }
    var queries := BuildSingerModel(env, test, dim, false);
    if queries.Err? {
      return Err(queries.failure);
    }
    var g, q := gallery.value, queries.value;
    GalleryShape(env, train, dim);
    QueriesShape(env, test, dim);
    var scores := Similarities(q.rows, g.rows, sim);
    var top1 := Top1Count(scores, q.labels);
    var topK := TopKCorrect(q.labels, Ranks(scores, argsort), TopK);
    r := Ok(Scores(top1, topK, |q.rows|));
  }

  /** Query `i` picks gallery row `l` exactly when no row is more similar
      to it and every lower row is less similar. */
  lemma ArgmaxOfSimilarities(queries: seq<Vector>, gallery: seq<Vector>, sim: (Vector, Vector) -> real, i: nat, l: int)
    requires i < |queries| && |gallery| > 0
    ensures var row := Similarities(queries, gallery, sim)[i];
            && |row| == |gallery|
            && (Argmax(row) == l <==>
                  && 0 <= l < |gallery|
                  && (forall a :: 0 <= a < |gallery| ==> sim(queries[i], gallery[a]) <= sim(queries[i], gallery[l]))
                  && (forall a :: 0 <= a < l ==> sim(queries[i], gallery[a]) < sim(queries[i], gallery[l])))
  {
    var row := Similarities(queries, gallery, sim)[i];
    assert forall a :: 0 <= a < |gallery| ==> row[a] == sim(queries[i], gallery[a]);
    ArgmaxIs(row, l);
  }

  /** A query is a top-1 hit exactly when its own artist's gallery row (the
      mean of that artist's model-segment embeddings, by `GalleryShape`) is
      at least as similar to it as every gallery row, and more similar than
      the row of every lower artist key. */
  lemma Top1HitMeaning(env: Env, train: seq<Segment>, test: seq<Segment>, dim: nat,
                       sim: (Vector, Vector) -> real, i: nat)
    requires FixedDim(env, dim)
    requires SingerProfiles(env, train, dim, true).Ok? && SingerProfiles(env, test, dim, false).Ok?
    requires i < |SingerProfiles(env, test, dim, false).value.rows|
    ensures |SingerProfiles(env, train, dim, true).value.rows| == NumArtistKeys
    ensures |SingerProfiles(env, test, dim, false).value.labels| == |SingerProfiles(env, test, dim, false).value.rows|
    ensures var g, q := SingerProfiles(env, train, dim, true).value, SingerProfiles(env, test, dim, false).value;
            var l := q.labels[i];
            && 0 <= l < NumArtistKeys
            && (Top1Hits(Similarities(q.rows, g.rows, sim), q.labels)[i] <==>
                  && (forall a :: 0 <= a < NumArtistKeys ==> sim(q.rows[i], g.rows[a]) <= sim(q.rows[i], g.rows[l]))
                  && (forall a :: 0 <= a < l ==> sim(q.rows[i], g.rows[a]) < sim(q.rows[i], g.rows[l])))
  {
    GalleryShape(env, train, dim);
    QueriesShape(env, test, dim);
    var g, q := SingerProfiles(env, train, dim, true).value, SingerProfiles(env, test, dim, false).value;
    ArgmaxOfSimilarities(q.rows, g.rows, sim, i, q.labels[i]);
  }

  /** With a stable `argsort` (equal similarities in index order), a top-1
      hit is a top-k hit, so the top-k count is at least the top-1 count. */
  lemma StableTopKCoversTop1(env: Env, train: seq<Segment>, test: seq<Segment>, dim: nat,
                             sim: (Vector, Vector) -> real, argsort: Row -> seq<int>)
    requires FixedDim(env, dim)
    requires forall row :: IsStableRanking(row, argsort(row))
    requires TestScores(env, train, test, dim, sim, argsort).Ok?
    ensures TestScores(env, train, test, dim, sim, argsort).value.top1 <= TestScores(env, train, test, dim, sim, argsort).value.topK
  {
    var g, q := SingerProfiles(env, train, dim, true).value, SingerProfiles(env, test, dim, false).value;
    GalleryShape(env, train, dim);
    QueriesShape(env, test, dim);
    var scores := Similarities(q.rows, g.rows, sim);
    var ranks := Ranks(scores, argsort);
    forall i | 0 <= i < |scores|
      ensures IsRanking(scores[i], ranks[i]) && ranks[i][0] == Argmax(scores[i])
    {
      StableHeadIsArgmax(scores[i], ranks[i]);
    }
    TopKCoversTop1(scores, q.labels, ranks, TopK);
  }
}
