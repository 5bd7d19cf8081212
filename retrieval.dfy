/** The scoring at the end of `test()`: each query row of the similarity
    matrix (one column per gallery row) is scored by its argmax (top-1) and
    by whether its label is among the first `k` indices of a descending
    ranking (top-k). */
module Retrieval {

  /** The `k` of the top-k count. */
  const TopK: nat := 5

  /** One query's similarities to the gallery rows. */
  type Row = seq<real>

  /** `np.argmax`: the first index of the row maximum. */
  function Argmax(row: Row): (i: nat)
    requires |row| > 0
    ensures i < |row|
    ensures forall j :: 0 <= j < |row| ==> row[j] <= row[i]
    ensures forall j :: 0 <= j < i ==> row[j] < row[i]
  {
    if |row| == 1 then 0
    else
      var m := Argmax(row[..|row| - 1]);
      if row[|row| - 1] > row[m] then |row| - 1 else m
  }

  /** Exactly one index is the first maximum: `Argmax` is it. */
  lemma ArgmaxUnique(row: Row, i: nat)
    requires i < |row|
    requires forall j :: 0 <= j < |row| ==> row[j] <= row[i]
    requires forall j :: 0 <= j < i ==> row[j] < row[i]
    ensures i == Argmax(row)
  {
  }

  /** The argmax is `l` exactly when row `l` is a maximum and every earlier
      entry is smaller. */
  lemma ArgmaxIs(row: Row, l: int)
    requires |row| > 0
    ensures Argmax(row) == l <==>
              && 0 <= l < |row|
              && (forall j :: 0 <= j < |row| ==> row[j] <= row[l])
              && (forall j :: 0 <= j < l ==> row[j] < row[l])
  {
    if 0 <= l < |row| && (forall j :: 0 <= j < |row| ==> row[j] <= row[l]) && (forall j :: 0 <= j < l ==> row[j] < row[l]) {
      ArgmaxUnique(row, l);
    }
  }

  /** `sum` over a boolean array: the number of true entries. */
  function Count(bs: seq<bool>): (c: nat)
    ensures c <= |bs|
    ensures c == 0 <==> forall i :: 0 <= i < |bs| ==> !bs[i]
    ensures c == |bs| <==> forall i :: 0 <= i < |bs| ==> bs[i]
  {
    if bs == [] then 0
    else
      var init := bs[..|bs| - 1];
      assert forall i :: 0 <= i < |init| ==> init[i] == bs[i];
      Count(init) + (if bs[|bs| - 1] then 1 else 0)
  }

  /** More true entries, pointwise, count at least as many. */
  lemma {:induction false} CountMonotone(a: seq<bool>, b: seq<bool>)
    requires |a| == |b| && forall i :: 0 <= i < |a| ==> a[i] ==> b[i]
    ensures Count(a) <= Count(b)
  {
    if a != [] {
      CountMonotone(a[..|a| - 1], b[..|b| - 1]);
    }
  }

  lemma {:induction false} CountSame(a: seq<bool>, b: seq<bool>)
    requires |a| == |b| && forall i :: 0 <= i < |a| ==> a[i] == b[i]
    ensures Count(a) == Count(b)
  {
    CountMonotone(a, b);
    CountMonotone(b, a);
  }

  /** Every query row has an entry per gallery row, and there is one. */
  predicate Scorable(scores: seq<Row>, labels: seq<int>)
  {
    |labels| == |scores| && forall i :: 0 <= i < |scores| ==> |scores[i]| > 0
  }

  /** `pred_score == track_answer`: whether each query's argmax is its label. */
  function Top1Hits(scores: seq<Row>, labels: seq<int>): (hits: seq<bool>)
    requires Scorable(scores, labels)
    ensures |hits| == |scores|
    ensures forall i :: 0 <= i < |scores| ==> (hits[i] <==> Argmax(scores[i]) == labels[i])
  {
    seq(|scores|, i requires 0 <= i < |scores| => Argmax(scores[i]) == labels[i])
  }

  /** `sum(pred_score == track_answer)`. */
  function Top1Count(scores: seq<Row>, labels: seq<int>): (c: nat)
    requires Scorable(scores, labels)
    ensures c <= |scores|
  {
    Count(Top1Hits(scores, labels))
  }

  /** `argsort(-row)`: the row's indices, each once, ordered so that the
      similarities do not increase. numpy's default sort does not fix the
      order of equal similarities, so any such order is a ranking. */
  predicate IsRanking(row: Row, rk: seq<int>)
  {
    && |rk| == |row|
    && (forall p :: 0 <= p < |rk| ==> 0 <= rk[p] < |row|)
    && (forall x :: 0 <= x < |row| ==> x in rk)
    && (forall p, q :: 0 <= p < q < |rk| ==> rk[p] != rk[q])
    && (forall p, q :: 0 <= p < q < |rk| ==> row[rk[p]] >= row[rk[q]])
  }

  /** `pred_scores[i][:k]`: Python clamps `k` to the length. */
  function Prefix(rk: seq<int>, k: nat): (r: seq<int>)
    ensures |r| == (if k < |rk| then k else |rk|) && r == rk[..|r|]
  {
    if k < |rk| then rk[..k] else rk
  }

  /** Whether each query's label is among the first `k` ranked indices. */
  function TopKHits(labels: seq<int>, ranks: seq<seq<int>>, k: nat): (hits: seq<bool>)
    requires |ranks| == |labels|
    ensures |hits| == |labels|
    ensures forall i :: 0 <= i < |labels| ==> (hits[i] <==> labels[i] in Prefix(ranks[i], k))
  {
    seq(|labels|, i requires 0 <= i < |labels| => labels[i] in Prefix(ranks[i], k))
  }

  function TopKCount(labels: seq<int>, ranks: seq<seq<int>>, k: nat): (c: nat)
    requires |ranks| == |labels|
    ensures c <= |labels|
  {
    Count(TopKHits(labels, ranks, k))
  }

  /** The top-k counter loop. */
  method TopKCorrect(labels: seq<int>, ranks: seq<seq<int>>, k: nat) returns (correct: nat)
    requires |ranks| == |labels|
    ensures correct == TopKCount(labels, ranks, k)
  {
    ghost var hits := TopKHits(labels, ranks, k);
    correct := 0;
    var i := 0;
    while i < |ranks|
      invariant 0 <= i <= |ranks|
      invariant correct == Count(hits[..i])
    {
      assert hits[..i + 1][..i] == hits[..i];
      if labels[i] in Prefix(ranks[i], k) {
        correct := correct + 1;
      }
      i := i + 1;
    }
    assert hits[..i] == hits;
  }

  // ---------------------------------------------------------------------
  // Properties of the scores.

  /** A longer prefix of the ranking can only find more labels. */
  lemma TopKMonotone(labels: seq<int>, ranks: seq<seq<int>>, k1: nat, k2: nat)
    requires |ranks| == |labels| && k1 <= k2
    ensures TopKCount(labels, ranks, k1) <= TopKCount(labels, ranks, k2)
  {
    var a, b := TopKHits(labels, ranks, k1), TopKHits(labels, ranks, k2);
    forall i | 0 <= i < |labels| && a[i]
      ensures b[i]
    {
      var p1, p2 := Prefix(ranks[i], k1), Prefix(ranks[i], k2);
      var j :| 0 <= j < |p1| && p1[j] == labels[i];
      assert p2[j] == labels[i];
    }
    CountMonotone(a, b);
  }

  /** The first ranked index is a maximum of the row. */
  lemma RankingHeadIsMax(row: Row, rk: seq<int>)
    requires IsRanking(row, rk) && |row| > 0
    ensures forall x :: 0 <= x < |row| ==> row[x] <= row[rk[0]]
  {
    forall x | 0 <= x < |row|
      ensures row[x] <= row[rk[0]]
    {
      assert x in rk;
      var p :| 0 <= p < |rk| && rk[p] == x;
      if p > 0 {
        assert row[rk[0]] >= row[rk[p]];
      }
    }
  }

  /** When the maximum of a row is attained once, every ranking starts with
      the argmax. */
  lemma RankingHeadIsArgmax(row: Row, rk: seq<int>)
    requires IsRanking(row, rk) && |row| > 0
    requires forall x :: 0 <= x < |row| && x != Argmax(row) ==> row[x] < row[Argmax(row)]
    ensures rk[0] == Argmax(row)
  {
    RankingHeadIsMax(row, rk);
  }

  /** A ranking a stable sort produces: equal similarities keep index order. */
  predicate IsStableRanking(row: Row, rk: seq<int>)
  {
    && IsRanking(row, rk)
    && (forall p, q :: 0 <= p < q < |rk| && row[rk[p]] == row[rk[q]] ==> rk[p] < rk[q])
  }

  /** A stable ranking starts with the argmax, ties or not. */
  lemma StableHeadIsArgmax(row: Row, rk: seq<int>)
    requires IsStableRanking(row, rk) && |row| > 0
    ensures rk[0] == Argmax(row)
  {
    RankingHeadIsMax(row, rk);
    forall j | 0 <= j < rk[0]
      ensures row[j] < row[rk[0]]
    {
      assert j in rk;
      var p :| 0 <= p < |rk| && rk[p] == j;
      assert 0 < p;
      var head, at := rk[0], rk[p];
      assert row[head] == row[at] ==> head < at;
    }
    ArgmaxUnique(row, rk[0]);
  }

  /** When every ranking starts with its row's argmax, the top-1 count is the
      top-k count for k = 1, so the top-k count for any k >= 1 is at least
      the top-1 count. */
  lemma TopKCoversTop1(scores: seq<Row>, labels: seq<int>, ranks: seq<seq<int>>, k: nat)
    requires Scorable(scores, labels) && |ranks| == |labels| && k >= 1
    requires forall i :: 0 <= i < |scores| ==> IsRanking(scores[i], ranks[i]) && ranks[i][0] == Argmax(scores[i])
    ensures TopKCount(labels, ranks, 1) == Top1Count(scores, labels)
    ensures Top1Count(scores, labels) <= TopKCount(labels, ranks, k)
  {
    var a, b := TopKHits(labels, ranks, 1), Top1Hits(scores, labels);
    forall i | 0 <= i < |labels|
      ensures a[i] == b[i]
    {
      assert Prefix(ranks[i], 1) == [ranks[i][0]];
    }
    CountSame(a, b);
    TopKMonotone(labels, ranks, 1, k);
  }

  /** With `k` at least the gallery size, the top-k count is the number of
      queries whose label is a gallery index. */
  lemma TopKWholeGallery(scores: seq<Row>, labels: seq<int>, ranks: seq<seq<int>>, k: nat)
    requires Scorable(scores, labels) && |ranks| == |labels|
    requires forall i :: 0 <= i < |scores| ==> IsRanking(scores[i], ranks[i]) && |scores[i]| <= k
    ensures TopKCount(labels, ranks, k)
            == Count(seq(|labels|, i requires 0 <= i < |labels| => 0 <= labels[i] < |scores[i]|))
  {
    var hits := TopKHits(labels, ranks, k);
    var inRange := seq(|labels|, i requires 0 <= i < |labels| => 0 <= labels[i] < |scores[i]|);
    forall i | 0 <= i < |labels|
      ensures hits[i] == inRange[i]
    {
      assert Prefix(ranks[i], k) == ranks[i];
    }
    CountSame(hits, inRange);
  }
}
