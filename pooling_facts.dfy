/** What the pooled profiles mean for the segment list they were grouped
    from. In artist mode, row `a` is the mean of every segment embedding of
    artist `a`, so the gallery's row index is the artist key. The labels
    are the segments' artist ids, sorted. In track mode, there is one row
    per (artist, track) pair that has segments, in key order and then in
    order of first occurrence. */
module PoolingFacts {
  import opened Vectors
  import opened Results
  import opened Grouping
  import opened Pooling

  // ---------------------------------------------------------------------
  // Flattening an inner dict after one more insertion.

  /** Lists of the first `n` tracks agree, so the flattened prefixes agree. */
  lemma {:induction false} FlattenUpToSame(td: TrackDict, td': TrackDict, n: nat)
    requires n <= |td.order| && n <= |td'.order|
    requires forall i :: 0 <= i < n ==> td'.order[i] == td.order[i]
    requires forall i :: 0 <= i < n ==> ListOf(td', td.order[i]) == ListOf(td, td.order[i])
    ensures FlattenUpTo(td', n) == FlattenUpTo(td, n)
  {
    if n > 0 {
      FlattenUpToSame(td, td', n - 1);
    }
  }

  /** The list of each track after inserting `v` under `p`: `p`'s list
      gains `v`, the others are unchanged. */
  lemma ListOfInsert(td: TrackDict, p: string, v: Vector, q: string)
    ensures ListOf(Insert(td, p, v), q) == ListOf(td, q) + (if q == p then [v] else [])
  {
  }

  /** `td'` is `td` with `v` appended to the list of the track at position
      `ip`, and nothing else changed. */
  predicate AppendedAt(td: TrackDict, td': TrackDict, ip: nat, v: Vector)
  {
    && td'.order == td.order
    && ip < |td.order|
    && forall k :: 0 <= k < |td.order| ==>
         ListOf(td', td.order[k]) == ListOf(td, td.order[k]) + (if k == ip then [v] else [])
  }

  /** Inserting under an existing key appends at that key's position. */
  lemma InsertAppendedAt(td: TrackDict, p: string, v: Vector, ip: nat)
    requires Distinct(td.order) && p in td.lists
    requires ip < |td.order| && td.order[ip] == p
    ensures AppendedAt(td, Insert(td, p, v), ip, v)
  {
    forall k | 0 <= k < |td.order|
      ensures ListOf(Insert(td, p, v), td.order[k]) == ListOf(td, td.order[k]) + (if k == ip then [v] else [])
    {
      ListOfInsert(td, p, v, td.order[k]);
    }
  }

  /** The number of rows of the flattened prefix of `n` tracks, track by
      track. */
  function ListsLength(td: TrackDict, n: nat): nat
    requires n <= |td.order|
  {
    if n == 0 then 0 else ListsLength(td, n - 1) + |ListOf(td, td.order[n - 1])|
  }

  lemma {:induction false} FlattenUpToLength(td: TrackDict, n: nat)
    requires n <= |td.order|
    ensures |FlattenUpTo(td, n)| == ListsLength(td, n)
    decreases n
  {
    if n > 0 {
      FlattenUpToLength(td, n - 1);
    }
  }

  lemma {:induction false} ListsLengthAppend(td: TrackDict, td': TrackDict, ip: nat, v: Vector, n: nat)
    requires AppendedAt(td, td', ip, v) && n <= |td.order|
    ensures ListsLength(td', n) == ListsLength(td, n) + (if ip < n then 1 else 0)
    decreases n
  {
    if n > 0 {
      ListsLengthAppend(td, td', ip, v, n - 1);
      assert ListOf(td', td'.order[n - 1]) == ListOf(td, td.order[n - 1]) + (if n - 1 == ip then [v] else []);
    }
  }

  /** Appending at position `ip` adds one row to the flattened prefix of
      `n` tracks exactly when `ip < n`. */
  lemma FlattenUpToAppendCount(td: TrackDict, td': TrackDict, ip: nat, v: Vector, n: nat)
    requires AppendedAt(td, td', ip, v) && n <= |td.order|
    ensures |FlattenUpTo(td', n)| == |FlattenUpTo(td, n)| + (if ip < n then 1 else 0)
  {
    FlattenUpToLength(td, n);
    FlattenUpToLength(td', n);
    ListsLengthAppend(td, td', ip, v, n);
  }

  /** The column sum of the flattened prefix of `n` tracks, track by track. */
  function ListsSum(td: TrackDict, n: nat, j: nat): real
    requires n <= |td.order|
  {
    if n == 0 then 0.0 else ListsSum(td, n - 1, j) + ColumnSum(ListOf(td, td.order[n - 1]), j)
  }

  lemma {:induction false} FlattenUpToSum(td: TrackDict, n: nat, j: nat)
    requires n <= |td.order|
    ensures ColumnSum(FlattenUpTo(td, n), j) == ListsSum(td, n, j)
    decreases n
  {
    if n > 0 {
      FlattenUpToSum(td, n - 1, j);
      ColumnSumConcat(FlattenUpTo(td, n - 1), ListOf(td, td.order[n - 1]), j);
    }
  }

  /** The track at position `k` adds `v`'s component exactly when it is the
      one appended to. */
  lemma AppendedListSum(td: TrackDict, td': TrackDict, ip: nat, v: Vector, k: nat, j: nat)
    requires AppendedAt(td, td', ip, v) && k < |td.order|
    ensures ColumnSum(ListOf(td', td'.order[k]), j) == ColumnSum(ListOf(td, td.order[k]), j) + (if k == ip then At(v, j) else 0.0)
  {
    var l := ListOf(td, td.order[k]);
    if k == ip {
      ColumnSumConcat(l, [v], j);
      ColumnSumSingle(v, j);
    } else {
      assert ListOf(td', td'.order[k]) == l + [];
      assert l + [] == l;
    }
  }

  lemma {:induction false} ListsSumAppend(td: TrackDict, td': TrackDict, ip: nat, v: Vector, n: nat, j: nat)
    requires AppendedAt(td, td', ip, v) && n <= |td.order|
    ensures ListsSum(td', n, j) == ListsSum(td, n, j) + (if ip < n then At(v, j) else 0.0)
    decreases n
  {
    if n > 0 {
      ListsSumAppend(td, td', ip, v, n - 1, j);
      AppendedListSum(td, td', ip, v, n - 1, j);
    }
  }

  /** Appending at position `ip` adds `v`'s component to the column sums of
      the flattened prefix of `n` tracks exactly when `ip < n`. */
  lemma FlattenUpToAppendSum(td: TrackDict, td': TrackDict, ip: nat, v: Vector, n: nat, j: nat)
    requires AppendedAt(td, td', ip, v) && n <= |td.order|
    ensures ColumnSum(FlattenUpTo(td', n), j) == ColumnSum(FlattenUpTo(td, n), j) + (if ip < n then At(v, j) else 0.0)
  {
    FlattenUpToSum(td, n, j);
    FlattenUpToSum(td', n, j);
    ListsSumAppend(td, td', ip, v, n, j);
  }

  lemma ColumnSumSingle(v: Vector, j: nat)
    ensures ColumnSum([v], j) == At(v, j)
  {
    assert [v][..0] == [];
  }

  lemma IndexOf(td: TrackDict, p: string) returns (ip: nat)
    requires ValidDict(td) && p in td.lists
    ensures ip < |td.order| && td.order[ip] == p
  {
    assert p in td.order;
    var i :| 0 <= i < |td.order| && td.order[i] == p;
    ip := i;
  }

  /** Inserting a new key: the old tracks' lists are unchanged and `[v]`
      comes last. */
  lemma FlattenInsertNew(td: TrackDict, p: string, v: Vector)
    requires ValidDict(td) && p !in td.lists
    ensures Flatten(Insert(td, p, v)) == Flatten(td) + [v]
  {
    var td' := Insert(td, p, v);
    var n := |td.order|;
    forall i | 0 <= i < n
      ensures ListOf(td', td.order[i]) == ListOf(td, td.order[i])
    {
      assert td.order[i] in td.lists;
    }
    FlattenUpToSame(td, td', n);
  }

  /** Inserting `v` under any key adds one row to the flattened dict. */
  lemma FlattenInsertCount(td: TrackDict, p: string, v: Vector)
    requires ValidDict(td)
    ensures |Flatten(Insert(td, p, v))| == |Flatten(td)| + 1
  {
    if p in td.lists {
      var ip := IndexOf(td, p);
      InsertAppendedAt(td, p, v, ip);
      FlattenUpToAppendCount(td, Insert(td, p, v), ip, v, |td.order|);
    } else {
      FlattenInsertNew(td, p, v);
    }
  }

  lemma FlattenInsertSum(td: TrackDict, p: string, v: Vector, j: nat)
    requires ValidDict(td)
    ensures ColumnSum(Flatten(Insert(td, p, v)), j) == ColumnSum(Flatten(td), j) + At(v, j)
  {
    if p in td.lists {
      var ip := IndexOf(td, p);
      InsertAppendedAt(td, p, v, ip);
      FlattenUpToAppendSum(td, Insert(td, p, v), ip, v, |td.order|, j);
    } else {
      FlattenInsertNew(td, p, v);
      ColumnSumConcat(Flatten(td), [v], j);
      ColumnSumSingle(v, j);
    }
  }

  // ---------------------------------------------------------------------
  // Artist mode on the grouped segments.

  /** An artist with segments has at least one track. */
  lemma {:induction false} FirstPathsNonEmpty(es: seq<Entry>, a: int)
    requires ArtistEmbs(es, a) != []
    ensures FirstPaths(es, a) != []
    decreases |es|
  {
    var init := es[..|es| - 1];
    if ArtistEmbs(init, a) != [] {
      FirstPathsNonEmpty(init, a);
    }
  }

  /** The step of the grouping loop for artist `a`'s inner dict. */
  lemma GroupStep(es: seq<Entry>, a: int)
    requires InRange(es) && es != [] && 0 <= a < NumArtistKeys
    ensures InRange(es[..|es| - 1])
    ensures var t0, e := Group(es[..|es| - 1]), es[|es| - 1];
            Group(es)[a] == if e.artist != a then t0[a]
                            else Some(Insert(if t0[a].Some? then t0[a].value else EmptyDict(), e.path, e.emb))
  {
    assert InRange(es[..|es| - 1]);
  }

  /** The flattened inner dict of artist `a` holds as many rows as the
      artist has segments. */
  lemma {:induction false} FlattenIsArtistEmbs(es: seq<Entry>, a: int)
    requires InRange(es) && 0 <= a < NumArtistKeys && Group(es)[a].Some?
    ensures |Flatten(Group(es)[a].value)| == |ArtistEmbs(es, a)|
    decreases |es|
  {
    var init, e := es[..|es| - 1], es[|es| - 1];
    GroupStep(es, a);
    var t0 := Group(init);
    GroupValidAt(init, a);
    if t0[a].Some? {
      FlattenIsArtistEmbs(init, a);
    }
    if e.artist == a {
      var td0 := if t0[a].Some? then t0[a].value else EmptyDict();
      FlattenInsertCount(td0, e.path, e.emb);
    }
  }

  /** ... and has the same column sums as the artist's segment embeddings. */
  lemma {:induction false} FlattenSumIsArtistSum(es: seq<Entry>, a: int, j: nat)
    requires InRange(es) && 0 <= a < NumArtistKeys && Group(es)[a].Some?
    ensures ColumnSum(Flatten(Group(es)[a].value), j) == ColumnSum(ArtistEmbs(es, a), j)
    decreases |es|
  {
    var init, e := es[..|es| - 1], es[|es| - 1];
    GroupStep(es, a);
    var t0 := Group(init);
    GroupValidAt(init, a);
    if t0[a].Some? {
      FlattenSumIsArtistSum(init, a, j);
    }
    ArtistEmbsStep(es, a);
    if e.artist == a {
      var td0 := if t0[a].Some? then t0[a].value else EmptyDict();
      InsertSumStep(td0, ArtistEmbs(init, a), e.path, e.emb, j);
    }
  }

  lemma ArtistEmbsStep(es: seq<Entry>, a: int)
    requires es != []
    ensures ArtistEmbs(es, a) == ArtistEmbs(es[..|es| - 1], a) + (if es[|es| - 1].artist == a then [es[|es| - 1].emb] else [])
    ensures es[|es| - 1].artist != a ==> ArtistEmbs(es, a) == ArtistEmbs(es[..|es| - 1], a)
  {
  }

  /** The column-sum step of the grouping loop for the segment's artist. */
  lemma InsertSumStep(td0: TrackDict, embs: seq<Vector>, p: string, v: Vector, j: nat)
    requires ValidDict(td0) && ColumnSum(Flatten(td0), j) == ColumnSum(embs, j)
    ensures ColumnSum(Flatten(Insert(td0, p, v)), j) == ColumnSum(embs + [v], j)
  {
    FlattenInsertSum(td0, p, v, j);
    ColumnSumConcat(embs, [v], j);
    ColumnSumSingle(v, j);
  }

  /** The grouping loop leaves a table both pooling loops accept, when every
      embedding is `dim` wide. */
  lemma GroupPoolable(es: seq<Entry>, dim: nat)
    requires InRange(es)
    requires forall i :: 0 <= i < |es| ==> |es[i].emb| == dim
    ensures Poolable(Group(es), dim)
  {
    var t := Group(es);
    forall a | 0 <= a < |t| && t[a].Some?
      ensures DictPoolable(t[a].value, dim)
    {
      GroupContents(es, a);
      FirstPathsNonEmpty(es, a);
      forall p | p in t[a].value.lists
        ensures HasDim(t[a].value.lists[p], dim)
      {
        BucketHasDim(es, a, p, dim);
      }
    }
  }

  /** Row `a` of artist mode is the mean of all of artist `a`'s segment
      embeddings, whatever tracks they belong to. */
  lemma ArtistRowIsMean(es: seq<Entry>, a: int, dim: nat)
    requires InRange(es) && 0 <= a < NumArtistKeys
    requires forall i :: 0 <= i < |es| ==> |es[i].emb| == dim
    requires Group(es)[a].Some?
    ensures DictPoolable(Group(es)[a].value, dim)
    ensures ArtistEmbs(es, a) != [] && HasDim(ArtistEmbs(es, a), dim)
    ensures ArtistRow(Group(es)[a].value, dim) == Mean(ArtistEmbs(es, a), dim)
  {
    GroupPoolable(es, dim);
    GroupContents(es, a);
    BucketHasDim(es, a, [], dim);
    FlattenIsArtistEmbs(es, a);
    var td := Group(es)[a].value;
    FlattenUpToHasDim(td, |td.order|, dim);
    forall j | 0 <= j < dim
      ensures ColumnSum(Flatten(td), j) == ColumnSum(ArtistEmbs(es, a), j)
    {
      FlattenSumIsArtistSum(es, a, j);
    }
    MeanBySums(Flatten(td), ArtistEmbs(es, a), dim);
  }

  /** The artist-mode labels for keys 0..n-1 are sorted and lie in 0..n-1. */
  lemma {:induction false} ArtistLabelsSorted(t: Table, n: nat)
    requires n <= |t| && forall k :: 0 <= k < n ==> t[k].Some?
    ensures forall i :: 0 <= i < |ArtistLabelsUpTo(t, n)| ==> 0 <= ArtistLabelsUpTo(t, n)[i] < n
    ensures forall i, j :: 0 <= i <= j < |ArtistLabelsUpTo(t, n)| ==> ArtistLabelsUpTo(t, n)[i] <= ArtistLabelsUpTo(t, n)[j]
  {
    if n > 0 {
      ArtistLabelsSorted(t, n - 1);
      var prev, rep := ArtistLabelsUpTo(t, n - 1), Repeat(n - 1, |Flatten(t[n - 1].value)|);
      var labels := ArtistLabelsUpTo(t, n);
      assert labels == prev + rep;
      forall i | 0 <= i < |labels|
        ensures labels[i] == if i < |prev| then prev[i] else n - 1
      {
      }
      forall i | 0 <= i < |labels|
        ensures 0 <= labels[i] < n
      {
      }
      forall i, j | 0 <= i <= j < |labels|
        ensures labels[i] <= labels[j]
      {
        if j < |prev| {
          assert prev[i] <= prev[j];
        }
      }
    }
  }

  /** Each key occurs in the artist-mode labels for keys 0..n-1 once per row
      of its flattened dict. */
  lemma {:induction false} ArtistLabelsCount(t: Table, n: nat, a: int)
    requires n <= |t| && forall k :: 0 <= k < n ==> t[k].Some?
    ensures multiset(ArtistLabelsUpTo(t, n))[a] == if 0 <= a < n then |Flatten(t[a].value)| else 0
    decreases n
  {
    if n > 0 {
      ArtistLabelsCount(t, n - 1, a);
      var prev, rep := ArtistLabelsUpTo(t, n - 1), Repeat(n - 1, |Flatten(t[n - 1].value)|);
      RepeatCount(n - 1, |Flatten(t[n - 1].value)|, a);
      assert ArtistLabelsUpTo(t, n) == prev + rep;
      calc {
        multiset(ArtistLabelsUpTo(t, n))[a];
        (multiset(prev) + multiset(rep))[a];
        multiset(prev)[a] + multiset(rep)[a];
      }
    }
  }

  lemma {:induction false} RepeatCount(k: int, m: nat, a: int)
    ensures multiset(Repeat(k, m))[a] == if a == k then m else 0
  {
    if m > 0 {
      RepeatCount(k, m - 1, a);
      assert Repeat(k, m) == Repeat(k, m - 1) + [k];
    }
  }

  /** Key `a` of the grouped table is None exactly when artist `a` has no
      segment, and otherwise a well-formed inner dict. */
  lemma GroupValidAt(es: seq<Entry>, a: int)
    requires InRange(es) && 0 <= a < NumArtistKeys
    ensures Group(es)[a].None? <==> ArtistEmbs(es, a) == []
    ensures Group(es)[a].Some? ==> ValidDict(Group(es)[a].value)
  {
    GroupContents(es, a);
  }

  /** Every key 0..299 is filled exactly when every artist key has a segment. */
  lemma GroupAllFilled(es: seq<Entry>)
    requires InRange(es)
    ensures AllFilled(Group(es)) <==> forall a :: 0 <= a < NumArtistKeys ==> ArtistEmbs(es, a) != []
  {
    var t := Group(es);
    if AllFilled(t) {
      forall a | 0 <= a < NumArtistKeys
        ensures ArtistEmbs(es, a) != []
      {
        GroupValidAt(es, a);
      }
    } else {
      var k := FirstEmpty(t);
      GroupValidAt(es, k);
    }
  }

  /** Either pooling mode over the grouped segments fails exactly when some
      key in 0..299 has no segment, and then names the first such key. */
  lemma PoolingFailsOnEmptyArtist(es: seq<Entry>, dim: nat)
    requires InRange(es)
    requires forall i :: 0 <= i < |es| ==> |es[i].emb| == dim
    ensures Poolable(Group(es), dim)
    ensures ArtistProfiles(Group(es), dim).Err? <==> exists a :: 0 <= a < NumArtistKeys && ArtistEmbs(es, a) == []
    ensures TrackProfiles(Group(es), dim).Err? <==> ArtistProfiles(Group(es), dim).Err?
    ensures ArtistProfiles(Group(es), dim).Err? ==>
              var f := ArtistProfiles(Group(es), dim).failure;
              && TrackProfiles(Group(es), dim).failure == f
              && f.EmptyArtist? && f.key < NumArtistKeys
              && ArtistEmbs(es, f.key) == []
              && forall b :: 0 <= b < f.key ==> ArtistEmbs(es, b) != []
  {
    GroupPoolable(es, dim);
    var t := Group(es);
    GroupAllFilled(es);
    ProfilesFail(t, dim);
    if !AllFilled(t) {
      var k := FirstEmpty(t);
      GroupValidAt(es, k);
      forall b | 0 <= b < k
        ensures ArtistEmbs(es, b) != []
      {
        GroupValidAt(es, b);
      }
    }
  }

  /** Artist mode over the grouped segments, when every key has a segment:
      one row per key, in key order, row `a` the mean of artist `a`'s
      segment embeddings; one label per segment, the segments' artist ids
      sorted. */
  lemma ArtistProfilesOfSegments(es: seq<Entry>, dim: nat)
    requires InRange(es)
    requires forall i :: 0 <= i < |es| ==> |es[i].emb| == dim
    requires forall a :: 0 <= a < NumArtistKeys ==> ArtistEmbs(es, a) != []
    ensures Poolable(Group(es), dim)
    ensures ArtistProfiles(Group(es), dim).Ok?
    ensures var p := ArtistProfiles(Group(es), dim).value;
            && |p.rows| == NumArtistKeys
            && (forall a :: 0 <= a < NumArtistKeys ==>
                  HasDim(ArtistEmbs(es, a), dim) && p.rows[a] == Mean(ArtistEmbs(es, a), dim))
            && |p.labels| == |es|
            && (forall i, j :: 0 <= i <= j < |p.labels| ==> p.labels[i] <= p.labels[j])
            && multiset(p.labels) == multiset(ArtistIds(es))
  {
    GroupPoolable(es, dim);
    GroupAllFilled(es);
    var t := Group(es);
    var p := ArtistProfiles(t, dim).value;
    forall a | 0 <= a < NumArtistKeys
      ensures HasDim(ArtistEmbs(es, a), dim) && p.rows[a] == Mean(ArtistEmbs(es, a), dim)
    {
      ArtistRowIsMean(es, a, dim);
    }
    ArtistLabelsSorted(t, |t|);
    ArtistLabelsMatchIds(es);
    assert |p.labels| == |multiset(p.labels)| == |ArtistIds(es)|;
  }

  /** The artist-mode labels are the segments' artist ids, as a multiset. */
  lemma ArtistLabelsMatchIds(es: seq<Entry>)
    requires InRange(es)
    requires forall a :: 0 <= a < NumArtistKeys ==> Group(es)[a].Some?
    ensures multiset(ArtistLabelsUpTo(Group(es), NumArtistKeys)) == multiset(ArtistIds(es))
  {
    var t := Group(es);
    var labels := ArtistLabelsUpTo(t, NumArtistKeys);
    forall a
      ensures multiset(labels)[a] == multiset(ArtistIds(es))[a]
    {
      ArtistLabelsCount(t, NumArtistKeys, a);
      ArtistEmbsCount(es, a);
      if 0 <= a < NumArtistKeys {
        FlattenIsArtistEmbs(es, a);
      } else {
        assert a !in ArtistIds(es);
      }
    }
  }

  // ---------------------------------------------------------------------
  // Track mode on the grouped segments.

  /** Track mode has as many rows and labels as (artist, track) keys. */
  lemma {:induction false} TrackLengths(t: Table, n: nat, dim: nat)
    requires n <= |t| && Poolable(t, dim) && forall k :: 0 <= k < n ==> t[k].Some?
    ensures |TrackRowsUpTo(t, n, dim)| == |TrackKeysUpTo(t, n)| == |TrackLabelsUpTo(t, n)|
    decreases n
  {
    if n > 0 {
      TrackLengths(t, n - 1, dim);
    }
  }

  /** Row `i` of track mode is the mean of the list of track `keys[i].1` of
      artist `keys[i].0`, and its label is that artist. */
  lemma {:induction false} TrackKeyAt(t: Table, n: nat, dim: nat, i: nat)
    requires n <= |t| && Poolable(t, dim) && forall k :: 0 <= k < n ==> t[k].Some?
    requires i < |TrackKeysUpTo(t, n)|
    ensures |TrackRowsUpTo(t, n, dim)| == |TrackKeysUpTo(t, n)| == |TrackLabelsUpTo(t, n)|
    ensures var key := TrackKeysUpTo(t, n)[i];
            && 0 <= key.0 < n
            && key.1 in t[key.0].value.lists
            && TrackLabelsUpTo(t, n)[i] == key.0
            && TrackRowsUpTo(t, n, dim)[i] == TrackRow(t[key.0].value, key.1, dim)
    decreases n
  {
    TrackLengths(t, n, dim);
    TrackLengths(t, n - 1, dim);
    var td := t[n - 1].value;
    var keys0, rows0, labels0 := TrackKeysUpTo(t, n - 1), TrackRowsUpTo(t, n - 1, dim), TrackLabelsUpTo(t, n - 1);
    var more := seq(|td.order|, i requires 0 <= i < |td.order| => (n - 1, td.order[i]));
    assert TrackKeysUpTo(t, n) == keys0 + more;
    assert TrackRowsUpTo(t, n, dim) == rows0 + TrackRowsOf(td, dim);
    assert TrackLabelsUpTo(t, n) == labels0 + Repeat(n - 1, |td.order|);
    if i < |keys0| {
      TrackKeyAt(t, n - 1, dim, i);
    } else {
      var k := i - |keys0|;
      assert td.order[k] in td.order;
    }
  }

  /** Track mode's rows, labels and (artist, track) keys line up: row `i`
      is the mean of the list of track `keys[i].1` of artist `keys[i].0`,
      and its label is that artist. */
  lemma TrackRowsMatchKeys(t: Table, n: nat, dim: nat)
    requires n <= |t| && Poolable(t, dim) && forall k :: 0 <= k < n ==> t[k].Some?
    ensures |TrackRowsUpTo(t, n, dim)| == |TrackKeysUpTo(t, n)| == |TrackLabelsUpTo(t, n)|
    ensures forall i :: 0 <= i < |TrackKeysUpTo(t, n)| ==>
              var key := TrackKeysUpTo(t, n)[i];
              && 0 <= key.0 < n
              && key.1 in t[key.0].value.lists
              && TrackLabelsUpTo(t, n)[i] == key.0
              && TrackRowsUpTo(t, n, dim)[i] == TrackRow(t[key.0].value, key.1, dim)
  {
    TrackLengths(t, n, dim);
    forall i | 0 <= i < |TrackKeysUpTo(t, n)|
      ensures var key := TrackKeysUpTo(t, n)[i];
              && 0 <= key.0 < n
              && key.1 in t[key.0].value.lists
              && TrackLabelsUpTo(t, n)[i] == key.0
              && TrackRowsUpTo(t, n, dim)[i] == TrackRow(t[key.0].value, key.1, dim)
    {
      TrackKeyAt(t, n, dim, i);
    }
  }

  /** Track mode has a key for exactly each filled artist's tracks. */
  lemma {:induction false} TrackKeysMembership(t: Table, n: nat, dim: nat, a: int, p: string)
    requires n <= |t| && Poolable(t, dim) && forall k :: 0 <= k < n ==> t[k].Some?
    ensures (a, p) in TrackKeysUpTo(t, n) <==> 0 <= a < n && p in t[a].value.lists
  {
    if n > 0 {
      TrackKeysMembership(t, n - 1, dim, a, p);
      var td := t[n - 1].value;
      var more := seq(|td.order|, i requires 0 <= i < |td.order| => (n - 1, td.order[i]));
      assert TrackKeysUpTo(t, n) == TrackKeysUpTo(t, n - 1) + more;
      if a == n - 1 && p in td.lists {
        assert p in td.order;
        var i :| 0 <= i < |td.order| && td.order[i] == p;
        assert more[i] == (a, p);
      }
    }
  }

  /** No (artist, track) pair gets two rows. */
  lemma {:induction false} TrackKeysDistinct(t: Table, n: nat, dim: nat)
    requires n <= |t| && Poolable(t, dim) && forall k :: 0 <= k < n ==> t[k].Some?
    ensures Distinct(TrackKeysUpTo(t, n))
    ensures forall i :: 0 <= i < |TrackKeysUpTo(t, n)| ==> TrackKeysUpTo(t, n)[i].0 < n
  {
    if n > 0 {
      TrackKeysDistinct(t, n - 1, dim);
      var td := t[n - 1].value;
      var keys0 := TrackKeysUpTo(t, n - 1);
      var more := seq(|td.order|, i requires 0 <= i < |td.order| => (n - 1, td.order[i]));
      var keys := keys0 + more;
      assert TrackKeysUpTo(t, n) == keys;
      forall i, j | 0 <= i < j < |keys|
        ensures keys[i] != keys[j]
      {
        if j < |keys0| {
        } else if i < |keys0| {
          assert keys[i].0 < n - 1;
        } else {
          assert td.order[i - |keys0|] != td.order[j - |keys0|];
        }
      }
    }
  }

  /** The track-mode labels are sorted. */
  lemma {:induction false} TrackLabelsSorted(t: Table, n: nat)
    requires n <= |t| && forall k :: 0 <= k < n ==> t[k].Some?
    ensures forall i :: 0 <= i < |TrackLabelsUpTo(t, n)| ==> 0 <= TrackLabelsUpTo(t, n)[i] < n
    ensures forall i, j :: 0 <= i <= j < |TrackLabelsUpTo(t, n)| ==> TrackLabelsUpTo(t, n)[i] <= TrackLabelsUpTo(t, n)[j]
  {
    if n > 0 {
      TrackLabelsSorted(t, n - 1);
      var prev := TrackLabelsUpTo(t, n - 1);
      var labels := TrackLabelsUpTo(t, n);
      assert labels == prev + Repeat(n - 1, |t[n - 1].value.order|);
      forall i | 0 <= i < |labels|
        ensures labels[i] == if i < |prev| then prev[i] else n - 1
      {
      }
      forall i, j | 0 <= i <= j < |labels|
        ensures labels[i] <= labels[j]
      {
        if j < |prev| {
          assert prev[i] <= prev[j];
        }
      }
    }
  }

  /** The (artist, track) pairs that have segments, in the order track mode
      visits them: by artist key, then by first occurrence of the track. */
  function SegmentTracks(es: seq<Entry>, n: nat): seq<(int, string)>
  {
    if n == 0 then []
    else
      var paths := FirstPaths(es, n - 1);
      SegmentTracks(es, n - 1) + seq(|paths|, i requires 0 <= i < |paths| => (n - 1, paths[i]))
  }

  /** Over the grouped segments, track mode visits the tracks in that order. */
  lemma {:induction false} TrackKeysAreSegmentTracks(es: seq<Entry>, n: nat)
    requires InRange(es) && n <= NumArtistKeys
    requires forall a :: 0 <= a < n ==> Group(es)[a].Some?
    ensures TrackKeysUpTo(Group(es), n) == SegmentTracks(es, n)
  {
    if n > 0 {
      TrackKeysAreSegmentTracks(es, n - 1);
      GroupContents(es, n - 1);
    }
  }

  /** Track mode over the grouped segments, when every key has a segment:
      one row per (artist, track) pair with segments and no pair twice,
      ordered by artist key and then by first occurrence; row `i` is the
      mean of that track's segment embeddings and label `i` its artist;
      the labels are sorted. */
  lemma TrackProfilesOfSegments(es: seq<Entry>, dim: nat)
    requires InRange(es)
    requires forall i :: 0 <= i < |es| ==> |es[i].emb| == dim
    requires forall a :: 0 <= a < NumArtistKeys ==> ArtistEmbs(es, a) != []
    ensures Poolable(Group(es), dim)
    ensures TrackProfiles(Group(es), dim).Ok?
    ensures var p, keys := TrackProfiles(Group(es), dim).value, SegmentTracks(es, NumArtistKeys);
            && |p.rows| == |keys| && |p.labels| == |keys|
            && Distinct(keys)
            && (forall a, path :: (a, path) in keys <==> 0 <= a < NumArtistKeys && Bucket(es, a, path) != [])
            && (forall i :: 0 <= i < |keys| ==>
                  && p.labels[i] == keys[i].0
                  && Bucket(es, keys[i].0, keys[i].1) != []
                  && HasDim(Bucket(es, keys[i].0, keys[i].1), dim)
                  && p.rows[i] == Mean(Bucket(es, keys[i].0, keys[i].1), dim))
            && (forall i, j :: 0 <= i <= j < |p.labels| ==> p.labels[i] <= p.labels[j])
  {
    GroupPoolable(es, dim);
    GroupAllFilled(es);
    var t := Group(es);
    var n := NumArtistKeys;
    TrackKeysAreSegmentTracks(es, n);
    TrackRowsMatchKeys(t, n, dim);
    TrackKeysDistinct(t, n, dim);
    TrackLabelsSorted(t, n);
    SegmentTracksMembership(es, dim);
    SegmentTrackRows(es, dim);
  }

  /** A pair is among the visited tracks exactly when it has segments. */
  lemma SegmentTracksMembership(es: seq<Entry>, dim: nat)
    requires InRange(es)
    requires forall i :: 0 <= i < |es| ==> |es[i].emb| == dim
    requires forall a :: 0 <= a < NumArtistKeys ==> ArtistEmbs(es, a) != []
    ensures forall a, path :: (a, path) in SegmentTracks(es, NumArtistKeys) <==> 0 <= a < NumArtistKeys && Bucket(es, a, path) != []
  {
    GroupPoolable(es, dim);
    GroupAllFilled(es);
    TrackKeysAreSegmentTracks(es, NumArtistKeys);
    forall a, path
      ensures (a, path) in SegmentTracks(es, NumArtistKeys) <==> 0 <= a < NumArtistKeys && Bucket(es, a, path) != []
    {
      TrackKeysMembership(Group(es), NumArtistKeys, dim, a, path);
      if 0 <= a < NumArtistKeys {
        GroupContents(es, a);
      }
    }
  }

  /** Row `i` of track mode is the mean of the segment embeddings of the
      `i`-th visited track. */
  lemma SegmentTrackRows(es: seq<Entry>, dim: nat)
    requires InRange(es)
    requires forall i :: 0 <= i < |es| ==> |es[i].emb| == dim
    requires forall a :: 0 <= a < NumArtistKeys ==> ArtistEmbs(es, a) != []
    ensures Poolable(Group(es), dim) && AllFilled(Group(es))
    ensures var keys := SegmentTracks(es, NumArtistKeys);
            && |TrackRowsUpTo(Group(es), NumArtistKeys, dim)| == |keys|
            && forall i :: 0 <= i < |keys| ==>
                 && Bucket(es, keys[i].0, keys[i].1) != []
                 && HasDim(Bucket(es, keys[i].0, keys[i].1), dim)
                 && TrackRowsUpTo(Group(es), NumArtistKeys, dim)[i] == Mean(Bucket(es, keys[i].0, keys[i].1), dim)
  {
    GroupPoolable(es, dim);
    GroupAllFilled(es);
    var t := Group(es);
    TrackKeysAreSegmentTracks(es, NumArtistKeys);
    TrackRowsMatchKeys(t, NumArtistKeys, dim);
    var keys := SegmentTracks(es, NumArtistKeys);
    forall i | 0 <= i < |keys|
      ensures Bucket(es, keys[i].0, keys[i].1) != []
      ensures HasDim(Bucket(es, keys[i].0, keys[i].1), dim)
      ensures TrackRowsUpTo(t, NumArtistKeys, dim)[i] == Mean(Bucket(es, keys[i].0, keys[i].1), dim)
    {
      GroupContents(es, keys[i].0);
      BucketHasDim(es, keys[i].0, keys[i].1, dim);
    }
  }
}
