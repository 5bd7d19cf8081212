/** The nested dict `build_singer_model` fills: artist key -> track path ->
    list of segment embeddings. The outer dict is created with the keys
    0..299, all `None`; an artist's inner dict is created on its first
    segment and a track's list on its first segment of that track. Python
    dicts keep insertion order, so the outer dict is a sequence indexed by
    key and an inner dict keeps the order its tracks were first seen. */
module Grouping {
  import opened Vectors
  import opened Results

  /** The keys of `dict.fromkeys(range(0, 300), None)`. */
  const NumArtistKeys: nat := 300

  /** One segment after embedding: its artist, its track and its embedding. */
  datatype Entry = Entry(artist: int, path: string, emb: Vector)

  /** An insertion-ordered dict from track path to the embeddings of the
      track's segments: the keys in insertion order, and the lists. */
  datatype TrackDict = TrackDict(order: seq<string>, lists: map<string, seq<Vector>>)

  /** The outer dict: entry `a` is the inner dict of artist key `a`, or None. */
  type Table = seq<Option<TrackDict>>

  predicate Distinct<T(==)>(s: seq<T>)
  {
    forall i, j :: 0 <= i < j < |s| ==> s[i] != s[j]
  }

  /** The order lists every key exactly once, and no list is empty. */
  ghost predicate ValidDict(td: TrackDict)
  {
    && Distinct(td.order)
    && (forall p :: p in td.lists <==> p in td.order)
    && (forall p :: p in td.lists ==> td.lists[p] != [])
  }

  /** The dict created by `{}` before the first track of an artist. */
  function EmptyDict(): (td: TrackDict)
    ensures td.order == [] && td.lists == map[]
  {
    TrackDict([], map[])
  }

  /** `dict.fromkeys(range(0, 300), None)`. */
  function EmptyTable(): (t: Table)
    ensures |t| == NumArtistKeys
    ensures forall a :: 0 <= a < |t| ==> t[a].None?
  {
    seq(NumArtistKeys, _ => None)
  }

  /** `d[p].append(v)`, or `d[p] = [v]` when the lookup raises: the list of
      `p` gains `v` at its end, a new key goes to the end of the order, and
      every other list is unchanged. */
  function Insert(td: TrackDict, p: string, v: Vector): (r: TrackDict)
    ensures p in r.lists && r.lists[p] == (if p in td.lists then td.lists[p] else []) + [v]
    ensures forall q :: q != p ==> (q in r.lists <==> q in td.lists)
    ensures forall q :: q != p && q in td.lists ==> r.lists[q] == td.lists[q]
    ensures r.order == if p in td.lists then td.order else td.order + [p]
    ensures ValidDict(td) ==> ValidDict(r)
  {
    if p in td.lists then TrackDict(td.order, td.lists[p := td.lists[p] + [v]])
    else TrackDict(td.order + [p], td.lists[p := [v]])
  }

  /** One pass of the grouping loop: the artist's inner dict is created if it
      is None, then the segment's embedding is appended to its track's list.
      No other artist's entry changes. */
  function Add(t: Table, e: Entry): (t': Table)
    requires 0 <= e.artist < |t|
    ensures |t'| == |t|
    ensures forall b :: 0 <= b < |t| && b != e.artist ==> t'[b] == t[b]
    ensures t'[e.artist].Some?
  {
    var td := if t[e.artist].Some? then t[e.artist].value else EmptyDict();
    t[e.artist := Some(Insert(td, e.path, e.emb))]
  }

  predicate InRange(es: seq<Entry>)
  {
    forall i :: 0 <= i < |es| ==> 0 <= es[i].artist < NumArtistKeys
  }

  /** The outer dict after the grouping loop has run over `es`. */
  function Group(es: seq<Entry>): (t: Table)
    requires InRange(es)
    ensures |t| == NumArtistKeys
  {
    if es == [] then EmptyTable() else Add(Group(es[..|es| - 1]), es[|es| - 1])
  }

  // ---------------------------------------------------------------------
  // What the grouping means, stated on the entry list alone.

  /** The embeddings of artist `a`'s segments, in list order. */
  function ArtistEmbs(es: seq<Entry>, a: int): seq<Vector>
  {
    if es == [] then []
    else ArtistEmbs(es[..|es| - 1], a) + (if es[|es| - 1].artist == a then [es[|es| - 1].emb] else [])
  }

  /** The embeddings of the segments of artist `a` and track `p`, in list order. */
  function Bucket(es: seq<Entry>, a: int, p: string): seq<Vector>
  {
    if es == [] then []
    else
      var e := es[|es| - 1];
      Bucket(es[..|es| - 1], a, p) + (if e.artist == a && e.path == p then [e.emb] else [])
  }

  /** The distinct tracks of artist `a`, in order of first occurrence. */
  function FirstPaths(es: seq<Entry>, a: int): seq<string>
  {
    if es == [] then []
    else
      var prev := FirstPaths(es[..|es| - 1], a);
      var e := es[|es| - 1];
      if e.artist == a && e.path !in prev then prev + [e.path] else prev
  }

  /** An artist without segments has no tracks. */
  lemma {:induction false} NoEmbsNoPaths(es: seq<Entry>, a: int)
    requires ArtistEmbs(es, a) == []
    ensures FirstPaths(es, a) == []
    ensures forall p :: Bucket(es, a, p) == []
    decreases |es|
  {
    if es != [] {
      NoEmbsNoPaths(es[..|es| - 1], a);
    }
  }

  /** `td` is exactly the inner dict artist `a`'s segments in `es` call for. */
  ghost predicate Describes(td: TrackDict, es: seq<Entry>, a: int)
  {
    && ValidDict(td)
    && td.order == FirstPaths(es, a)
    && (forall p :: p in td.lists ==> td.lists[p] == Bucket(es, a, p))
    && (forall p :: p !in td.lists ==> Bucket(es, a, p) == [])
  }

  /** The empty dict is exact for an artist without segments. */
  lemma EmptyDescribes(es: seq<Entry>, a: int)
    requires ArtistEmbs(es, a) == []
    ensures Describes(EmptyDict(), es, a)
  {
    NoEmbsNoPaths(es, a);
  }

  /** Appending the last segment of artist `a` keeps the inner dict exact. */
  lemma InsertDescribes(td0: TrackDict, es: seq<Entry>, a: int)
    requires es != [] && es[|es| - 1].artist == a
    requires Describes(td0, es[..|es| - 1], a)
    ensures Describes(Insert(td0, es[|es| - 1].path, es[|es| - 1].emb), es, a)
  {
    var init, e := es[..|es| - 1], es[|es| - 1];
    var td := Insert(td0, e.path, e.emb);
    assert ValidDict(td);
    assert td.order == FirstPaths(es, a) by {
      assert e.path in td0.lists <==> e.path in FirstPaths(init, a);
    }
    forall p | p in td.lists
      ensures td.lists[p] == Bucket(es, a, p)
    {
      BucketStep(es, a, p);
      if p != e.path {
        assert p in td0.lists;
      }
    }
    forall p | p !in td.lists
      ensures Bucket(es, a, p) == []
    {
      BucketStep(es, a, p);
    }
  }

  lemma BucketStep(es: seq<Entry>, a: int, p: string)
    requires es != []
    ensures Bucket(es, a, p) == Bucket(es[..|es| - 1], a, p) +
              (if es[|es| - 1].artist == a && es[|es| - 1].path == p then [es[|es| - 1].emb] else [])
  {
  }

  /** A segment of another artist leaves artist `a`'s tracks as they were. */
  lemma OtherArtistDescribes(td: TrackDict, es: seq<Entry>, a: int)
    requires es != [] && es[|es| - 1].artist != a
    requires Describes(td, es[..|es| - 1], a)
    ensures Describes(td, es, a)
  {
  }

  /** The grouping loop puts every segment's embedding into exactly the list
      of its artist and track, keeping list order: artist `a`'s entry is
      None exactly when it has no segments, and otherwise its tracks come in
      order of first occurrence and each track's list is exactly that
      track's segment embeddings, in order. */
  lemma {:induction false} GroupContents(es: seq<Entry>, a: int)
    requires InRange(es) && 0 <= a < NumArtistKeys
    ensures Group(es)[a].None? <==> ArtistEmbs(es, a) == []
    ensures Group(es)[a].Some? ==> Describes(Group(es)[a].value, es, a)
    decreases |es|
  {
    if es != [] {
      assert InRange(es[..|es| - 1]);
      GroupContents(es[..|es| - 1], a);
      GroupContentsStep(es, a);
    }
  }

  /** The inductive step of `GroupContents`: one more segment. */
  lemma GroupContentsStep(es: seq<Entry>, a: int)
    requires InRange(es) && es != [] && 0 <= a < NumArtistKeys
    requires InRange(es[..|es| - 1])
    requires Group(es[..|es| - 1])[a].None? <==> ArtistEmbs(es[..|es| - 1], a) == []
    requires Group(es[..|es| - 1])[a].Some? ==> Describes(Group(es[..|es| - 1])[a].value, es[..|es| - 1], a)
    ensures Group(es)[a].None? <==> ArtistEmbs(es, a) == []
    ensures Group(es)[a].Some? ==> Describes(Group(es)[a].value, es, a)
  {
    var init, e := es[..|es| - 1], es[|es| - 1];
    assert Group(es) == Add(Group(init), e);
    if e.artist == a {
      OwnArtistStep(Group(init), es, a);
    } else {
      assert ArtistEmbs(es, a) == ArtistEmbs(init, a);
      if Group(init)[a].Some? {
        OtherArtistDescribes(Group(init)[a].value, es, a);
      }
    }
  }

  /** A segment of artist `a` leaves its entry Some and exact. */
  lemma OwnArtistStep(t0: Table, es: seq<Entry>, a: int)
    requires es != [] && es[|es| - 1].artist == a && 0 <= a < |t0|
    requires t0[a].None? <==> ArtistEmbs(es[..|es| - 1], a) == []
    requires t0[a].Some? ==> Describes(t0[a].value, es[..|es| - 1], a)
    ensures ArtistEmbs(es, a) != []
    ensures Describes(Add(t0, es[|es| - 1])[a].value, es, a)
  {
    var init, e := es[..|es| - 1], es[|es| - 1];
    assert ArtistEmbs(es, a) == ArtistEmbs(init, a) + [e.emb];
    if t0[a].None? {
      EmptyDescribes(init, a);
      assert Add(t0, e)[a].value == Insert(EmptyDict(), e.path, e.emb);
      InsertDescribes(EmptyDict(), es, a);
    } else {
      assert Add(t0, e)[a].value == Insert(t0[a].value, e.path, e.emb);
      InsertDescribes(t0[a].value, es, a);
    }
  }

  /** A path is among artist `a`'s first-occurrence tracks exactly when the
      artist has a segment of that track. */
  lemma {:induction false} FirstPathsMembership(es: seq<Entry>, a: int, p: string)
    ensures p in FirstPaths(es, a) <==> Bucket(es, a, p) != []
    decreases |es|
  {
    if es != [] {
      FirstPathsMembership(es[..|es| - 1], a, p);
    }
  }

  /** Every track list of an artist's entries has `dim` components when the
      embeddings do. */
  lemma {:induction false} BucketHasDim(es: seq<Entry>, a: int, p: string, dim: nat)
    requires forall i :: 0 <= i < |es| ==> |es[i].emb| == dim
    ensures HasDim(Bucket(es, a, p), dim)
    ensures HasDim(ArtistEmbs(es, a), dim)
    decreases |es|
  {
    if es != [] {
      BucketHasDim(es[..|es| - 1], a, p, dim);
    }
  }

  /** The number of segments of artist `a` is the number of times `a`
      occurs among the artist ids. */
  lemma {:induction false} ArtistEmbsCount(es: seq<Entry>, a: int)
    ensures |ArtistEmbs(es, a)| == multiset(ArtistIds(es))[a]
    decreases |es|
  {
    if es != [] {
      ArtistEmbsCount(es[..|es| - 1], a);
      assert ArtistIds(es) == ArtistIds(es[..|es| - 1]) + [es[|es| - 1].artist];
    }
  }

  /** The artist ids of the entries, in list order. */
  function ArtistIds(es: seq<Entry>): (ids: seq<int>)
    ensures |ids| == |es|
    ensures forall i :: 0 <= i < |es| ==> ids[i] == es[i].artist
  {
    seq(|es|, i requires 0 <= i < |es| => es[i].artist)
  }

  /** Artist `a` has segments of track `p` exactly when some entry has that
      artist and path. */
  lemma {:induction false} BucketNonEmpty(es: seq<Entry>, a: int, p: string)
    ensures Bucket(es, a, p) != [] <==> exists i :: 0 <= i < |es| && es[i].artist == a && es[i].path == p
    decreases |es|
  {
    if es != [] {
      var init := es[..|es| - 1];
      BucketNonEmpty(init, a, p);
      if exists i :: 0 <= i < |init| && init[i].artist == a && init[i].path == p {
        var i :| 0 <= i < |init| && init[i].artist == a && init[i].path == p;
        assert es[i] == init[i];
      }
      if exists i :: 0 <= i < |es| && es[i].artist == a && es[i].path == p {
        var i :| 0 <= i < |es| && es[i].artist == a && es[i].path == p;
        if i < |init| {
          assert init[i] == es[i];
        }
      }
    }
  }
}
