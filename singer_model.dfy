/** `build_singer_model`: load each segment's feature window, embed it with
    the network, group the embeddings by artist and track, then pool them in
    artist mode (the gallery) or track mode (the queries). The network is a
    function from a feature window to an embedding. Which feature files
    exist, and how many frames each holds, is a function from file path to
    an optional width (None: `np.load` raises). */
module SingerModel {
  import opened PyStr
  import opened PyPath
  import opened Vectors
  import opened Results
  import opened Manifest
  import opened Grouping
  import opened Pooling
  import opened PoolingFacts

  /** How the features are stored: one array per track, windowed at load
      time (`mono`), or one pre-cut array per segment (`mix`). */
  datatype Layout = Mono | Mix

  /** The part of a feature array the network sees: frames `lo` to `hi` of
      `file`. */
  datatype Window = Window(file: string, lo: int, hi: int)

  /** Everything `build_singer_model` reads besides the segment list: the
      layout, the mel directory, the configured window length, the feature
      files and the network (with the normalisation folded in). */
  datatype Env = Env(layout: Layout, melPath: string, frameLen: nat,
                     frames: string -> Option<nat>, embed: Window -> Vector)

  /** The network's output width is fixed. */
  ghost predicate FixedDim(env: Env, dim: nat)
  {
    forall w :: |env.embed(w)| == dim
  }

  /** A bound of a Python slice over `width` items: negative bounds count
      from the end, and both are clamped to 0..width. */
  function SliceBound(x: int, width: nat): (b: nat)
    ensures b <= width
    ensures 0 <= x <= width ==> b == x
    ensures x > width ==> b == width
    ensures x < 0 && 0 <= x + width ==> b == x + width
    ensures x + width < 0 ==> b == 0
  {
    if x < 0 then (if x + width < 0 then 0 else x + width)
    else if x > width then width
    else x
  }

  /** The frames `[lo:hi]` selects from an array of `width` frames, as a
      half-open range `lo <= hi`. */
  function SliceRange(lo: int, hi: int, width: nat): (r: (nat, nat))
    ensures r.0 <= r.1 <= width
  {
    var a, b := SliceBound(lo, width), SliceBound(hi, width);
    (a, if b < a then a else b)
  }

  /** The feature file a segment's window is read from. */
  function FeatureFile(layout: Layout, melPath: string, seg: Segment): string
  {
    match layout
    case Mono => Join(melPath, seg.path)
    case Mix => Join(melPath, Replace(seg.path, ".npy", "_" + IntToString(seg.start) + ".npy"))
  }

  /** Load a segment's window: mono takes frames `start` to
      `start + frameLen` of the track's array, mix the first `frameLen`
      frames of the segment's own array. */
  function LoadWindow(env: Env, seg: Segment): (r: Result<Window>)
    ensures var file := FeatureFile(env.layout, env.melPath, seg);
            && (r.Err? <==> env.frames(file).None?)
            && (r.Err? ==> r.failure == MissingFeature(file))
            && (r.Ok? ==> r.value.file == file && 0 <= r.value.lo <= r.value.hi <= env.frames(file).value)
  {
    var file := FeatureFile(env.layout, env.melPath, seg);
    match env.frames(file)
    case None => Err(MissingFeature(file))
    case Some(width) =>
      var range := match env.layout
                   case Mono => SliceRange(seg.start, seg.start + env.frameLen, width)
                   case Mix => SliceRange(0, env.frameLen, width);
      Ok(Window(file, range.0, range.1))
  }

  /** One pass of the grouping loop up to the append: the artist lookup
      (KeyError for an id that is not a key), the load and the network. */
  function EntryOf(env: Env, seg: Segment): (r: Result<Entry>)
    ensures r.Ok? ==> r.value.artist == seg.artist && r.value.path == seg.path
  {
    if !(0 <= seg.artist < NumArtistKeys) then Err(UnknownArtist(seg.artist))
    else match LoadWindow(env, seg)
      case Err(f) => Err(f)
      case Ok(w) => Ok(Entry(seg.artist, seg.path, env.embed(w)))
  }

  /** The embedded segments, or the exception of the first segment that
      raises. */
  function Entries(env: Env, segs: seq<Segment>): (r: Result<seq<Entry>>)
    ensures r.Ok? ==> |r.value| == |segs| && InRange(r.value)
  {
    if segs == [] then Ok([])
    else match Entries(env, segs[..|segs| - 1])
      case Err(f) => Err(f)
      case Ok(es) =>
        match EntryOf(env, segs[|segs| - 1])
        case Err(f) => Err(f)
        case Ok(e) => Ok(es + [e])
  }

  /** The outer dict after the grouping loop, or its exception. */
  function GroupSegments(env: Env, segs: seq<Segment>): Result<Table>
  {
    match Entries(env, segs)
    case Err(f) => Err(f)
    case Ok(es) => Ok(Group(es))
  }

  /** `build_singer_model` as a whole. */
  function SingerProfiles(env: Env, segs: seq<Segment>, dim: nat, forBuildingModel: bool): Result<Profiles>
    requires FixedDim(env, dim)
  {
    match Entries(env, segs)
    case Err(f) => Err(f)
    case Ok(es) =>
      EntriesHaveDim(env, segs, dim);
      GroupPoolable(es, dim);
      if forBuildingModel then ArtistProfiles(Group(es), dim) else TrackProfiles(Group(es), dim)
  }

  lemma EntriesHaveDim(env: Env, segs: seq<Segment>, dim: nat)
    requires FixedDim(env, dim) && Entries(env, segs).Ok?
    ensures forall i :: 0 <= i < |segs| ==> |Entries(env, segs).value[i].emb| == dim
  {
    var es := Entries(env, segs).value;
    forall i | 0 <= i < |segs|
      ensures |es[i].emb| == dim
    {
      EntriesAt(env, segs, i);
    }
  }

  // ---------------------------------------------------------------------
  // The loops.

  /** The grouping loop: the outer dict starts with keys
      0..299 set to None; each segment creates its artist's inner dict if
      needed, is loaded and embedded, and its embedding is appended to its
      track's list, the list being created on the KeyError of the first
      append. */
  method BuildTable(env: Env, segs: seq<Segment>) returns (r: Result<Table>)
    ensures r == GroupSegments(env, segs)
  {
    var t := EmptyTable();
    ghost var es: seq<Entry> := [];
    var i := 0;
    while i < |segs|
      invariant 0 <= i <= |segs|
      invariant Entries(env, segs[..i]) == Ok(es) && t == Group(es)
    {
      EntriesSnoc(env, segs, i);
      var step := GroupSegment(env, t, segs[i]);
      if step.Err? {
        PrefixFails(env, segs, i + 1);
        return step;
      }
      ghost var e := EntryOf(env, segs[i]).value;
      GroupSnoc(es, e);
      t := step.value;
      es := es + [e];
      i := i + 1;
    }
    assert segs[..i] == segs;
    return Ok(t);
  }

  /** One pass of the grouping loop: the artist lookup (KeyError for an id
      that is not a key), the load, the network, and the append to the
      artist's inner dict. */
  method GroupSegment(env: Env, t: Table, seg: Segment) returns (r: Result<Table>)
    requires |t| == NumArtistKeys
    ensures r == match EntryOf(env, seg)
                 case Err(f) => Err(f)
                 case Ok(e) => Ok(Add(t, e))
  {
    var a := seg.artist;
    if !(0 <= a < |t|) {
      return Err(UnknownArtist(a));
    }
    var td := if t[a].None? then EmptyDict() else t[a].value;
    var window := LoadWindow(env, seg);
    if window.Err? {
      return Err(window.failure);
    }
    var pred := env.embed(window.value);
    td := AppendSegment(td, seg.path, pred);
    return Ok(t[a := Some(td)]);
  }

  /** One more segment: the list so far grows by its entry, or fails with
      its exception. */
  lemma EntriesSnoc(env: Env, segs: seq<Segment>, i: nat)
    requires i < |segs| && Entries(env, segs[..i]).Ok?
    ensures Entries(env, segs[..i + 1]) ==
              match EntryOf(env, segs[i])
              case Err(f) => Err(f)
              case Ok(e) => Ok(Entries(env, segs[..i]).value + [e])
  {
    assert segs[..i + 1][..i] == segs[..i];
  }

  /** Appending `pred` to the list of `feat_path`: the `try` appends to an
      existing list; when the path has none, the `except` gives it an empty
      list, at the end of the key order, and appends to that. */
  method AppendSegment(td: TrackDict, p: string, v: Vector) returns (td': TrackDict)
    ensures td' == Insert(td, p, v)
  {
    td' := td;
    if p !in td'.lists {
      td' := TrackDict(td'.order + [p], td'.lists[p := []]);
    }
    td' := TrackDict(td'.order, td'.lists[p := td'.lists[p] + [v]]);
    if p !in td.lists {
      var empty: seq<Vector> := [];
      assert empty + [v] == [v];
      assert td'.lists == td.lists[p := [v]];
    }
  }

  lemma GroupSnoc(es: seq<Entry>, e: Entry)
    requires InRange(es) && 0 <= e.artist < NumArtistKeys
    ensures InRange(es + [e])
    ensures Group(es + [e]) == Add(Group(es), e)
  {
    assert (es + [e])[..|es|] == es;
  }

  /** A failing prefix makes the whole list fail the same way. */
  lemma {:induction false} PrefixFails(env: Env, segs: seq<Segment>, n: nat)
    requires 0 < n <= |segs|
    requires Entries(env, segs[..n - 1]).Ok? && EntryOf(env, segs[n - 1]).Err?
    ensures Entries(env, segs) == Err(EntryOf(env, segs[n - 1]).failure)
    decreases |segs|
  {
    if n < |segs| {
      assert segs[..|segs| - 1][..n - 1] == segs[..n - 1];
      PrefixFails(env, segs[..|segs| - 1], n);
    } else {
      assert segs[..n] == segs;
    }
  }

  /** `build_singer_model`: the grouping loop, then artist mode when
      `forBuildingModel` holds and track mode otherwise. */
  method BuildSingerModel(env: Env, segs: seq<Segment>, dim: nat, forBuildingModel: bool)
    returns (r: Result<Profiles>)
    requires FixedDim(env, dim)
    ensures r == SingerProfiles(env, segs, dim, forBuildingModel)
  {
    var t := BuildTable(env, segs);
    if t.Err? {
      return Err(t.failure);
    }
    EntriesHaveDim(env, segs, dim);
    GroupPoolable(Entries(env, segs).value, dim);
    if forBuildingModel {
      r := PoolArtists(t.value, dim);
    } else {
      r := PoolTracks(t.value, dim);
    }
  }

  // ---------------------------------------------------------------------
  // What the loading and grouping mean for the segment list.

  /** The embedded segments are the segments, in order, each with the
      embedding of its window. */
  lemma {:induction false} EntriesAt(env: Env, segs: seq<Segment>, i: nat)
    requires Entries(env, segs).Ok? && i < |segs|
    ensures EntryOf(env, segs[i]).Ok?
    ensures Entries(env, segs).value[i] == EntryOf(env, segs[i]).value
    decreases |segs|
  {
    var init := segs[..|segs| - 1];
    if i < |segs| - 1 {
      EntriesAt(env, init, i);
    }
  }

  /** The grouping loop fails exactly when some segment fails, and then with
      the first failing segment's exception. */
  lemma {:induction false} EntriesFailure(env: Env, segs: seq<Segment>)
    ensures Entries(env, segs).Ok? <==> forall i :: 0 <= i < |segs| ==> EntryOf(env, segs[i]).Ok?
    ensures Entries(env, segs).Err? ==>
              exists i :: 0 <= i < |segs| && EntryOf(env, segs[i]) == Err(Entries(env, segs).failure)
                          && forall j :: 0 <= j < i ==> EntryOf(env, segs[j]).Ok?
    decreases |segs|
  {
    if segs != [] {
      var init := segs[..|segs| - 1];
      EntriesFailure(env, init);
      if Entries(env, init).Err? {
        InitFails(env, segs);
      } else if EntryOf(env, segs[|segs| - 1]).Err? {
        LastFails(env, segs);
      } else {
        forall i | 0 <= i < |segs|
          ensures EntryOf(env, segs[i]).Ok?
        {
          EntriesAt(env, segs, i);
        }
      }
    }
  }

  /** The failure of a prefix is the failure of the whole list. */
  lemma InitFails(env: Env, segs: seq<Segment>)
    requires segs != []
    requires var init := segs[..|segs| - 1];
             && Entries(env, init).Err?
             && exists i :: 0 <= i < |init| && EntryOf(env, init[i]) == Err(Entries(env, init).failure)
                            && forall j :: 0 <= j < i ==> EntryOf(env, init[j]).Ok?
    ensures Entries(env, segs).Err?
    ensures exists i :: 0 <= i < |segs| && EntryOf(env, segs[i]) == Err(Entries(env, segs).failure)
                        && forall j :: 0 <= j < i ==> EntryOf(env, segs[j]).Ok?
  {
    var init := segs[..|segs| - 1];
    var i :| 0 <= i < |init| && EntryOf(env, init[i]) == Err(Entries(env, init).failure)
             && forall j :: 0 <= j < i ==> EntryOf(env, init[j]).Ok?;
    assert forall j :: 0 <= j <= i ==> init[j] == segs[j];
  }

  /** When the prefix loads, the last segment's failure is the list's. */
  lemma LastFails(env: Env, segs: seq<Segment>)
    requires segs != []
    requires var init := segs[..|segs| - 1];
             && Entries(env, init).Ok?
             && forall i :: 0 <= i < |init| ==> EntryOf(env, init[i]).Ok?
    requires EntryOf(env, segs[|segs| - 1]).Err?
    ensures Entries(env, segs).Err?
    ensures exists i :: 0 <= i < |segs| && EntryOf(env, segs[i]) == Err(Entries(env, segs).failure)
                        && forall j :: 0 <= j < i ==> EntryOf(env, segs[j]).Ok?
  {
    var init := segs[..|segs| - 1];
    assert forall j :: 0 <= j < |init| ==> init[j] == segs[j];
    assert EntryOf(env, segs[|segs| - 1]) == Err(Entries(env, segs).failure);
  }

  /** A segment passes the lookup and the load exactly when its artist id is
      a key and its feature file loads; what fails first names the reason. */
  lemma EntryOfCases(env: Env, seg: Segment)
    ensures var r, file := EntryOf(env, seg), FeatureFile(env.layout, env.melPath, seg);
            && (!(0 <= seg.artist < NumArtistKeys) ==> r == Err(UnknownArtist(seg.artist)))
            && (0 <= seg.artist < NumArtistKeys && env.frames(file).None? ==> r == Err(MissingFeature(file)))
            && (0 <= seg.artist < NumArtistKeys && env.frames(file).Some? ==>
                  r.Ok? && r.value.emb == env.embed(LoadWindow(env, seg).value))
  {
  }

  // ---------------------------------------------------------------------
  // Feature loading.

  /** In the mix layout a track file `x.npy` (with no other ".npy" in it)
      is read as `x_<start>.npy` under the mel directory. */
  lemma MixFileName(melPath: string, x: string, artist: int, start: int)
    requires !Occurs(x, ".npy")
    ensures FeatureFile(Mix, melPath, Segment(artist, x + ".npy", start))
            == Join(melPath, x + "_" + IntToString(start) + ".npy")
  {
    NpyHasNoBorder();
    ReplaceTrailing(x, ".npy", "_" + IntToString(start) + ".npy");
    assert x + ("_" + IntToString(start) + ".npy") == x + "_" + IntToString(start) + ".npy";
  }

  /** ... so two segments of one track with different start frames read
      different files. */
  lemma MixFilesDistinct(melPath: string, x: string, artist: int, s1: int, s2: int)
    requires !Occurs(x, ".npy") && s1 != s2
    ensures FeatureFile(Mix, melPath, Segment(artist, x + ".npy", s1))
            != FeatureFile(Mix, melPath, Segment(artist, x + ".npy", s2))
  {
    MixFileName(melPath, x, artist, s1);
    MixFileName(melPath, x, artist, s2);
    var n1, n2 := IntToString(s1), IntToString(s2);
    var b1, b2 := x + "_" + n1 + ".npy", x + "_" + n2 + ".npy";
    assert b1[0] == b2[0] by {
      if x == [] {
        assert b1[0] == '_' == b2[0];
      } else {
        assert b1[0] == x[0] == b2[0];
      }
    }
    JoinInjective(melPath, b1, b2);
    if b1 == b2 {
      var k := |x| + 1;
      assert |n1| == |n2|;
      assert n1 == b1[k..k + |n1|] == b2[k..k + |n2|] == n2;
      IntToStringInjective(s1, s2);
    }
  }

  /** In the mono layout the window is frames `start` to `start + frameLen`
      when those lie inside the array, and otherwise is clipped to it: never
      longer than `frameLen`. */
  lemma MonoWindow(env: Env, seg: Segment)
    requires env.layout == Mono
    requires env.frames(FeatureFile(Mono, env.melPath, seg)).Some?
    ensures var w, width := LoadWindow(env, seg).value, env.frames(FeatureFile(Mono, env.melPath, seg)).value;
            && w.hi - w.lo <= env.frameLen
            && (0 <= seg.start && seg.start + env.frameLen <= width ==> w.lo == seg.start && w.hi == seg.start + env.frameLen)
            && (0 <= seg.start <= width ==> w.lo == seg.start && w.hi == (if seg.start + env.frameLen <= width then seg.start + env.frameLen else width))
  {
  }

  /** In the mix layout the window is the first `frameLen` frames, or the
      whole array when it is shorter. */
  lemma MixWindow(env: Env, seg: Segment)
    requires env.layout == Mix
    requires env.frames(FeatureFile(Mix, env.melPath, seg)).Some?
    ensures var w, width := LoadWindow(env, seg).value, env.frames(FeatureFile(Mix, env.melPath, seg)).value;
            w.lo == 0 && w.hi == (if env.frameLen <= width then env.frameLen else width)
  {
  }

  // ---------------------------------------------------------------------
  // `build_singer_model` end to end.

  /** The artist ids of the segments, in list order. */
  function SegmentIds(segs: seq<Segment>): (ids: seq<int>)
    ensures |ids| == |segs| && forall i :: 0 <= i < |segs| ==> ids[i] == segs[i].artist
  {
    seq(|segs|, i requires 0 <= i < |segs| => segs[i].artist)
  }

  lemma EntriesIds(env: Env, segs: seq<Segment>)
    requires Entries(env, segs).Ok?
    ensures ArtistIds(Entries(env, segs).value) == SegmentIds(segs)
  {
    forall i | 0 <= i < |segs|
      ensures Entries(env, segs).value[i].artist == segs[i].artist
    {
      EntriesAt(env, segs, i);
    }
  }

  /** `build_singer_model` raises, in either mode, with the first segment
      whose artist id is not a key or whose feature file does not load. */
  lemma SingerProfilesLoadFailure(env: Env, segs: seq<Segment>, dim: nat, forBuildingModel: bool)
    requires FixedDim(env, dim) && Entries(env, segs).Err?
    ensures SingerProfiles(env, segs, dim, forBuildingModel) == Err(Entries(env, segs).failure)
    ensures exists i :: 0 <= i < |segs| && EntryOf(env, segs[i]) == Err(Entries(env, segs).failure)
                        && forall j :: 0 <= j < i ==> EntryOf(env, segs[j]).Ok?
  {
    EntriesFailure(env, segs);
  }

  /** Failing that, it raises, in either mode, with the first artist key
      no segment has. */
  lemma SingerProfilesEmptyArtist(env: Env, segs: seq<Segment>, dim: nat, forBuildingModel: bool)
    requires FixedDim(env, dim) && Entries(env, segs).Ok?
    ensures var r, es := SingerProfiles(env, segs, dim, forBuildingModel), Entries(env, segs).value;
            && (r.Err? <==> exists a :: 0 <= a < NumArtistKeys && ArtistEmbs(es, a) == [])
            && (r.Err? ==>
                  && r.failure.EmptyArtist?
                  && r.failure.key < NumArtistKeys
                  && ArtistEmbs(es, r.failure.key) == []
                  && forall b :: 0 <= b < r.failure.key ==> ArtistEmbs(es, b) != [])
  {
    var es := Entries(env, segs).value;
    EntriesHaveDim(env, segs, dim);
    PoolingFailsOnEmptyArtist(es, dim);
    SingerProfilesOk(env, segs, dim, forBuildingModel);
  }

  /** Once every segment has loaded, `build_singer_model` is the pooling of
      the grouped entries. */
  lemma SingerProfilesOk(env: Env, segs: seq<Segment>, dim: nat, forBuildingModel: bool)
    requires FixedDim(env, dim) && Entries(env, segs).Ok?
    ensures Poolable(Group(Entries(env, segs).value), dim)
    ensures SingerProfiles(env, segs, dim, forBuildingModel)
            == if forBuildingModel then ArtistProfiles(Group(Entries(env, segs).value), dim)
               else TrackProfiles(Group(Entries(env, segs).value), dim)
  {
    EntriesHaveDim(env, segs, dim);
    GroupPoolable(Entries(env, segs).value, dim);
  }

  /** The gallery (`forBuildingModel` true). When every segment loads and
      every artist key 0..299 has a segment, row `a` is the mean of the
      embeddings of artist `a`'s segments: the row index is the artist key.
      There is one label per segment, and the labels are the segments' artist
      ids, sorted. */
  lemma GalleryRowsByArtist(env: Env, segs: seq<Segment>, dim: nat)
    requires FixedDim(env, dim) && Entries(env, segs).Ok?
    requires forall a :: 0 <= a < NumArtistKeys ==> ArtistEmbs(Entries(env, segs).value, a) != []
    ensures SingerProfiles(env, segs, dim, true).Ok?
    ensures var g := SingerProfiles(env, segs, dim, true).value;
            && |g.rows| == NumArtistKeys
            && (forall a :: 0 <= a < NumArtistKeys ==>
                  HasDim(ArtistEmbs(Entries(env, segs).value, a), dim) && g.rows[a] == Mean(ArtistEmbs(Entries(env, segs).value, a), dim))
            && |g.labels| == |segs|
            && (forall i, j :: 0 <= i <= j < |g.labels| ==> g.labels[i] <= g.labels[j])
            && multiset(g.labels) == multiset(SegmentIds(segs))
  {
    var es := Entries(env, segs).value;
    EntriesHaveDim(env, segs, dim);
    EntriesIds(env, segs);
    ArtistProfilesOfSegments(es, dim);
  }

  /** The queries (`forBuildingModel` false). When every segment loads and
      every artist key has a segment, there is one row per (artist, track)
      pair with segments, ordered by artist key and then by first
      occurrence. Row `i` is the mean of that track's segment embeddings and
      label `i` its artist. */
  lemma QueryRowsByTrack(env: Env, segs: seq<Segment>, dim: nat)
    requires FixedDim(env, dim) && Entries(env, segs).Ok?
    requires forall a :: 0 <= a < NumArtistKeys ==> ArtistEmbs(Entries(env, segs).value, a) != []
    ensures SingerProfiles(env, segs, dim, false).Ok?
    ensures var q, es := SingerProfiles(env, segs, dim, false).value, Entries(env, segs).value;
            var keys := SegmentTracks(es, NumArtistKeys);
            && |q.rows| == |keys| && |q.labels| == |keys|
            && Distinct(keys)
            && (forall a, path :: (a, path) in keys <==> 0 <= a < NumArtistKeys && Bucket(es, a, path) != [])
            && (forall i :: 0 <= i < |keys| ==>
                  && q.labels[i] == keys[i].0
                  && Bucket(es, keys[i].0, keys[i].1) != []
                  && HasDim(Bucket(es, keys[i].0, keys[i].1), dim)
                  && q.rows[i] == Mean(Bucket(es, keys[i].0, keys[i].1), dim))
            && (forall i, j :: 0 <= i <= j < |q.labels| ==> q.labels[i] <= q.labels[j])
  {
    var es := Entries(env, segs).value;
    EntriesHaveDim(env, segs, dim);
    TrackProfilesOfSegments(es, dim);
  }

  /** A track-mode key names an artist key and a path exactly when some
      segment has that artist and path. */
  lemma QueryKeysCoverSegments(env: Env, segs: seq<Segment>, a: int, path: string)
    requires Entries(env, segs).Ok?
    ensures Bucket(Entries(env, segs).value, a, path) != [] <==>
              exists i :: 0 <= i < |segs| && segs[i].artist == a && segs[i].path == path
  {
    var es := Entries(env, segs).value;
    BucketNonEmpty(es, a, path);
    forall i | 0 <= i < |segs|
      ensures es[i].artist == segs[i].artist && es[i].path == segs[i].path
    {
      EntriesAt(env, segs, i);
    }
  }
}
