/** The feature cache of feature_extract.py: `parallel_mel` turns one audio
    file into a cached log-mel spectrogram file, skipping files already
    cached, and `process_damp` builds the deduplicated list of work units.
    The file system is a map from file paths to contents plus a set of
    directories; whether an audio file decodes is an oracle `loads`. */
module FeatureCache {
  import opened PyPath
  import opened PyStr
  import opened Manifest

  /** What a cache file holds: the log-mel spectrogram of one audio file.
      Extraction is deterministic, so the audio file determines it. */
  datatype Content = LogMel(audio: string)

  /** A snapshot of the file system: regular files with their contents and
      the directories. */
  datatype Fs = Fs(files: map<string, Content>, dirs: set<string>)

  /** How one `parallel_mel` call ended: it skipped an existing cache file,
      could not decode the audio or saved the spectrogram; or it raised, in
      `os.makedirs` (an empty `save_dir`, or a file where a directory has to
      go) or in `np.save` (the parent path is a file). `Skipped` is no call's
      outcome: it marks a job that the pool never ran. */
  datatype Outcome = AlreadyCached | LoadFailed | Saved | MakedirsRaised | SaveRaised | Skipped

  predicate Raised(o: Outcome)
  {
    o == MakedirsRaised || o == SaveRaised
  }

  /** The job raised or was never run: either way the next job of its chunk
      does not run. */
  predicate Stopped(o: Outcome)
  {
    Raised(o) || o == Skipped
  }

  /** `os.path.exists(p)`: a file or a directory; never the empty path. */
  predicate PathExists(fs: Fs, p: string)
  {
    p != [] && (p in fs.files || p in fs.dirs)
  }

  /** A snapshot a real file system can be in: no path is both a file and a
      directory, and every proper ancestor of an existing path is a
      directory. */
  predicate Consistent(fs: Fs)
  {
    && (forall p :: p in fs.files ==> p !in fs.dirs)
    && (forall p, q :: p in fs.files && q in DirChain(p) && q != p ==> q in fs.dirs)
    && (forall p, q :: p in fs.dirs && q in DirChain(p) && q != p ==> q in fs.dirs)
  }

  /** The cache file of `audio`: `save_dir` joined with the audio file's stem
      and ".npy". It ends in ".npy", so `np.save` writes exactly this path,
      and its directory part is empty exactly when `save_dir` is. */
  function CachePath(audio: string, saveDir: string): (r: string)
    ensures EndsWith(r, ".npy")
    ensures Dirname(r) == [] <==> saveDir == []
    ensures |Dirname(r)| < |r|
  {
    var name := SaveName(Stem(audio));
    CachePathSuffix(saveDir, name);
    CachePathDir(saveDir, name);
    Join(saveDir, name)
  }

  /** `audiofile.stem + '.npy'`: a single path component ending in ".npy". */
  function SaveName(stem: string): (n: string)
    requires '/' !in stem
    ensures '/' !in n && EndsWith(n, ".npy")
  {
    var ext := ".npy";
    assert ext[0] != '/' && ext[1] != '/' && ext[2] != '/' && ext[3] != '/';
    assert (stem + ext)[|stem|..] == ext;
    stem + ext
  }

  /** Joining keeps the name's ".npy" ending. */
  lemma CachePathSuffix(saveDir: string, name: string)
    requires '/' !in name && EndsWith(name, ".npy")
    ensures EndsWith(Join(saveDir, name), ".npy")
  {
    var r := Join(saveDir, name);
    assert r[|r| - |name|..] == name;
    assert r[|r| - 4..] == r[|r| - |name|..][|name| - 4..];
  }

  /** The directory part of the joined path is shorter than it, and empty
      exactly when the directory is. */
  lemma CachePathDir(saveDir: string, name: string)
    requires '/' !in name && name != []
    ensures Dirname(Join(saveDir, name)) == [] <==> saveDir == []
    ensures |Dirname(Join(saveDir, name))| < |Join(saveDir, name)|
  {
    JoinDirnameEmpty(saveDir, name);
  }

  /** The cache file is never among the directories `makedirs` creates for
      its parent, since all of those are shorter. */
  lemma CacheNotInParentChain(audio: string, saveDir: string)
    ensures CachePath(audio, saveDir) !in DirChain(Dirname(CachePath(audio, saveDir)))
  {
  }

  /** With a save directory, the ancestors of the cache file are its parent
      and the parent's ancestors. */
  lemma CacheChain(audio: string, saveDir: string)
    requires saveDir != []
    ensures var path := CachePath(audio, saveDir);
            DirChain(path) == {path} + DirChain(Dirname(path)) && Dirname(path) != path
  {
  }

  /** `os.makedirs(os.path.dirname(savefile), exist_ok=True)` raises for the
      parent `d`: it is empty, or it is missing and a file sits at it or at
      one of its ancestors (line 16 runs only for a missing parent). */
  predicate MakedirsFails(fs: Fs, d: string)
  {
    d == [] || (!PathExists(fs, d) && DirChain(d) * fs.files.Keys != {})
  }

  /** One call of `parallel_mel(audio, save_dir)`, as a state transition:
      create the parent directory if it is missing, return if the cache file
      exists, return if decoding fails, otherwise save the spectrogram. */
  function Extract(fs: Fs, audio: string, saveDir: string, loads: string -> bool): (r: (Fs, Outcome))
    ensures r.1 != Skipped
    ensures saveDir == [] ==> r.1 == MakedirsRaised
    ensures var path := CachePath(audio, saveDir);
            var parent := Dirname(path);
            && (r.1 == MakedirsRaised <==> MakedirsFails(fs, parent))
            && (r.1 == AlreadyCached <==> !MakedirsFails(fs, parent) && PathExists(fs, path))
            && (r.1 == LoadFailed <==> !MakedirsFails(fs, parent) && !PathExists(fs, path) && !loads(audio))
            && (r.1 == SaveRaised <==>
                  !MakedirsFails(fs, parent) && !PathExists(fs, path) && loads(audio)
                  && parent in fs.files && parent !in fs.dirs)
    // the only file that can appear is the cache file, and only on success
    ensures r.0.files == if r.1 == Saved then fs.files[CachePath(audio, saveDir) := LogMel(audio)] else fs.files
    ensures r.1 == AlreadyCached || r.1 == Saved ==> PathExists(r.0, CachePath(audio, saveDir))
    // after every call that returns, the parent directory exists
    ensures !Raised(r.1) ==> PathExists(r.0, Dirname(CachePath(audio, saveDir)))
    ensures Raised(r.1) ==> r.0 == fs
    ensures fs.dirs <= r.0.dirs <= fs.dirs + DirChain(Dirname(CachePath(audio, saveDir)))
  {
    var path := CachePath(audio, saveDir);
    CacheNotInParentChain(audio, saveDir);
    ExtractAt(fs, path, Dirname(path), loads(audio), LogMel(audio))
  }

  /** `Extract` for the cache file `path` in the directory `parent`, where
      `decodes` says whether the audio loads and `c` is its spectrogram. */
  function ExtractAt(fs: Fs, path: string, parent: string, decodes: bool, c: Content): (r: (Fs, Outcome))
    requires path != [] && path !in DirChain(parent)
    ensures r.1 != Skipped
    ensures r.1 == MakedirsRaised <==> MakedirsFails(fs, parent)
    ensures r.1 == AlreadyCached <==> !MakedirsFails(fs, parent) && PathExists(fs, path)
    ensures r.1 == LoadFailed <==> !MakedirsFails(fs, parent) && !PathExists(fs, path) && !decodes
    ensures r.1 == SaveRaised <==>
              !MakedirsFails(fs, parent) && !PathExists(fs, path) && decodes && parent in fs.files && parent !in fs.dirs
    ensures r.0.files == if r.1 == Saved then fs.files[path := c] else fs.files
    ensures r.1 == AlreadyCached || r.1 == Saved ==> PathExists(r.0, path)
    ensures !Raised(r.1) ==> PathExists(r.0, parent)
    ensures Raised(r.1) ==> r.0 == fs
    ensures fs.dirs <= r.0.dirs <= fs.dirs + DirChain(parent)
  {
    if MakedirsFails(fs, parent) then (fs, MakedirsRaised)
    else
      var fs1 := if PathExists(fs, parent) then fs else fs.(dirs := fs.dirs + DirChain(parent));
      if PathExists(fs1, path) then (fs1, AlreadyCached)
      else if !decodes then (fs1, LoadFailed)
      else if parent !in fs1.dirs then (fs1, SaveRaised)
      else (fs1.(files := fs1.files[path := c]), Saved)
  }

  /** A second call on the same input changes nothing, and reports the
      cache file as existing when the first call saved it. */
  lemma ExtractIdempotent(fs: Fs, audio: string, saveDir: string, loads: string -> bool)
    ensures var (fs1, o1) := Extract(fs, audio, saveDir, loads);
            var (fs2, o2) := Extract(fs1, audio, saveDir, loads);
            fs2 == fs1 && o2 == (if o1 == Saved then AlreadyCached else o1)
  {
    var (fs1, o1) := Extract(fs, audio, saveDir, loads);
    var (fs2, o2) := Extract(fs1, audio, saveDir, loads);
    var parent := Dirname(CachePath(audio, saveDir));
    if !Raised(o1) {
      assert PathExists(fs1, parent);
      assert fs2.dirs == fs1.dirs;
    }
  }

  /** `parallel_mel` keeps a real file system real: the directories it
      creates have directories above them and are not files, and the file
      it saves sits in a directory. */
  lemma ExtractConsistent(fs: Fs, audio: string, saveDir: string, loads: string -> bool)
    requires Consistent(fs)
    ensures Consistent(Extract(fs, audio, saveDir, loads).0)
  {
    var path := CachePath(audio, saveDir);
    if saveDir != [] {
      CacheChain(audio, saveDir);
    }
    CacheNotInParentChain(audio, saveDir);
    ExtractAtConsistent(fs, path, Dirname(path), loads(audio), LogMel(audio));
  }

  lemma ExtractAtConsistent(fs: Fs, path: string, parent: string, decodes: bool, c: Content)
    requires path != [] && path !in DirChain(parent)
    requires parent != [] ==> DirChain(path) == {path} + DirChain(parent)
    requires Consistent(fs)
    ensures Consistent(ExtractAt(fs, path, parent, decodes, c).0)
  {
    var (fs', o) := ExtractAt(fs, path, parent, decodes, c);
    if !Raised(o) {
      var fs1 := if PathExists(fs, parent) then fs else fs.(dirs := fs.dirs + DirChain(parent));
      if !PathExists(fs, parent) {
        forall d, q | d in fs1.dirs && q in DirChain(d) && q != d
          ensures q in fs1.dirs
        {
          if d !in fs.dirs {
            DirChainClosed(parent, d);
          }
        }
      }
      assert Consistent(fs1);
      if o == Saved {
        assert parent in fs1.dirs;
        assert fs' == fs1.(files := fs1.files[path := c]);
      }
    }
  }

  /** The file system that `parallel_mel` works on. */
  class FileSystem {
    var files: map<string, Content>
    var dirs: set<string>

    constructor (files0: map<string, Content>, dirs0: set<string>)
      ensures files == files0 && dirs == dirs0
    {
      files := files0;
      dirs := dirs0;
    }

    function State(): Fs
      reads this
    {
      Fs(files, dirs)
    }

    /** `os.path.exists(p)` */
    predicate Exists(p: string)
      reads this
    {
      PathExists(State(), p)
    }

    /** `os.makedirs(d, exist_ok=True)`: creates `d` and its missing
        ancestors; raises for the empty path and when a file sits at `d` or
        at one of its ancestors. */
    method MakeDirs(d: string) returns (ok: bool)
      modifies this
      ensures ok <==> d != [] && DirChain(d) * old(files).Keys == {}
      ensures files == old(files)
      ensures dirs == if ok then old(dirs) + DirChain(d) else old(dirs)
    {
      ok := d != [] && DirChain(d) * files.Keys == {};
      if ok {
        dirs := dirs + DirChain(d);
      }
    }

    /** `np.save(p, c)` for a path that already ends in ".npy": it raises
        unless the parent of `p` is a directory. */
    method Save(p: string, c: Content) returns (ok: bool)
      modifies this
      ensures ok <==> Dirname(p) == [] || Dirname(p) in old(dirs)
      ensures files == (if ok then old(files)[p := c] else old(files)) && dirs == old(dirs)
    {
      ok := Dirname(p) == [] || Dirname(p) in dirs;
      if ok {
        files := files[p := c];
      }
    }
  }

  /** `parallel_mel(audiofile, save_dir)`, step by step on the file system. */
  method ParallelMel(fs: FileSystem, audiofile: string, saveDir: string, loads: string -> bool)
    returns (outcome: Outcome)
    modifies fs
    ensures (fs.State(), outcome) == Extract(old(fs.State()), audiofile, saveDir, loads)
  {
    var savefile := CachePath(audiofile, saveDir);
    var parent := Dirname(savefile);
    if !fs.Exists(parent) {
      var ok := fs.MakeDirs(parent);
      if !ok {
        return MakedirsRaised;
      }
    }
    if fs.Exists(savefile) {
      return AlreadyCached;
    }
    if !loads(audiofile) {
      return LoadFailed;
    }
    var saved := fs.Save(savefile, LogMel(audiofile));
    if !saved {
      return SaveRaised;
    }
    return Saved;
  }

  /** One unit handed to the worker pool: an audio file and its cache directory. */
  datatype Job = Job(audio: string, saveDir: string)

  /** `N_WORKERS`, the size of the pool. */
  const Workers := 5

  /** The chunk size `Pool.starmap` picks when it is given none: the jobs
      are cut into runs of ceil(n / (4 * workers)) consecutive jobs, each
      handed to a worker as one task; no jobs give size 0. */
  function ChunkSize(n: nat): (c: nat)
    ensures n == 0 <==> c == 0
    ensures n <= c * (4 * Workers) && (c == 0 || (c - 1) * (4 * Workers) < n)
  {
    var size := 4 * Workers;
    if n % size == 0 then n / size else n / size + 1
  }

  /** Job `i` is not the first of its chunk. */
  predicate SameChunkAsPrevious(i: nat, chunk: nat)
  {
    0 < i && chunk != 0 && i % chunk != 0
  }

  /** The rule for job `i` of a run: it is skipped exactly when it shares a
      chunk with the job before it and that job raised or was skipped. */
  predicate SkipRule(out: seq<Outcome>, chunk: nat, i: nat)
    requires i < |out|
  {
    out[i] == Skipped <==> SameChunkAsPrevious(i, chunk) && Stopped(out[i - 1])
  }

  /** The pool's run over `jobs` cut into chunks of `chunk` consecutive
      jobs, taken chunk after chunk. A chunk runs its jobs in order, as
      `itertools.starmap` does, and stops at the first one that raises: the
      rest of that chunk is `Skipped`, while the other chunks run anyway. */
  function RunAll(fs: Fs, jobs: seq<Job>, chunk: nat, loads: string -> bool): (r: (Fs, seq<Outcome>))
    ensures |r.1| == |jobs|
  {
    if jobs == [] then (fs, [])
    else
      var n := |jobs| - 1;
      var prev := RunAll(fs, jobs[..n], chunk, loads);
      if SameChunkAsPrevious(n, chunk) && Stopped(prev.1[n - 1]) then (prev.0, prev.1 + [Skipped])
      else
        var step := Extract(prev.0, jobs[n].audio, jobs[n].saveDir, loads);
        (step.0, prev.1 + [step.1])
  }

  lemma RunAllSnoc(fs: Fs, jobs: seq<Job>, j: Job, chunk: nat, loads: string -> bool)
    ensures var prev := RunAll(fs, jobs, chunk, loads);
            var n := |jobs|;
            RunAll(fs, jobs + [j], chunk, loads) ==
              if SameChunkAsPrevious(n, chunk) && Stopped(prev.1[n - 1]) then (prev.0, prev.1 + [Skipped])
              else var step := Extract(prev.0, j.audio, j.saveDir, loads); (step.0, prev.1 + [step.1])
  {
    assert (jobs + [j])[..|jobs|] == jobs;
  }

  /** The outcomes of a run follow the skip rule at every job: a job is
      skipped exactly when the job before it in its chunk raised or was
      skipped. */
  lemma {:induction false} RunAllSkipRule(fs: Fs, jobs: seq<Job>, chunk: nat, loads: string -> bool)
    ensures forall i :: 0 <= i < |jobs| ==> SkipRule(RunAll(fs, jobs, chunk, loads).1, chunk, i)
    decreases |jobs|
  {
    if jobs != [] {
      var n := |jobs| - 1;
      RunAllSkipRule(fs, jobs[..n], chunk, loads);
      SkipRuleLast(fs, jobs, chunk, loads);
      SkipRuleStep(RunAll(fs, jobs[..n], chunk, loads).1, RunAll(fs, jobs, chunk, loads).1, chunk);
    }
  }

  lemma SkipRuleLast(fs: Fs, jobs: seq<Job>, chunk: nat, loads: string -> bool)
    requires jobs != []
    ensures var n := |jobs| - 1;
            var out0 := RunAll(fs, jobs[..n], chunk, loads).1;
            var out := RunAll(fs, jobs, chunk, loads).1;
            out == out0 + [out[n]] && SkipRule(out, chunk, n)
  {
  }

  lemma SkipRuleStep(out0: seq<Outcome>, out: seq<Outcome>, chunk: nat)
    requires |out| == |out0| + 1 && out == out0 + [out[|out0|]]
    requires forall i :: 0 <= i < |out0| ==> SkipRule(out0, chunk, i)
    requires SkipRule(out, chunk, |out0|)
    ensures forall i :: 0 <= i < |out| ==> SkipRule(out, chunk, i)
  {
    forall i | 0 <= i < |out|
      ensures SkipRule(out, chunk, i)
    {
      if i < |out0| {
        assert out[i] == out0[i];
        assert 0 < i ==> out[i - 1] == out0[i - 1];
        assert SkipRule(out0, chunk, i);
      }
    }
  }

  /** A run reports a failed load only for audio that does not decode. */
  lemma {:induction false} RunAllLoadFailed(fs: Fs, jobs: seq<Job>, chunk: nat, loads: string -> bool)
    ensures forall i :: 0 <= i < |jobs| && RunAll(fs, jobs, chunk, loads).1[i] == LoadFailed ==>
              !loads(jobs[i].audio)
    decreases |jobs|
  {
    if jobs != [] {
      var n := |jobs| - 1;
      RunAllLoadFailed(fs, jobs[..n], chunk, loads);
      LoadFailedLast(fs, jobs, chunk, loads);
      SplitLast(jobs);
      LoadFailedStep(RunAll(fs, jobs[..n], chunk, loads).1, RunAll(fs, jobs, chunk, loads).1, jobs[..n], jobs, loads);
    }
  }

  lemma LoadFailedLast(fs: Fs, jobs: seq<Job>, chunk: nat, loads: string -> bool)
    requires jobs != []
    ensures var n := |jobs| - 1;
            var out0 := RunAll(fs, jobs[..n], chunk, loads).1;
            var out := RunAll(fs, jobs, chunk, loads).1;
            out == out0 + [out[n]] && (out[n] == LoadFailed ==> !loads(jobs[n].audio))
  {
  }

  lemma LoadFailedStep(out0: seq<Outcome>, out: seq<Outcome>, init: seq<Job>, jobs: seq<Job>, loads: string -> bool)
    requires |out0| == |init| && |jobs| == |out| == |init| + 1
    requires jobs == init + [jobs[|init|]] && out == out0 + [out[|init|]]
    requires forall i :: 0 <= i < |init| && out0[i] == LoadFailed ==> !loads(init[i].audio)
    requires out[|init|] == LoadFailed ==> !loads(jobs[|init|].audio)
    ensures forall i :: 0 <= i < |jobs| && out[i] == LoadFailed ==> !loads(jobs[i].audio)
  {
    forall i | 0 <= i < |jobs| && out[i] == LoadFailed
      ensures !loads(jobs[i].audio)
    {
      if i < |init| {
        assert jobs[i] == init[i] && out[i] == out0[i];
      }
    }
  }

  /** Euclidean division has one quotient and one remainder. */
  lemma DivModUnique(n: int, c: int, q: int, r: int)
    requires c > 0 && 0 <= r < c && n == q * c + r
    ensures n / c == q && n % c == r
  {
    var q0, r0 := n / c, n % c;
    assert (q - q0) * c == r0 - r;
    if q0 < q {
      MulAtLeast(q - q0, c);
    } else if q < q0 {
      MulAtLeast(q0 - q, c);
    }
  }

  lemma {:induction false} MulAtLeast(k: int, c: int)
    requires k >= 1 && c > 0
    ensures k * c >= c
    decreases k
  {
    if k > 1 {
      MulAtLeast(k - 1, c);
      assert k * c == (k - 1) * c + c;
    }
  }

  /** Stepping back inside a chunk keeps the chunk's start. */
  lemma ChunkPrevious(i: nat, chunk: nat)
    requires chunk > 0 && i % chunk != 0
    ensures (i - 1) - (i - 1) % chunk == i - i % chunk
  {
    DivModUnique(i - 1, chunk, i / chunk, i % chunk - 1);
  }

  /** Under the skip rule a job is skipped exactly when an earlier job of
      its own chunk raised: a raise cuts short its own chunk and no other. */
  lemma {:induction false} SkippedAfterRaise(out: seq<Outcome>, chunk: nat, i: nat)
    requires chunk > 0 && i < |out|
    requires forall k :: 0 <= k < |out| ==> SkipRule(out, chunk, k)
    ensures out[i] == Skipped <==> exists k :: i - i % chunk <= k < i && Raised(out[k])
    decreases i
  {
    assert SkipRule(out, chunk, i);
    if i % chunk != 0 {
      ChunkPrevious(i, chunk);
      SkippedAfterRaise(out, chunk, i - 1);
      if out[i] == Skipped && !Raised(out[i - 1]) {
        var k :| i - i % chunk <= k < i - 1 && Raised(out[k]);
      }
      if exists k :: i - i % chunk <= k < i && Raised(out[k]) {
        var k :| i - i % chunk <= k < i && Raised(out[k]);
        assert Stopped(out[i - 1]);
      }
    }
  }

  /** In a run, a job is skipped exactly when an earlier job of its own
      chunk raised. */
  lemma RunAllSkipped(fs: Fs, jobs: seq<Job>, chunk: nat, loads: string -> bool, i: nat)
    requires chunk > 0 && i < |jobs|
    ensures var out := RunAll(fs, jobs, chunk, loads).1;
            out[i] == Skipped <==> exists k :: i - i % chunk <= k < i && Raised(out[k])
  {
    var out := RunAll(fs, jobs, chunk, loads).1;
    RunAllSkipRule(fs, jobs, chunk, loads);
    assert forall k :: 0 <= k < |out| ==> SkipRule(out, chunk, k);
    SkippedAfterRaise(out, chunk, i);
  }

  /** A job whose re-run would leave the file system unchanged. */
  predicate Settled(fs: Fs, j: Job, loads: string -> bool)
  {
    var path := CachePath(j.audio, j.saveDir);
    var parent := Dirname(path);
    MakedirsFails(fs, parent)
    || (PathExists(fs, parent) && (PathExists(fs, path) || !loads(j.audio) || parent !in fs.dirs))
  }

  /** The job raises when it runs on `fs`. */
  predicate Raises(fs: Fs, j: Job, loads: string -> bool)
  {
    var path := CachePath(j.audio, j.saveDir);
    var parent := Dirname(path);
    MakedirsFails(fs, parent)
    || (!PathExists(fs, path) && loads(j.audio) && parent in fs.files && parent !in fs.dirs)
  }

  /** Every job of `jobs` that ran is settled on `fs`, and one that raised
      would raise again. */
  predicate AllSettled(fs: Fs, jobs: seq<Job>, out: seq<Outcome>, loads: string -> bool)
    requires |out| == |jobs|
  {
    forall i :: 0 <= i < |jobs| && out[i] != Skipped ==>
      Settled(fs, jobs[i], loads) && (Raised(out[i]) ==> Raises(fs, jobs[i], loads))
  }

  /** `fs'` has everything `fs` has, with the same file contents. */
  predicate Grows(fs: Fs, fs': Fs)
  {
    fs.dirs <= fs'.dirs && fs.files.Keys <= fs'.files.Keys
    && forall p :: p in fs.files ==> fs'.files[p] == fs.files[p]
  }

  /** A call raises exactly when its job `Raises` on the state it starts
      from. */
  lemma ExtractRaises(fs: Fs, j: Job, loads: string -> bool)
    ensures Raised(Extract(fs, j.audio, j.saveDir, loads).1) <==> Raises(fs, j, loads)
  {
  }

  /** A file in the way of `makedirs` stays in the way: on a real file
      system nothing can be created below a file. */
  lemma MakedirsFailsPersists(fs: Fs, fs': Fs, d: string)
    requires MakedirsFails(fs, d) && Grows(fs, fs') && Consistent(fs')
    ensures MakedirsFails(fs', d)
  {
    if d != [] {
      var q :| q in DirChain(d) * fs.files.Keys;
      assert q in fs'.files && q != d;
      assert q !in fs'.dirs;
    }
  }

  lemma SettledPersists(fs: Fs, fs': Fs, j: Job, loads: string -> bool)
    requires Settled(fs, j, loads) && Grows(fs, fs') && Consistent(fs')
    ensures Settled(fs', j, loads)
  {
    var parent := Dirname(CachePath(j.audio, j.saveDir));
    if MakedirsFails(fs, parent) {
      MakedirsFailsPersists(fs, fs', parent);
    } else if parent !in fs.dirs {
      assert parent in fs'.files;
    }
  }

  lemma RaisesPersists(fs: Fs, fs': Fs, j: Job, loads: string -> bool)
    requires Raises(fs, j, loads) && Grows(fs, fs') && Consistent(fs')
    ensures Raises(fs', j, loads)
  {
    var path := CachePath(j.audio, j.saveDir);
    var parent := Dirname(path);
    if MakedirsFails(fs, parent) {
      MakedirsFailsPersists(fs, fs', parent);
    } else {
      CacheChain(j.audio, j.saveDir);
      assert parent in fs'.files && parent !in fs'.dirs;
      assert parent in DirChain(path);
    }
  }

  /** A call only adds: directories stay, files stay with their contents. */
  lemma ExtractGrows(fs: Fs, j: Job, loads: string -> bool)
    ensures Grows(fs, Extract(fs, j.audio, j.saveDir, loads).0)
  {
    var path := CachePath(j.audio, j.saveDir);
    CacheNotInParentChain(j.audio, j.saveDir);
    ExtractAtGrows(fs, path, Dirname(path), loads(j.audio), LogMel(j.audio));
  }

  lemma ExtractAtGrows(fs: Fs, path: string, parent: string, decodes: bool, c: Content)
    requires path != [] && path !in DirChain(parent)
    ensures Grows(fs, ExtractAt(fs, path, parent, decodes, c).0)
  {
  }

  lemma GrowsTransitive(a: Fs, b: Fs, c: Fs)
    requires Grows(a, b) && Grows(b, c)
    ensures Grows(a, c)
  {
  }

  lemma {:induction false} RunAllGrows(fs: Fs, jobs: seq<Job>, chunk: nat, loads: string -> bool)
    ensures Grows(fs, RunAll(fs, jobs, chunk, loads).0)
    decreases |jobs|
  {
    if jobs != [] {
      var n := |jobs| - 1;
      var prev := RunAll(fs, jobs[..n], chunk, loads).0;
      RunAllGrows(fs, jobs[..n], chunk, loads);
      ExtractGrows(prev, jobs[n], loads);
      GrowsTransitive(fs, prev, RunAll(fs, jobs, chunk, loads).0);
    }
  }

  /** A batch keeps a real file system real. */
  lemma {:induction false} RunAllConsistent(fs: Fs, jobs: seq<Job>, chunk: nat, loads: string -> bool)
    requires Consistent(fs)
    ensures Consistent(RunAll(fs, jobs, chunk, loads).0)
    decreases |jobs|
  {
    if jobs != [] {
      var n := |jobs| - 1;
      RunAllConsistent(fs, jobs[..n], chunk, loads);
      ExtractConsistent(RunAll(fs, jobs[..n], chunk, loads).0, jobs[n].audio, jobs[n].saveDir, loads);
    }
  }

  /** A job is settled right after it has run, and one that raised would
      raise again. */
  lemma ExtractSettles(fs: Fs, j: Job, loads: string -> bool)
    ensures var (fs', o) := Extract(fs, j.audio, j.saveDir, loads);
            Settled(fs', j, loads) && (Raised(o) ==> Raises(fs', j, loads))
  {
  }

  /** Running a settled job changes nothing. */
  lemma SettledIsNoOp(fs: Fs, j: Job, loads: string -> bool)
    requires Settled(fs, j, loads)
    ensures Extract(fs, j.audio, j.saveDir, loads).0 == fs
  {
    if !MakedirsFails(fs, Dirname(CachePath(j.audio, j.saveDir))) {
      assert Extract(fs, j.audio, j.saveDir, loads).0.dirs == fs.dirs;
    }
  }

  /** After the batch, every job that ran is settled, and one that raised
      would raise again. */
  lemma {:induction false} RunAllSettles(fs: Fs, jobs: seq<Job>, chunk: nat, loads: string -> bool)
    requires Consistent(fs)
    ensures var r := RunAll(fs, jobs, chunk, loads); AllSettled(r.0, jobs, r.1, loads)
    decreases |jobs|
  {
    if jobs != [] {
      var n := |jobs| - 1;
      RunAllSettles(fs, jobs[..n], chunk, loads);
      RunAllConsistent(fs, jobs[..n], chunk, loads);
      SettlesLast(fs, jobs, chunk, loads);
      SplitLast(jobs);
      var prev := RunAll(fs, jobs[..n], chunk, loads);
      var r := RunAll(fs, jobs, chunk, loads);
      SettlesStep(prev.0, prev.1, r.0, r.1, jobs[..n], jobs, loads);
    }
  }

  lemma SettlesLast(fs: Fs, jobs: seq<Job>, chunk: nat, loads: string -> bool)
    requires jobs != [] && Consistent(RunAll(fs, jobs[..|jobs| - 1], chunk, loads).0)
    ensures var n := |jobs| - 1;
            var prev := RunAll(fs, jobs[..n], chunk, loads);
            var r := RunAll(fs, jobs, chunk, loads);
            && r.1 == prev.1 + [r.1[n]] && Grows(prev.0, r.0) && Consistent(r.0)
            && (r.1[n] != Skipped ==>
                  Settled(r.0, jobs[n], loads) && (Raised(r.1[n]) ==> Raises(r.0, jobs[n], loads)))
  {
    var n := |jobs| - 1;
    var prev := RunAll(fs, jobs[..n], chunk, loads).0;
    ExtractGrows(prev, jobs[n], loads);
    ExtractConsistent(prev, jobs[n].audio, jobs[n].saveDir, loads);
    ExtractSettles(prev, jobs[n], loads);
  }

  lemma SettlesStep(fs0: Fs, out0: seq<Outcome>, fs1: Fs, out: seq<Outcome>, init: seq<Job>, jobs: seq<Job>,
                    loads: string -> bool)
    requires |out0| == |init| && |jobs| == |out| == |init| + 1
    requires jobs == init + [jobs[|init|]] && out == out0 + [out[|init|]]
    requires Grows(fs0, fs1) && Consistent(fs1) && AllSettled(fs0, init, out0, loads)
    requires out[|init|] != Skipped ==>
               Settled(fs1, jobs[|init|], loads) && (Raised(out[|init|]) ==> Raises(fs1, jobs[|init|], loads))
    ensures AllSettled(fs1, jobs, out, loads)
  {
    forall i | 0 <= i < |jobs| && out[i] != Skipped
      ensures Settled(fs1, jobs[i], loads) && (Raised(out[i]) ==> Raises(fs1, jobs[i], loads))
    {
      if i < |init| {
        assert jobs[i] == init[i] && out[i] == out0[i];
        SettledPersists(fs0, fs1, jobs[i], loads);
        if Raised(out[i]) {
          RaisesPersists(fs0, fs1, jobs[i], loads);
        }
      }
    }
  }

  /** Settled jobs change nothing when run again. */
  lemma {:induction false} RunAllSettledIsNoOp(fs: Fs, jobs: seq<Job>, chunk: nat, loads: string -> bool)
    requires forall i :: 0 <= i < |jobs| ==> Settled(fs, jobs[i], loads)
    ensures RunAll(fs, jobs, chunk, loads).0 == fs
    decreases |jobs|
  {
    if jobs != [] {
      var n := |jobs| - 1;
      var init := jobs[..n];
      assert forall i :: 0 <= i < |init| ==> init[i] == jobs[i];
      RunAllSettledIsNoOp(fs, init, chunk, loads);
      SettledIsNoOp(fs, jobs[n], loads);
    }
  }

  /** The batch run again over a state on which every job that ran is
      settled, with the outcomes `out` of that first run: a job runs again
      only if it ran the first time, so it changes nothing, and a job that
      stopped its chunk the first time stops it again. */
  lemma {:induction false} RerunIsNoOp(fs: Fs, jobs: seq<Job>, chunk: nat, loads: string -> bool, out: seq<Outcome>)
    requires |out| == |jobs| && AllSettled(fs, jobs, out, loads)
    requires forall i :: 0 <= i < |out| ==> SkipRule(out, chunk, i)
    ensures RunAll(fs, jobs, chunk, loads).0 == fs
    ensures forall i :: 0 <= i < |jobs| && Stopped(out[i]) ==> Stopped(RunAll(fs, jobs, chunk, loads).1[i])
    decreases |jobs|
  {
    if jobs != [] {
      var n := |jobs| - 1;
      RerunPrefix(fs, jobs, out, chunk, loads, n);
      RerunIsNoOp(fs, jobs[..n], chunk, loads, out[..n]);
      RerunLast(fs, jobs, chunk, loads, out, n);
      SplitLast(out);
      RerunStep(out[..n], out, RunAll(fs, jobs[..n], chunk, loads).1, RunAll(fs, jobs, chunk, loads).1);
    }
  }

  lemma RerunPrefix(fs: Fs, jobs: seq<Job>, out: seq<Outcome>, chunk: nat, loads: string -> bool, n: nat)
    requires n + 1 == |jobs| && |out| == |jobs| && AllSettled(fs, jobs, out, loads)
    requires forall i :: 0 <= i < |out| ==> SkipRule(out, chunk, i)
    ensures AllSettled(fs, jobs[..n], out[..n], loads)
    ensures forall i :: 0 <= i < n ==> SkipRule(out[..n], chunk, i)
  {
    forall i | 0 <= i < n
      ensures SkipRule(out[..n], chunk, i)
    {
      assert SkipRule(out, chunk, i);
      assert 0 < i ==> out[..n][i - 1] == out[i - 1];
    }
    assert forall i :: 0 <= i < n ==> jobs[..n][i] == jobs[i] && out[..n][i] == out[i];
  }

  lemma RerunLast(fs: Fs, jobs: seq<Job>, chunk: nat, loads: string -> bool, out: seq<Outcome>, n: nat)
    requires n + 1 == |jobs| && |out| == |jobs| && AllSettled(fs, jobs, out, loads) && SkipRule(out, chunk, n)
    requires RunAll(fs, jobs[..n], chunk, loads).0 == fs
    requires forall i :: 0 <= i < n && Stopped(out[..n][i]) ==> Stopped(RunAll(fs, jobs[..n], chunk, loads).1[i])
    ensures var prev := RunAll(fs, jobs[..n], chunk, loads);
            var r := RunAll(fs, jobs, chunk, loads);
            r.0 == fs && r.1 == prev.1 + [r.1[n]] && (Stopped(out[n]) ==> Stopped(r.1[n]))
  {
    var prev := RunAll(fs, jobs[..n], chunk, loads);
    if 0 < n {
      assert out[..n][n - 1] == out[n - 1];
    }
    if !(SameChunkAsPrevious(n, chunk) && Stopped(prev.1[n - 1])) {
      assert out[n] != Skipped;
      SettledIsNoOp(fs, jobs[n], loads);
      ExtractRaises(fs, jobs[n], loads);
    }
  }

  lemma RerunStep(out0: seq<Outcome>, out: seq<Outcome>, r0: seq<Outcome>, r: seq<Outcome>)
    requires |r0| == |out0| && |out| == |r| == |out0| + 1
    requires out == out0 + [out[|out0|]] && r == r0 + [r[|out0|]]
    requires forall i :: 0 <= i < |out0| && Stopped(out0[i]) ==> Stopped(r0[i])
    requires Stopped(out[|out0|]) ==> Stopped(r[|out0|])
    ensures forall i :: 0 <= i < |out| && Stopped(out[i]) ==> Stopped(r[i])
  {
    forall i | 0 <= i < |out| && Stopped(out[i])
      ensures Stopped(r[i])
    {
      if i < |out0| {
        assert out[i] == out0[i] && r[i] == r0[i];
      }
    }
  }

  /** Running the same batch a second time, after a first run that
      completed, changes nothing. */
  lemma RunAllIdempotent(fs: Fs, jobs: seq<Job>, chunk: nat, loads: string -> bool)
    requires Consistent(fs)
    ensures var fs1 := RunAll(fs, jobs, chunk, loads).0; RunAll(fs1, jobs, chunk, loads).0 == fs1
  {
    var r := RunAll(fs, jobs, chunk, loads);
    RunAllSettles(fs, jobs, chunk, loads);
    RunAllSkipRule(fs, jobs, chunk, loads);
    RerunIsNoOp(r.0, jobs, chunk, loads, r.1);
  }

  /** `p` holds what job `j` saves. */
  predicate SavedBy(fs: Fs, p: string, j: Job, loads: string -> bool)
  {
    p in fs.files && p == CachePath(j.audio, j.saveDir) && loads(j.audio) && fs.files[p] == LogMel(j.audio)
  }

  /** One more job keeps every added file attributable to a job. */
  lemma NewFilesStep(fs: Fs, fs1: Fs, init: seq<Job>, last: Job, loads: string -> bool)
    requires forall p :: p in fs1.files && p !in fs.files ==> exists j :: j in init && SavedBy(fs1, p, j, loads)
    ensures var fs' := Extract(fs1, last.audio, last.saveDir, loads).0;
            forall p :: p in fs'.files && p !in fs.files ==> exists j :: j in init + [last] && SavedBy(fs', p, j, loads)
  {
    var fs' := Extract(fs1, last.audio, last.saveDir, loads).0;
    NewFileIsCache(fs1, last, loads);
    forall p | p in fs'.files && p !in fs.files
      ensures exists j :: j in init + [last] && SavedBy(fs', p, j, loads)
    {
      if SavedBy(fs', p, last, loads) {
        assert last in init + [last];
      } else {
        var j :| j in init && SavedBy(fs1, p, j, loads);
        assert j in init + [last] && SavedBy(fs', p, j, loads);
      }
    }
  }

  /** Every file the batch added is the cache file of one of its jobs
      whose audio decodes, holding that audio's spectrogram. */
  lemma {:induction false} RunAllNewFiles(fs: Fs, jobs: seq<Job>, chunk: nat, loads: string -> bool)
    ensures forall p :: p in RunAll(fs, jobs, chunk, loads).0.files && p !in fs.files ==>
              exists j :: j in jobs && SavedBy(RunAll(fs, jobs, chunk, loads).0, p, j, loads)
    decreases |jobs|
  {
    if jobs != [] {
      var init := jobs[..|jobs| - 1];
      var last := jobs[|jobs| - 1];
      SplitLast(jobs);
      RunAllNewFiles(fs, init, chunk, loads);
      RunAllSnoc(fs, init, last, chunk, loads);
      var prev := RunAll(fs, init, chunk, loads);
      if SameChunkAsPrevious(|init|, chunk) && Stopped(prev.1[|init| - 1]) {
        forall p | p in prev.0.files && p !in fs.files
          ensures exists j :: j in jobs && SavedBy(prev.0, p, j, loads)
        {
          var j :| j in init && SavedBy(prev.0, p, j, loads);
          assert j in jobs;
        }
      } else {
        NewFilesStep(fs, prev.0, init, last, loads);
      }
    }
  }

  /** A job that found or saved its cache file still has it at the end of
      the batch, whatever the later jobs did. */
  lemma {:induction false} RunAllKeepsCaches(fs: Fs, jobs: seq<Job>, chunk: nat, loads: string -> bool)
    ensures forall i :: 0 <= i < |jobs| && (RunAll(fs, jobs, chunk, loads).1[i] == Saved
                                            || RunAll(fs, jobs, chunk, loads).1[i] == AlreadyCached) ==>
              PathExists(RunAll(fs, jobs, chunk, loads).0, CachePath(jobs[i].audio, jobs[i].saveDir))
    decreases |jobs|
  {
    if jobs != [] {
      var n := |jobs| - 1;
      RunAllKeepsCaches(fs, jobs[..n], chunk, loads);
      KeepsCachesLast(fs, jobs, chunk, loads);
      SplitLast(jobs);
      var prev := RunAll(fs, jobs[..n], chunk, loads);
      var r := RunAll(fs, jobs, chunk, loads);
      KeepsCachesStep(prev.0, prev.1, r.0, r.1, jobs[..n], jobs);
    }
  }

  lemma KeepsCachesLast(fs: Fs, jobs: seq<Job>, chunk: nat, loads: string -> bool)
    requires jobs != []
    ensures var n := |jobs| - 1;
            var prev := RunAll(fs, jobs[..n], chunk, loads);
            var r := RunAll(fs, jobs, chunk, loads);
            && r.1 == prev.1 + [r.1[n]] && Grows(prev.0, r.0)
            && (r.1[n] == Saved || r.1[n] == AlreadyCached ==> PathExists(r.0, CachePath(jobs[n].audio, jobs[n].saveDir)))
  {
    var n := |jobs| - 1;
    ExtractGrows(RunAll(fs, jobs[..n], chunk, loads).0, jobs[n], loads);
  }

  lemma KeepsCachesStep(fs0: Fs, out0: seq<Outcome>, fs1: Fs, out: seq<Outcome>, init: seq<Job>, jobs: seq<Job>)
    requires |out0| == |init| && |jobs| == |out| == |init| + 1
    requires jobs == init + [jobs[|init|]] && out == out0 + [out[|init|]] && Grows(fs0, fs1)
    requires forall i :: 0 <= i < |init| && (out0[i] == Saved || out0[i] == AlreadyCached) ==>
               PathExists(fs0, CachePath(init[i].audio, init[i].saveDir))
    requires out[|init|] == Saved || out[|init|] == AlreadyCached ==>
               PathExists(fs1, CachePath(jobs[|init|].audio, jobs[|init|].saveDir))
    ensures forall i :: 0 <= i < |jobs| && (out[i] == Saved || out[i] == AlreadyCached) ==>
              PathExists(fs1, CachePath(jobs[i].audio, jobs[i].saveDir))
  {
    forall i | 0 <= i < |jobs| && (out[i] == Saved || out[i] == AlreadyCached)
      ensures PathExists(fs1, CachePath(jobs[i].audio, jobs[i].saveDir))
    {
      if i < |init| {
        assert jobs[i] == init[i] && out[i] == out0[i];
        assert PathExists(fs0, CachePath(init[i].audio, init[i].saveDir));
      }
    }
  }

  /** What a batch leaves behind: nothing is lost; every job that found or
      saved its cache file has it afterwards; every new file is the cache
      file of a job whose audio decodes, holding that audio's spectrogram;
      a job reports a failed load only when its audio does not decode; and
      when no job raises, no job is skipped. */
  lemma RunAllOutcome(fs: Fs, jobs: seq<Job>, chunk: nat, loads: string -> bool)
    ensures var (fs', out) := RunAll(fs, jobs, chunk, loads);
            && Grows(fs, fs')
            && (forall i :: 0 <= i < |jobs| && (out[i] == Saved || out[i] == AlreadyCached) ==>
                  PathExists(fs', CachePath(jobs[i].audio, jobs[i].saveDir)))
            && (forall i :: 0 <= i < |jobs| && out[i] == LoadFailed ==> !loads(jobs[i].audio))
            && (forall p :: p in fs'.files && p !in fs.files ==> exists j :: j in jobs && SavedBy(fs', p, j, loads))
            && ((forall i :: 0 <= i < |jobs| ==> !Raised(out[i])) ==> forall i :: 0 <= i < |jobs| ==> out[i] != Skipped)
  {
    var out := RunAll(fs, jobs, chunk, loads).1;
    RunAllGrows(fs, jobs, chunk, loads);
    RunAllKeepsCaches(fs, jobs, chunk, loads);
    RunAllNewFiles(fs, jobs, chunk, loads);
    RunAllLoadFailed(fs, jobs, chunk, loads);
    RunAllSkipRule(fs, jobs, chunk, loads);
    forall i | 0 <= i < |jobs| && out[i] == Skipped
      ensures exists k :: 0 <= k < |jobs| && Raised(out[k])
    {
      assert SkipRule(out, chunk, i);
      SkippedAfterRaise(out, chunk, i);
    }
  }

  /** The one step: files are never rewritten, and a new file is the job's
      cache file holding its audio's spectrogram. */
  lemma NewFileIsCache(fs: Fs, j: Job, loads: string -> bool)
    ensures var fs' := Extract(fs, j.audio, j.saveDir, loads).0;
            forall p :: p in fs'.files ==>
              (p in fs.files && fs'.files[p] == fs.files[p])
              || (p == CachePath(j.audio, j.saveDir) && loads(j.audio) && fs'.files[p] == LogMel(j.audio))
  {
  }

  lemma TakeOneMore<T>(s: seq<T>, i: nat)
    requires i < |s|
    ensures s[..i + 1] == s[..i] + [s[i]]
  {
  }

  lemma SplitLast<T>(s: seq<T>)
    requires s != []
    ensures s[..|s| - 1] + [s[|s| - 1]] == s
  {
  }

  lemma TakeAll<T>(s: seq<T>)
    ensures s[..|s|] == s
  {
  }

  /** Job `i` of a task: `parallel_mel` runs unless an earlier job of the
      same task raised, in which case `starmap` never reaches it. */
  method RunJob(fs: FileSystem, jobs: seq<Job>, chunk: nat, i: nat, loads: string -> bool,
                ghost start: Fs, outs: seq<Outcome>, stopped: bool) returns (outs': seq<Outcome>, stopped': bool)
    requires i < |jobs| && (fs.State(), outs) == RunAll(start, jobs[..i], chunk, loads)
    requires stopped <==> SameChunkAsPrevious(i, chunk) && Stopped(outs[i - 1])
    modifies fs
    ensures (fs.State(), outs') == RunAll(start, jobs[..i + 1], chunk, loads)
    ensures stopped' <==> Stopped(outs'[i])
  {
    TakeOneMore(jobs, i);
    RunAllSnoc(start, jobs[..i], jobs[i], chunk, loads);
    var o := Skipped;
    if !stopped {
      o := ParallelMel(fs, jobs[i].audio, jobs[i].saveDir, loads);
    }
    outs' := outs + [o];
    assert outs'[i] == o;
    stopped' := Stopped(o);
  }

  /** `Pool(N_WORKERS).starmap(parallel_mel, jobs)`, its tasks taken one
      after another: a task starts at every multiple of the chunk size and
      runs its jobs until one raises. */
  method RunPool(fs: FileSystem, jobs: seq<Job>, loads: string -> bool) returns (outcomes: seq<Outcome>)
    modifies fs
    ensures (fs.State(), outcomes) == RunAll(old(fs.State()), jobs, ChunkSize(|jobs|), loads)
  {
    ghost var start := fs.State();
    var chunk := ChunkSize(|jobs|);
    outcomes := [];
    var i := 0;
    var stopped := false;
    while i < |jobs|
      invariant i <= |jobs| && (fs.State(), outcomes) == RunAll(start, jobs[..i], chunk, loads)
      invariant 0 < i ==> (stopped <==> Stopped(outcomes[i - 1]))
    {
      if i % chunk == 0 {
        stopped := false;
      }
      outcomes, stopped := RunJob(fs, jobs, chunk, i, loads, start, outcomes, stopped);
      i := i + 1;
    }
    TakeAll(jobs);
  }

  /** One entry of `process_damp`'s work set: the audio path (the segment's
      cache path with every ".npy" replaced by the audio extension), the
      audio directory, the mel directory and the extension. */
  datatype WorkUnit = WorkUnit(audioPath: string, audioDir: string, melDir: string, ext: string)

  function UnitOf(seg: Segment, audioDir: string, melDir: string, ext: string): (u: WorkUnit)
    ensures u.audioDir == audioDir && u.melDir == melDir && u.ext == ext
  {
    WorkUnit(Replace(seg.path, ".npy", ext), audioDir, melDir, ext)
  }

  /** For the usual segment path "<name>.npy" the audio path is "<name>" + ext. */
  lemma UnitOfNpyPath(name: string, start: int, artist: int, audioDir: string, melDir: string, ext: string)
    requires !Occurs(name, ".npy")
    ensures UnitOf(Segment(artist, name + ".npy", start), audioDir, melDir, ext).audioPath == name + ext
  {
    NpyHasNoBorder();
    ReplaceTrailing(name, ".npy", ext);
  }

  /** The set of work units a segment list calls for. */
  ghost function UnitsOf(segs: seq<Segment>, audioDir: string, melDir: string, ext: string): set<WorkUnit>
  {
    set s | s in segs :: UnitOf(s, audioDir, melDir, ext)
  }

  lemma UnitsOfSnoc(segs: seq<Segment>, s: Segment, audioDir: string, melDir: string, ext: string)
    ensures UnitsOf(segs + [s], audioDir, melDir, ext) == UnitsOf(segs, audioDir, melDir, ext) + {UnitOf(s, audioDir, melDir, ext)}
  {
  }

  /** A list of n segments calls for at most n distinct units. */
  lemma {:induction false} UnitsOfSize(segs: seq<Segment>, audioDir: string, melDir: string, ext: string)
    ensures |UnitsOf(segs, audioDir, melDir, ext)| <= |segs|
    decreases |segs|
  {
    if segs != [] {
      var init := segs[..|segs| - 1];
      UnitsOfSize(init, audioDir, melDir, ext);
      assert segs == init + [segs[|segs| - 1]];
      UnitsOfSnoc(init, segs[|segs| - 1], audioDir, melDir, ext);
    }
  }

  /** `list(s)`: the elements of a set, each once, in an order the set chooses. */
  method SetToList(s: set<WorkUnit>) returns (units: seq<WorkUnit>)
    ensures forall i, j :: 0 <= i < j < |units| ==> units[i] != units[j]
    ensures forall u :: u in units <==> u in s
    ensures |units| == |s|
  {
    units := [];
    var rest := s;
    while rest != {}
      invariant rest <= s
      invariant forall u :: u in units <==> u in s - rest
      invariant |units| + |rest| == |s|
      invariant forall i, j :: 0 <= i < j < |units| ==> units[i] != units[j]
      decreases rest
    {
      var u :| u in rest;
      assert u !in units;
      units := units + [u];
      rest := rest - {u};
      assert forall v :: v in units <==> v in s - rest;
    }
  }

  /** `process_damp`'s work list: the units of both segment lists gathered
      in a set, then turned into a list in whatever order the set yields.
      Each distinct unit appears exactly once. */
  method DedupUnits(first: seq<Segment>, second: seq<Segment>, audioDir: string, melDir: string, ext: string)
    returns (units: seq<WorkUnit>)
    ensures forall i, j :: 0 <= i < j < |units| ==> units[i] != units[j]
    ensures forall u :: u in units <==> exists s :: s in first + second && u == UnitOf(s, audioDir, melDir, ext)
    ensures |units| <= |first| + |second|
  {
    var all: set<WorkUnit> := {};
    var i := 0;
    while i < |first|
      invariant 0 <= i <= |first|
      invariant all == UnitsOf(first[..i], audioDir, melDir, ext)
    {
      UnitsOfSnoc(first[..i], first[i], audioDir, melDir, ext);
      assert first[..i + 1] == first[..i] + [first[i]];
      all := all + {UnitOf(first[i], audioDir, melDir, ext)};
      i := i + 1;
    }
    assert first[..i] == first;
    var j := 0;
    while j < |second|
      invariant 0 <= j <= |second|
      invariant all == UnitsOf(first + second[..j], audioDir, melDir, ext)
    {
      UnitsOfSnoc(first + second[..j], second[j], audioDir, melDir, ext);
      assert first + second[..j + 1] == (first + second[..j]) + [second[j]];
      all := all + {UnitOf(second[j], audioDir, melDir, ext)};
      j := j + 1;
    }
    assert second[..j] == second;
    UnitsOfSize(first + second, audioDir, melDir, ext);
    units := SetToList(all);
  }
}
