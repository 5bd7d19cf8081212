# Singer-embedding evaluation and feature cache, in Dafny

This project models the deterministic core of a singer-identification
pipeline (mono2mixed-singer). It has two parts.

**Profile building and retrieval scoring** (`damp_dcnn/test.py`).
`build_singer_model` runs in two steps.

- It loads a feature window for each `(artist_id, feat_path, start_frame)`
  segment and embeds it with the network. It groups the embeddings into a
  nested dict: artist key 0..299, then track path, then a list of
  embeddings.
- It pools that dict in one of two modes:
  - artist mode (the gallery): one row per artist key, the mean of all of
    that artist's segment embeddings, and one label per segment;
  - track mode (the queries): one row per (artist, track), the mean of that
    track's embeddings, and one label per row.

`test()` builds a gallery and a set of queries and compares every query
with every gallery row. It then counts:

- the top-1 hits: the argmax of the query's row is its label;
- the top-k hits (k = 5): the label is among the first k indices of a
  descending ranking.

**Feature cache** (`feature_extract.py`). `parallel_mel` maps one audio
file to a cached log-mel file under a save directory:

- it creates the parent directory when it is missing;
- it skips files already cached;
- it returns without output when decoding fails;
- otherwise it saves.

`process_damp` collects the deduplicated work units into a `set`,
rewriting each segment path with `.replace('.npy', ext)`. The worker pool
runs as a sequential loop over jobs.

Modelling choices:

- The network, normalisation included, is a function `embed` inside the
  environment `Env`.
- Which feature files exist, and their width in frames, is a function
  `frames`. None means `np.load` raises.
- Embeddings are `seq<real>`, so a mean is an exact column sum divided by
  the row count.
- The similarity measure (`cosine_similarity`) and `argsort` are
  parameters.
- Whether an audio file decodes is an oracle `loads`.
- The file system is a map of files plus a set of directories. It is both
  a value (`Fs`) and a class (`FileSystem`) that the imperative
  `ParallelMel` updates in place.

Modules:

- `PyStr`: `str.replace` and `str(int)`.
- `PyPath`: `os.path.join`, `os.path.dirname`, `makedirs`, pathlib
  `name`/`stem`.
- `Vectors`: `np.mean(axis=0)`.
- `Results`: Option and the exceptions.
- `Manifest`: segments.
- `Grouping`: the nested dict.
- `Pooling` and `PoolingFacts`: the two modes.
- `SingerModel`: `build_singer_model`.
- `Retrieval`: argmax, ranking and the counts.
- `Evaluation`: `test()`.
- `FeatureCache`: `parallel_mel` and `process_damp`.

## Model

| member | source | states |
|---|---|---|
| Grouping.EmptyTable | damp_dcnn/test.py:47 | the outer dict has the 300 keys 0..299, every one None |
| Grouping.Insert | damp_dcnn/test.py:68-73 | the track's list gains the embedding at its end (a new list `[v]` on the KeyError path), a new track goes last in key order, other lists are unchanged, and a well-formed inner dict stays well-formed |
| Grouping.Add | damp_dcnn/test.py:51-52 | one grouping pass fills the segment's artist key and changes no other key |
| Grouping.GroupContents | damp_dcnn/test.py:47-73 | after the grouping loop, key `a` is None exactly when artist `a` has no segment; otherwise its tracks are in first-occurrence order and each track's list is exactly that track's segment embeddings in list order |
| Grouping.FirstPathsMembership | damp_dcnn/test.py:68-73 | a path is a track key of artist `a` exactly when the artist has a segment of it |
| Grouping.BucketNonEmpty | damp_dcnn/test.py:48-73 | artist `a` has a non-empty list for track `p` exactly when some segment has that artist and path |
| Grouping.ArtistEmbsCount | damp_dcnn/test.py:48-73 | the number of embeddings grouped under artist `a` equals the number of times `a` occurs among the segments' artist ids |
| Grouping.BucketHasDim | damp_dcnn/test.py:65-73 | grouping keeps every embedding `dim` wide |
| SingerModel.SliceRange | damp_dcnn/test.py:54-59 | a Python slice `[lo:hi]` of a `width`-frame array selects a range `lo <= hi <= width` |
| SingerModel.SliceBound | damp_dcnn/test.py:54-59 | a slice bound lands in 0..width: an in-range bound is kept, a negative bound counts from the end (`x + width`), and a bound past either end is clamped to that end |
| SingerModel.LoadWindow | damp_dcnn/test.py:54-59 | loading fails exactly when the feature file is missing, with that file named; otherwise the window lies inside the file's frames |
| SingerModel.MonoWindow | damp_dcnn/test.py:55-56 | mono layout: the window is frames `start` to `start+frameLen`, clipped to the array, and never longer than `frameLen` |
| SingerModel.MixWindow | damp_dcnn/test.py:58-59 | mix layout: the window is the first `frameLen` frames, or the whole array when it is shorter |
| SingerModel.MixFileName | damp_dcnn/test.py:58 | in the mix layout the track file `x.npy` is read as `x_<start>.npy` under the mel directory |
| SingerModel.MixFilesDistinct | damp_dcnn/test.py:58 | two segments of one track with different start frames read different files |
| SingerModel.EntryOfCases | damp_dcnn/test.py:49-65 | a segment raises KeyError for an artist id outside 0..299 before anything is loaded, then raises for a missing feature file, and otherwise yields the embedding of its window |
| SingerModel.EntriesFailure | damp_dcnn/test.py:48-73 | the loop completes exactly when every segment passes lookup and load; otherwise it raises the exception of the first failing segment |
| SingerModel.EntriesAt | damp_dcnn/test.py:48-65 | entry `i` of the completed loop is segment `i` with the embedding of its window |
| SingerModel.PrefixFails | damp_dcnn/test.py:48-73 | a segment that raises after a clean prefix makes the whole loop raise its exception |
| SingerModel.AppendSegment | damp_dcnn/test.py:68-73 | the in-place try/append, or the create-then-append on KeyError, is exactly `Insert` |
| SingerModel.GroupSegment | damp_dcnn/test.py:49-73 | one loop pass raises with the segment's exception, or adds the segment's embedding to the table as `Add` does |
| SingerModel.BuildTable | damp_dcnn/test.py:47-73 | the imperative grouping loop returns exactly the grouped table of the embedded segments, or the first exception |
| SingerModel.BuildSingerModel | damp_dcnn/test.py:47-108 | the whole function returns exactly the `SingerProfiles` specification in either mode |
| SingerModel.SingerProfilesLoadFailure | damp_dcnn/test.py:48-73 | in either mode, a failing segment makes the call raise the first failing segment's exception |
| SingerModel.SingerProfilesEmptyArtist | damp_dcnn/test.py:47-101 | once every segment loads, either mode raises exactly when some key 0..299 has no segment, naming the first such key |
| SingerModel.SingerProfilesOk | damp_dcnn/test.py:75-108 | once every segment loads, the result is the pooling of the grouped table |
| SingerModel.GalleryRowsByArtist | damp_dcnn/test.py:75-96 | gallery: exactly 300 rows, and row `a` is the mean of all of artist `a`'s segment embeddings, so the row index is the artist key; one label per segment; labels sorted and, as a multiset, the segments' artist ids |
| SingerModel.QueryRowsByTrack | damp_dcnn/test.py:97-108 | queries: one row per (artist, track) pair with segments, with no pair twice, ordered by artist key and then first occurrence; row `i` is that track's mean, label `i` its artist, and the labels are sorted |
| SingerModel.QueryKeysCoverSegments | damp_dcnn/test.py:48-105 | a query row exists for an (artist, track) pair exactly when some segment has that artist and path |
| SingerModel.EntriesIds | damp_dcnn/test.py:49 | the embedded entries carry the segments' artist ids in order |
| Pooling.FirstEmpty | damp_dcnn/test.py:78-101 | the key at which pooling raises is None, and every earlier key is filled |
| Pooling.ProfilesFail | damp_dcnn/test.py:78-101 | both modes fail exactly when some key is still None, and name the first such key |
| Pooling.ArtistSegments | damp_dcnn/test.py:79-85 | the inner loops build `artist_all_feat` as the concatenation of the artist's track lists in insertion order, and append the key once per segment |
| Pooling.PoolArtists | damp_dcnn/test.py:75-96 | the artist-mode loop returns exactly `ArtistProfiles` |
| Pooling.TrackSegments | damp_dcnn/test.py:101-105 | the inner loop appends one mean row per track in insertion order, and the key once per track |
| Pooling.PoolTracks | damp_dcnn/test.py:97-108 | the track-mode loop returns exactly `TrackProfiles` |
| Pooling.FlattenUpToHasDim | damp_dcnn/test.py:83-89 | the flattened segments of a non-empty artist are non-empty and `dim` wide, so `np.mean` is defined |
| Pooling.ArtistRowsUpTo | damp_dcnn/test.py:78-90 | one artist-mode row per key, in key order, each the artist's mean |
| Pooling.TrackRowsOf | damp_dcnn/test.py:101-104 | one row per track of an artist, in insertion order, each the track's mean |
| PoolingFacts.GroupPoolable | damp_dcnn/test.py:47-73 | the grouping loop leaves every filled key with a non-empty, well-formed dict of `dim`-wide lists |
| PoolingFacts.ArtistRowIsMean | damp_dcnn/test.py:78-90 | artist mode's row is the mean over all of the artist's segments, not over its track means |
| PoolingFacts.FlattenIsArtistEmbs | damp_dcnn/test.py:79-85 | the flattened inner dict has as many rows as the artist has segments |
| PoolingFacts.FlattenSumIsArtistSum | damp_dcnn/test.py:79-89 | the flattened inner dict has the same column sums as the artist's segment embeddings |
| PoolingFacts.ArtistLabelsSorted | damp_dcnn/test.py:81-85 | the artist-mode labels lie in 0..n-1 and are sorted |
| PoolingFacts.ArtistLabelsCount | damp_dcnn/test.py:81-85 | each key occurs in the artist-mode labels once per segment of that artist |
| PoolingFacts.ArtistLabelsMatchIds | damp_dcnn/test.py:81-85 | the artist-mode labels are the segments' artist ids, as a multiset |
| PoolingFacts.ArtistProfilesOfSegments | damp_dcnn/test.py:75-96 | artist mode over the grouped segments: 300 rows in key order, row `a` the mean of artist `a`'s embeddings, one label per segment, sorted, the segments' artist ids |
| PoolingFacts.PoolingFailsOnEmptyArtist | damp_dcnn/test.py:47-101 | both modes over the grouped segments fail exactly when some key has no segment, with the same first empty key |
| PoolingFacts.GroupAllFilled | damp_dcnn/test.py:47-73 | every key is filled exactly when every artist key 0..299 has a segment |
| PoolingFacts.GroupValidAt | damp_dcnn/test.py:47-73 | key `a` is None exactly when artist `a` has no segment, and otherwise holds a well-formed dict |
| PoolingFacts.TrackRowsMatchKeys | damp_dcnn/test.py:100-105 | track mode's rows, labels and (artist, track) keys line up: row `i` is track `keys[i]`'s mean and label `i` its artist |
| PoolingFacts.TrackKeysMembership | damp_dcnn/test.py:100-101 | track mode has a key for exactly each filled artist's tracks |
| PoolingFacts.TrackKeysDistinct | damp_dcnn/test.py:100-101 | no (artist, track) pair gets two rows |
| PoolingFacts.TrackLabelsSorted | damp_dcnn/test.py:100-105 | the track-mode labels lie in 0..n-1 and are sorted |
| PoolingFacts.TrackKeysAreSegmentTracks | damp_dcnn/test.py:47-105 | over the grouped segments, track mode visits the (artist, track) pairs by artist key and then by first occurrence |
| PoolingFacts.TrackProfilesOfSegments | damp_dcnn/test.py:97-108 | track mode over the grouped segments: one row per pair with segments, none twice, row `i` the mean of that track's embeddings, label `i` its artist, labels sorted |
| Vectors.Mean | damp_dcnn/test.py:89 | each component of `np.mean(axis=0)` times the row count is the column sum |
| Vectors.MeanBySums | damp_dcnn/test.py:88-89 | the mean depends only on the row count and the column sums, not on the order or grouping of the rows |
| Vectors.ColumnSumConcat | damp_dcnn/test.py:83 | extending the list adds the column sums |
| Retrieval.Argmax | damp_dcnn/test.py:133 | `np.argmax` is an index of a maximum, and every earlier entry is strictly smaller (the first maximum) |
| Retrieval.ArgmaxIs | damp_dcnn/test.py:133 | the argmax is `l` exactly when row `l` is a maximum and every earlier entry is smaller |
| Retrieval.Count | damp_dcnn/test.py:134 | `sum` over a boolean array is at most its length, is 0 exactly when all entries are false, and is the length exactly when all are true |
| Retrieval.CountMonotone | damp_dcnn/test.py:134-144 | more true entries, pointwise, give at least as large a count |
| Retrieval.Top1Count | damp_dcnn/test.py:134 | the top-1 count is between 0 and the number of queries |
| Retrieval.Prefix | damp_dcnn/test.py:143 | `[:k]` takes the first `min(k, len)` indices |
| Retrieval.TopKCorrect | damp_dcnn/test.py:141-144 | the counter loop returns exactly the number of top-k hits |
| Retrieval.TopKMonotone | damp_dcnn/test.py:139-144 | the top-k count never decreases as `k` grows |
| Retrieval.RankingHeadIsMax | damp_dcnn/test.py:140 | the first index of a descending `argsort` is a maximum of the row |
| Retrieval.RankingHeadIsArgmax | damp_dcnn/test.py:133-140 | when the maximum is attained once, every descending ranking starts with the argmax |
| Retrieval.StableHeadIsArgmax | damp_dcnn/test.py:133-140 | a stable descending ranking starts with the argmax, ties or not |
| Retrieval.TopKCoversTop1 | damp_dcnn/test.py:133-144 | when every ranking starts with its argmax, the top-1 count equals the top-k count at k = 1 and is at most the top-k count for any k >= 1 |
| Retrieval.TopKWholeGallery | damp_dcnn/test.py:143 | with `k` at least the gallery size, a query is a top-k hit exactly when its label is a gallery index |
| Evaluation.GalleryShape | damp_dcnn/test.py:127 | a built gallery means every artist key has segments; it has 300 rows, and row `a` is the mean of artist `a`'s embeddings |
| Evaluation.QueriesShape | damp_dcnn/test.py:128 | built queries have one label per row, each an artist key 0..299 |
| Evaluation.TestScores | damp_dcnn/test.py:127-144 | `test()` raises exactly when either build raises, the gallery's exception first; otherwise both counts lie between 0 and the number of queries |
| Evaluation.RunTest | damp_dcnn/test.py:127-144 | the imperative `test()` computes exactly `TestScores` |
| Evaluation.ArgmaxOfSimilarities | damp_dcnn/test.py:131-133 | query `i` picks gallery row `l` exactly when no row is more similar to it and every lower row is less similar |
| Evaluation.Top1HitMeaning | damp_dcnn/test.py:127-134 | comparing a row index with an artist label is sound: query `i` is a top-1 hit exactly when its own artist's row is a most-similar row and every lower artist key's row is less similar |
| Evaluation.StableTopKCoversTop1 | damp_dcnn/test.py:133-144 | with a stable `argsort`, the top-1 count is at most the top-k count |
| PyStr.ReplaceTrailing | feature_extract.py:118 | for a path `x.npy` with no other ".npy", `replace('.npy', ext)` gives `x + ext` |
| PyStr.ReplaceAbsent | feature_extract.py:118 | a path without ".npy" is left untouched by the replace |
| PyStr.Digits | damp_dcnn/test.py:58 | `str(n)` for `n >= 0` is a non-empty run of decimal digits with no leading zero |
| PyStr.IntToString | damp_dcnn/test.py:58 | `str(n)` is non-empty and starts with '-' exactly when `n` is negative |
| PyStr.IntToStringRoundTrip | damp_dcnn/test.py:58 | `int(str(n)) == n` |
| PyStr.IntToStringInjective | damp_dcnn/test.py:58 | different start frames give different decimal strings |
| PyPath.Join | feature_extract.py:13 | `os.path.join(a, b)` ends with `b` when `b` is relative |
| PyPath.Dirname | feature_extract.py:15 | `os.path.dirname` is empty exactly when the path has no '/', and is shorter than a path not ending in '/' |
| PyPath.AfterLastSlash | feature_extract.py:15 | the part after the last '/' is a slash-free suffix, preceded by a '/' when shorter than the path |
| PyPath.StripTrailingSlashes | feature_extract.py:15 | `rstrip('/')` leaves a prefix that does not end in '/', followed only by slashes |
| PyPath.Stem | feature_extract.py:13 | the stem of a path has no '/' |
| PyPath.LastDot | feature_extract.py:13 | `rfind('.')` is -1 or a dot's index, with no dot after it |
| PyPath.DirChain | feature_extract.py:16 | `makedirs(d)` leaves `d` and ancestors no longer than `d` |
| PyPath.DirChainClosed | feature_extract.py:16 | every directory `makedirs` creates for an ancestor of `d` it also creates for `d` |
| PyPath.JoinDirnameEmpty | feature_extract.py:13-16 | the directory of `join(d, name)` is empty exactly when `d` is |
| PyPath.JoinInjective | damp_dcnn/test.py:58 | joining one directory with two relative names gives the same path only for the same name |
| FeatureCache.CachePath | feature_extract.py:13 | the cache file ends in ".npy", and its directory part is shorter than it and empty exactly when `save_dir` is |
| FeatureCache.SaveName | feature_extract.py:13 | `stem + '.npy'` is one path component ending in ".npy" |
| FeatureCache.CacheNotInParentChain | feature_extract.py:13-16 | the cache file is never one of the directories `makedirs` creates |
| FeatureCache.CacheChain | feature_extract.py:13-16 | with a save directory, the cache file's ancestors are its parent and the parent's ancestors |
| FeatureCache.Extract | feature_extract.py:12-35 | exactly one of five outcomes, each characterised both ways: makedirs raises (empty parent, or a missing parent below a file); already cached; load failed; `np.save` raises (the parent exists as a file); saved. Only a save adds a file, and only the cache file. A call that raises changes nothing; after every call that returns, the parent exists. Directories only grow, and only by the parent's chain |
| FeatureCache.ExtractIdempotent | feature_extract.py:18-20 | a second call on the same input changes nothing, and reports a just-saved file as already cached |
| FeatureCache.ExtractConsistent | feature_extract.py:15-35 | on a real file system (ancestors of a directory are directories, no path is both, a file sits in a directory) a call leaves a real file system |
| FeatureCache.NewFileIsCache | feature_extract.py:22-35 | a call never rewrites a file; a new file is the cache file holding the audio's spectrogram, and only when the audio decodes |
| FeatureCache.ExtractSettles | feature_extract.py:15-35 | right after a call, a re-run of it would change nothing, and a call that raised would raise again |
| FeatureCache.ExtractRaises | feature_extract.py:15-35 | a call raises exactly when the state it starts from blocks `makedirs` or `np.save` for a decoding audio without a cache file |
| FeatureCache.SettledIsNoOp | feature_extract.py:15-20 | a call whose parent exists and whose cache exists or cannot be made, or whose `makedirs` fails, changes nothing |
| FeatureCache.ExtractGrows | feature_extract.py:15-35 | a call only adds directories and files, and keeps existing contents |
| FeatureCache.MakedirsFailsPersists | feature_extract.py:15-16 | on a real file system that only grows, a `makedirs` that raised still raises |
| FeatureCache.SettledPersists | feature_extract.py:15-35 | a settled job stays settled while a real file system grows |
| FeatureCache.RaisesPersists | feature_extract.py:15-35 | a job that raises still raises while a real file system grows |
| FeatureCache.FileSystem.MakeDirs | feature_extract.py:16 | `makedirs(d, exist_ok=True)` adds `d`'s chain, and raises, changing nothing, for the empty path or when a file sits at `d` or at an ancestor |
| FeatureCache.FileSystem.Save | feature_extract.py:35 | `np.save` sets exactly the one file, and raises, changing nothing, unless the parent is a directory |
| FeatureCache.ParallelMel | feature_extract.py:12-35 | the step-by-step `parallel_mel` on the file system object leaves exactly the state and outcome of `Extract` |
| FeatureCache.ChunkSize | feature_extract.py:131-132 | the chunk size `starmap` picks is ceil(n / (4 * N_WORKERS)), zero exactly for no jobs |
| FeatureCache.RunAll | feature_extract.py:131-132 | one outcome per job |
| FeatureCache.RunAllSkipRule | feature_extract.py:131-132 | a job is skipped exactly when the job before it is in the same chunk and raised or was skipped |
| FeatureCache.ChunkPrevious | feature_extract.py:131-132 | a job that does not start a chunk shares the chunk start of the job before it |
| FeatureCache.DivModUnique | feature_extract.py:131-132 | quotient and remainder by the chunk size are unique, which places each job in one chunk |
| FeatureCache.SkippedAfterRaise | feature_extract.py:131-132 | under the skip rule, a job is skipped exactly when an earlier job of its own chunk raised |
| FeatureCache.RunAllSkipped | feature_extract.py:131-132 | in a run, a job is skipped exactly when an earlier job of its own chunk raised: a raise cuts short its own chunk and no other |
| FeatureCache.RunAllLoadFailed | feature_extract.py:22-27 | a run reports a failed load only for audio that does not decode |
| FeatureCache.RunJob | feature_extract.py:131-132 | one job of a task on the file system object: it runs `parallel_mel` unless its chunk already stopped, extending the state and outcomes exactly as `RunAll` does one job further, and reports whether the chunk stops |
| FeatureCache.RunPool | feature_extract.py:131-132 | the pool's chunks taken one after another, each stopping at its first raise, leave exactly the state and outcomes of `RunAll` with `starmap`'s chunk size |
| FeatureCache.RunAllGrows | feature_extract.py:131-132 | a batch only adds directories and files, and keeps existing contents |
| FeatureCache.RunAllConsistent | feature_extract.py:131-132 | a batch on a real file system leaves a real file system |
| FeatureCache.RunAllSettles | feature_extract.py:131-132 | after a batch on a real file system, every job that ran would be a no-op when re-run, and every job that raised would raise again |
| FeatureCache.RunAllSettledIsNoOp | feature_extract.py:131-132 | a batch of settled jobs changes nothing |
| FeatureCache.RerunIsNoOp | feature_extract.py:131-132 | re-running a batch over its own settled result changes nothing, and every chunk that stopped stops again at the same job or earlier |
| FeatureCache.RunAllIdempotent | feature_extract.py:131-132 | running the same batch a second time, after a first run that completed, on a real file system leaves the state of running it once |
| FeatureCache.RunAllNewFiles | feature_extract.py:131-132 | every file a batch adds is the cache file of one of its jobs whose audio decodes, holding that spectrogram |
| FeatureCache.RunAllKeepsCaches | feature_extract.py:131-132 | every job that found or saved its cache file still has it after the batch |
| FeatureCache.RunAllOutcome | feature_extract.py:12-35 | after a batch nothing is lost; every job that found or saved its cache file has it; every new file is a decoding job's cache file; a failed load means undecodable audio; without a raise, no job is skipped |
| FeatureCache.UnitOf | feature_extract.py:117-119 | a work unit carries the given audio directory, mel directory and extension |
| FeatureCache.UnitOfNpyPath | feature_extract.py:118 | for a segment path `name.npy`, the unit's audio path is `name + ext` |
| FeatureCache.UnitsOfSize | feature_extract.py:115-125 | a list of n segments calls for at most n distinct units |
| FeatureCache.SetToList | feature_extract.py:124 | `list(set)` holds each element of the set exactly once |
| FeatureCache.DedupUnits | feature_extract.py:115-125 | the work list holds each distinct unit once; a unit is in it exactly when some train or valid segment calls for it; it is no longer than the two lists together |

## Left out

- Audio decoding, the STFT, the mel filterbank, `log10(1+10x)` and the float32 cast (feature_extract.py:23-33). They are floating-point numerics. A saved file holds an abstract `LogMel(audio)` value.
- Feature normalisation (damp_dcnn/test.py:61-64), the Keras model and `K.function` (damp_dcnn/test.py:44-45, 65, 123). They are foreign calls, folded into the function `embed`.
- Float arithmetic in `np.mean`: the model uses exact reals.
- Evaluation.Similarities: `cosine_similarity` (damp_dcnn/test.py:131) is a foreign float routine. It is a parameter `sim`, applied to every (query, gallery row) pair. The function carries no contract of its own; what a row of it means for the argmax is proved in `Evaluation.ArgmaxOfSimilarities`.
- Evaluation.Ranks: numpy's default `argsort` is not stable and leaves the order of equal similarities unspecified. `argsort` is therefore a parameter, applied to each row; the function carries no contract of its own. Top-1 <= top-k is proved for any ranking whose head is the argmax (`Retrieval.TopKCoversTop1`) and for stable rankings (`Evaluation.StableTopKCoversTop1`), not for an arbitrary tie order.
- Retrieval.Argmax: `np.argmax` of an empty row raises. The model requires a non-empty gallery, which a successful gallery build always gives (300 rows).
- The accuracy divisions and the printing (damp_dcnn/test.py:120, 124, 135-136, 146). They are output only.
- `count_tracks` and the `track_answer = []` store in artist mode (damp_dcnn/test.py:80, 86, 92). They are never read.
- Loading the segment lists and artist lists (damp_dcnn/test.py:117-119, feature_extract.py:107-113). This is I/O. The segment lists are inputs.
- `multiprocessing.Pool` and `starmap` (feature_extract.py:131-132, 148-149): the jobs are cut into chunks of ceil(n / (4 * N_WORKERS)) consecutive jobs, and a chunk stops at its first raise, so the rest of that chunk is `Skipped` while the other chunks run. The chunks are taken one after another. In the program they run concurrently; `starmap` re-raises in the parent as soon as a failed chunk's result arrives, and leaving the `with Pool` block terminates the workers, so chunks still running may be cut short at any point and chunks not yet started never run. That timing, the concurrency and the re-raise are not modelled.
- FeatureCache.FileSystem.Save: `np.save` is modelled as atomic: the cache file appears whole or not at all. The program opens the file and then writes it, so a worker killed mid-write or a write error leaves a truncated `.npy`, which every later run reports as already cached and skips. Partial writes are not modelled, so `FeatureCache.RunAllIdempotent` speaks only of a re-run after a completed batch, not of a restart after an interrupted one.
- FeatureCache.RunAllSettles: it requires a real file-system snapshot (`Consistent`: a directory's ancestors are directories, no path is both a file and a directory, a file sits in a directory). On an arbitrary map of files and directories a file could sit below a file, and a re-run could then behave differently.
- FeatureCache.RunAllIdempotent: it requires the same real file-system snapshot, for the same reason.
- FeatureCache.SetToList: the iteration order of a Python `set` is not modelled. The list order is any order.
- The glue between `process_damp` and `parallel_mel`: 4-tuples passed to the 2-parameter function, and `.stem` taken on a `str` (feature_extract.py:12, 131, 53). Both would fail at run time, so `parallel_mel` is modelled with its own two-argument contract on a path string. The unit list is modelled separately.
- `os.makedirs(mel_dir)` in `process_damp` (feature_extract.py:128-129). It only creates a directory before the pool runs.
- `process_msd_singer` (feature_extract.py:39-98). It is broken at run time, with a four-argument `append`.
- Mean and standard-deviation statistics (feature_extract.py:91-98). They are float arithmetic inside that broken function.
- File-system path normalisation, symbolic links, permissions and races between workers.
- PoolingFacts.FlattenIsArtistEmbs: it states that the flattened dict and the artist's segment list agree in row count and column sums, which is all the mean needs. It does not state that they are equal as sequences.
- SingerModel.FixedDim: the network's output width is assumed fixed (`dim`) for every window, as the Keras model's output layer guarantees.
