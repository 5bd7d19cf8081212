/** The segment descriptors read from the dataset manifests. */
module Manifest {

  /** One labelled window of a cached spectrogram: the singer, the cache file
      of the track (relative to the mel directory) and the first frame. */
  datatype Segment = Segment(artist: int, path: string, start: int)
}
