/**
 * The values the dataset builder receives from the BrainFlow library: recordings read by
 * `DataFilter.read_file`, the board description answered by `BoardShim`, and the band-power
 * reduction `DataFilter.get_avg_band_powers`. The library itself is not part of this model;
 * its calls appear as data and as function parameters, and a call that raises is `None`.
 */
module Brainflow {
  import opened Wrappers

  /** Sampling rate in Hz of a board BrainFlow knows; always positive. */
  type SampleRate = r: int | r > 0 witness 1

  /** One feature vector: the average power of the five bands delta, theta, alpha, beta, gamma. */
  type Features = v: seq<real> | |v| == 5 witness [0.0, 0.0, 0.0, 0.0, 0.0]

  /** A two-dimensional sample array, one row per board channel, `samples` columns. */
  datatype Matrix = Matrix(samples: nat, rows: seq<seq<real>>)
  {
    predicate Rectangular()
    {
      forall r :: 0 <= r < |rows| ==> |rows[r]| == samples
    }
  }

  /** A recording as `DataFilter.read_file` returns it; `samples` is `data.shape[1]`. */
  type Recording = m: Matrix | m.Rectangular() witness Matrix(0, [])

  /** The half-open column range [start, start + length) of a recording. */
  datatype Window = Window(start: nat, length: nat)

  /** Every window of `ws` lies within the first `n` columns. */
  predicate InBounds(ws: seq<Window>, n: nat)
  {
    forall i :: 0 <= i < |ws| ==> ws[i].start + ws[i].length <= n
  }

  /** `data[:, start:start + length]`: every channel, the window's columns only. */
  function Slice(rec: Recording, w: Window): (s: seq<seq<real>>)
    requires w.start + w.length <= rec.samples
    ensures |s| == |rec.rows|
    ensures forall r :: 0 <= r < |s| ==> |s[r]| == w.length
  {
    seq(|rec.rows|, r requires 0 <= r < |rec.rows| => rec.rows[r][w.start..w.start + w.length])
  }

  /**
   * `DataFilter.get_avg_band_powers(window, eeg_channels, sampling_rate, True)[0]`: the average
   * band powers of a window over the given channels, or `None` when the library raises.
   */
  type Reducer = (seq<seq<real>>, seq<int>, SampleRate) -> Option<Features>

  /**
   * What `BoardShim` answers for one board id: `get_sampling_rate`, `get_eeg_channels` and
   * `get_eeg_names`, each `None` when that query raises.
   */
  datatype BoardInfo = BoardInfo(
    samplingRate: Option<SampleRate>,
    eegChannels: Option<seq<int>>,
    eegNames: Option<seq<string>>)

  type BoardShim = int -> BoardInfo

  /** One entry of a class directory: a file `read_file` can parse, or one it raises on. */
  datatype FileEntry = Readable(rec: Recording) | Unreadable
}
