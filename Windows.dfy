/**
 * Window arithmetic of the dataset builder. Each recording is cut in seven passes; pass `p`
 * uses window size `WindowSizesTenths[p] / 10` seconds and advances by the fraction
 * `OverlapsThousandths[p] / 1000` of that size. Seconds and fractions are kept as exact
 * integers so that `int(window_size * sampling_rate)` is `(tenths * sr) / 10` and
 * `int(window_size * overlap * sampling_rate)` is `(tenths * thousandths * sr) / 10000`.
 */
module Windows {
  import opened Brainflow

  const WindowSizesTenths: seq<nat> := [40, 50, 60, 70, 80, 90, 100]
  const OverlapsThousandths: seq<nat> := [500, 475, 450, 425, 400, 375, 350]
  const PassCount: nat := 7

  /** `int(window_size * sampling_rate)`: every window size is a whole number of seconds. */
  function WindowLength(pass: nat, sr: SampleRate): (wl: nat)
    requires pass < PassCount
    ensures wl == (pass + 4) * sr
  {
    WindowSizesTenths[pass] * sr / 10
  }

  /**
   * `int(window_size * overlaps[pass] * sampling_rate)`: successive windows of a pass start at
   * least two seconds apart, and each overlaps the next by at least half its length.
   */
  function Step(pass: nat, sr: SampleRate): (step: nat)
    requires pass < PassCount
    ensures 2 * sr <= step
    ensures 2 * step <= WindowLength(pass, sr)
  {
    WindowSizesTenths[pass] * OverlapsThousandths[pass] * sr / 10000
  }

  /** How many `k >= 0` satisfy `k * step + wl < n`, in closed form. */
  function WindowCount(n: nat, wl: nat, step: nat): nat
    requires step >= 1
  {
    if wl < n then (n - wl - 1) / step + 1 else 0
  }

  lemma MulMonotone(a: nat, b: nat, c: nat)
    requires a <= b
    ensures a * c <= b * c
  {
  }

  /** The pass loop admits start `k * step` exactly when `k` is below the closed-form count. */
  lemma WindowCountExact(n: nat, wl: nat, step: nat, k: nat)
    requires step >= 1
    ensures k < WindowCount(n, wl, step) <==> k * step + wl < n
  {
    if wl < n {
      var q := (n - wl - 1) / step;
      assert q * step <= n - wl - 1 < (q + 1) * step;
      if k <= q {
        MulMonotone(k, q, step);
      } else {
        MulMonotone(q + 1, k, step);
      }
    }
  }

  /** Windows of length `wl` starting at `0, step, 2*step, ...` while they end before `n`. */
  function Progression(n: nat, wl: nat, step: nat): (ws: seq<Window>)
    requires step >= 1
    ensures |ws| > 0 <==> wl < n
    ensures forall k :: 0 <= k < |ws| ==> ws[k] == Window(k * step, wl)
    ensures forall k :: 0 <= k < |ws| ==> ws[k].start + wl < n
  {
    var ws := seq(WindowCount(n, wl, step), k requires 0 <= k => Window(k * step, wl));
    assert |ws| > 0 <==> wl < n by {
      WindowCountExact(n, wl, step, 0);
    }
    assert forall k :: 0 <= k < |ws| ==> ws[k].start + wl < n by {
      forall k | 0 <= k < |ws| ensures ws[k].start + wl < n {
        WindowCountExact(n, wl, step, k);
      }
    }
    ws
  }

  lemma ProgressionIncreasing(n: nat, wl: nat, step: nat, i: nat, j: nat)
    requires step >= 1
    requires i < j < |Progression(n, wl, step)|
    ensures Progression(n, wl, step)[i].start < Progression(n, wl, step)[j].start
  {
    MulMonotone(i + 1, j, step);
  }

  /**
   * The windows of one pass over a recording of `n` samples: starts `0, step, 2*step, ...`
   * for as long as the window ends strictly before `n`.
   */
  function PassWindows(n: nat, pass: nat, sr: SampleRate): (ws: seq<Window>)
    requires pass < PassCount
    ensures |ws| > 0 <==> WindowLength(pass, sr) < n
    ensures forall k :: 0 <= k < |ws| ==> ws[k].start + ws[k].length < n
    ensures InBounds(ws, n)
    ensures forall k :: 0 <= k < |ws| ==> ws[k].length == WindowLength(pass, sr)
    ensures forall i, j :: 0 <= i < j < |ws| ==> ws[i].start < ws[j].start
    ensures forall k: nat :: k * Step(pass, sr) + WindowLength(pass, sr) < n ==> k < |ws| && ws[k].start == k * Step(pass, sr)
  {
    var wl, step := WindowLength(pass, sr), Step(pass, sr);
    var ws := Progression(n, wl, step);
    forall k: nat | k * step + wl < n ensures k < |ws| {
      WindowCountExact(n, wl, step, k);
    }
    assert forall i, j :: 0 <= i < j < |ws| ==> ws[i].start < ws[j].start by {
      forall i: nat, j: nat | i < j < |ws| ensures ws[i].start < ws[j].start {
        ProgressionIncreasing(n, wl, step, i, j);
      }
    }
    ws
  }

  /** The windows of passes `0 .. m - 1`, in pass order. */
  function PassesBefore(n: nat, sr: SampleRate, m: nat): (ws: seq<Window>)
    requires m <= PassCount
    ensures forall k :: 0 <= k < |ws| ==> ws[k].start + ws[k].length < n
    ensures InBounds(ws, n)
    ensures forall k :: 0 <= k < |ws| ==> WindowLength(0, sr) <= ws[k].length
    decreases m
  {
    if m == 0 then [] else PassesBefore(n, sr, m - 1) + PassWindows(n, m - 1, sr)
  }

  /** Every window the seven passes visit in a recording of `n` samples, in visiting order. */
  function FileWindows(n: nat, sr: SampleRate): (ws: seq<Window>)
    ensures InBounds(ws, n)
  {
    PassesBefore(n, sr, PassCount)
  }

  /** Passes `0 .. m - 1` are a prefix of all seven passes. */
  lemma {:induction false} PassesBeforePrefix(n: nat, sr: SampleRate, m: nat)
    requires m <= PassCount
    ensures PassesBefore(n, sr, m) <= FileWindows(n, sr)
    decreases PassCount - m
  {
    if m < PassCount {
      PassesBeforePrefix(n, sr, m + 1);
    }
  }

  /** Pass `m` follows the passes before it, and together they are a prefix of the file's windows. */
  lemma PassFollowsEarlierPasses(n: nat, sr: SampleRate, m: nat)
    requires m < PassCount
    ensures PassesBefore(n, sr, m + 1) == PassesBefore(n, sr, m) + PassWindows(n, m, sr)
    ensures PassesBefore(n, sr, m) + PassWindows(n, m, sr) <= FileWindows(n, sr)
  {
    PassesBeforePrefix(n, sr, m + 1);
  }

  /**
   * A recording no longer than the shortest window, `int(4.0 * sampling_rate)` samples,
   * yields no window in any pass.
   */
  lemma {:induction false} ShortRecordingHasNoWindows(n: nat, sr: SampleRate, m: nat)
    requires m <= PassCount
    requires n <= WindowLength(0, sr)
    ensures PassesBefore(n, sr, m) == []
    decreases m
  {
    if m > 0 {
      ShortRecordingHasNoWindows(n, sr, m - 1);
      assert |PassWindows(n, m - 1, sr)| == 0;
    }
  }

  /**
   * Ten seconds at 250 Hz, first pass (4.0 s, overlap 0.5): windows start at 0, 500 and 1000;
   * the window at 1500 would end exactly at sample 2500 and is not taken.
   */
  lemma TenSecondsAt250Hz()
    ensures PassWindows(2500, 0, 250) == [Window(0, 1000), Window(500, 1000), Window(1000, 1000)]
  {
    assert WindowLength(0, 250) == 1000;
    assert Step(0, 250) == 500;
    assert WindowCount(2500, 1000, 500) == 3;
  }
}
