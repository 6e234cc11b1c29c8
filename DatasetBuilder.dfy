/**
 * The dataset builder `prepare_data`: every recording of the two class directories is cut into
 * the windows of seven passes, each window is reduced to a band-power feature vector, and the
 * vectors go to `dataset_x` with their class label (0 for the first class, 1 otherwise) at the
 * same index of `dataset_y`. A failure inside one file abandons the rest of that file, keeps
 * what it already appended, and moves on to the next file.
 */
module DatasetBuilder {
  import opened Wrappers
  import opened Seqs
  import opened Brainflow
  import opened Windows
  import opened EegChannels

  /** One dataset entry: a feature vector and its label. */
  datatype Sample = Sample(features: Features, classLabel: int)

  /** The two parallel lists `prepare_data` returns. */
  datatype Dataset = Dataset(x: seq<Features>, y: seq<int>)

  /**
   * The feature vectors of windows `ws` of `rec`, up to and excluding the first window whose
   * reduction fails: the windows a file contributes before an exception ends it.
   */
  function Harvest(rec: Recording, ws: seq<Window>, chans: seq<int>, sr: SampleRate, reduce: Reducer): (fs: seq<Features>)
    requires InBounds(ws, rec.samples)
    ensures |fs| <= |ws|
    decreases |ws|
  {
    if ws == [] then []
    else match reduce(Slice(rec, ws[0]), chans, sr)
      case None => []
      case Some(v) => [v] + Harvest(rec, ws[1..], chans, sr, reduce)
  }

  /**
   * The harvest is exactly the reductions of the leading windows that succeed: window `i` of
   * the harvest is the reduction of window `i`, and the first window left out failed.
   */
  lemma {:induction false} HarvestStopsAtFirstFailure(rec: Recording, ws: seq<Window>, chans: seq<int>, sr: SampleRate, reduce: Reducer)
    requires InBounds(ws, rec.samples)
    ensures forall i :: 0 <= i < |Harvest(rec, ws, chans, sr, reduce)| ==>
      reduce(Slice(rec, ws[i]), chans, sr) == Some(Harvest(rec, ws, chans, sr, reduce)[i])
    ensures |Harvest(rec, ws, chans, sr, reduce)| < |ws| ==>
      reduce(Slice(rec, ws[|Harvest(rec, ws, chans, sr, reduce)|]), chans, sr).None?
    decreases |ws|
  {
    if ws != [] && reduce(Slice(rec, ws[0]), chans, sr).Some? {
      var fs := Harvest(rec, ws, chans, sr, reduce);
      HarvestStopsAtFirstFailure(rec, ws[1..], chans, sr, reduce);
      forall i | 1 <= i < |fs|
        ensures reduce(Slice(rec, ws[i]), chans, sr) == Some(fs[i])
      {
        assert ws[i] == ws[1..][i - 1];
      }
    }
  }

  /** Harvesting a concatenation goes on into the second part only if the first part completed. */
  lemma {:induction false} HarvestAppend(rec: Recording, a: seq<Window>, b: seq<Window>, chans: seq<int>, sr: SampleRate, reduce: Reducer)
    requires InBounds(a, rec.samples) && InBounds(b, rec.samples)
    ensures InBounds(a + b, rec.samples)
    ensures Harvest(rec, a + b, chans, sr, reduce)
         == if |Harvest(rec, a, chans, sr, reduce)| == |a|
            then Harvest(rec, a, chans, sr, reduce) + Harvest(rec, b, chans, sr, reduce)
            else Harvest(rec, a, chans, sr, reduce)
    decreases |a|
  {
    if a != [] {
      assert (a + b)[0] == a[0];
      assert (a + b)[1..] == a[1..] + b;
      HarvestAppend(rec, a[1..], b, chans, sr, reduce);
    } else {
      assert a + b == b;
    }
  }

  function Labelled(fs: seq<Features>, classLabel: int): (s: seq<Sample>)
  {
    seq(|fs|, i requires 0 <= i < |fs| => Sample(fs[i], classLabel))
  }

  /** The label of a directory's windows: `0 if data_type == first_class else 1` (train_classifiers.py:74-77). */
  function LabelOf(dataType: string, firstClass: string): (classLabel: int)
    ensures classLabel == 0 || classLabel == 1
    ensures classLabel == 0 <==> dataType == firstClass
  {
    if dataType == firstClass then 0 else 1
  }

  /**
   * What one file contributes: nothing when `int(board_id)`, `read_file`, `get_sampling_rate`
   * or `get_eeg_channels` raises, otherwise its windows up to the first failing reduction.
   */
  function FileSamples(entry: FileEntry, boardId: Option<int>, shim: BoardShim, blacklisted: Option<set<string>>,
                       reduce: Reducer, classLabel: int): (s: seq<Sample>)
    ensures boardId.None? || entry.Unreadable? ==> s == []
    ensures boardId.Some? && (shim(boardId.value).samplingRate.None? || shim(boardId.value).eegChannels.None?) ==> s == []
    ensures boardId.Some? && entry.Readable? && shim(boardId.value).samplingRate.Some? ==>
      |s| <= |FileWindows(entry.rec.samples, shim(boardId.value).samplingRate.value)|
    ensures forall i :: 0 <= i < |s| ==> s[i].classLabel == classLabel
  {
    if boardId.None? || entry.Unreadable? then []
    else
      var info := shim(boardId.value);
      if info.samplingRate.None? || info.eegChannels.None? then []
      else
        var sr := info.samplingRate.value;
        var chans := SelectedChannels(info.eegChannels.value, info.eegNames, blacklisted);
        Labelled(Harvest(entry.rec, FileWindows(entry.rec.samples, sr), chans, sr, reduce), classLabel)
  }

  /** The samples of a directory's files, in listing order. */
  function ClassSamples(files: seq<FileEntry>, boardId: Option<int>, shim: BoardShim, blacklisted: Option<set<string>>,
                        reduce: Reducer, classLabel: int): seq<Sample>
    decreases |files|
  {
    if files == [] then []
    else
      ClassSamples(files[..|files| - 1], boardId, shim, blacklisted, reduce, classLabel)
      + FileSamples(files[|files| - 1], boardId, shim, blacklisted, reduce, classLabel)
  }

  /** The samples of the class directories `classes`, in order; `firstClass` gets label 0. */
  function ClassesSamples(classes: seq<string>, firstClass: string, dirs: map<string, seq<FileEntry>>,
                          boardId: Option<int>, shim: BoardShim, blacklisted: Option<set<string>>, reduce: Reducer): seq<Sample>
    requires forall c :: c in classes ==> c in dirs
    decreases |classes|
  {
    if classes == [] then []
    else
      var last := classes[|classes| - 1];
      ClassesSamples(classes[..|classes| - 1], firstClass, dirs, boardId, shim, blacklisted, reduce)
      + ClassSamples(dirs[last], boardId, shim, blacklisted, reduce, LabelOf(last, firstClass))
  }

  /**
   * The whole dataset `prepare_data` builds, or `None` when listing a class directory raises
   * (outside the per-file handler, so nothing is returned).
   */
  function PreparedSamples(firstClass: string, secondClass: string, dirs: map<string, seq<FileEntry>>,
                           boardId: Option<int>, shim: BoardShim, blacklisted: Option<set<string>>, reduce: Reducer): Option<seq<Sample>>
  {
    if firstClass in dirs && secondClass in dirs
    then Some(ClassesSamples([firstClass, secondClass], firstClass, dirs, boardId, shim, blacklisted, reduce))
    else None
  }

  /** `x[i]` and `y[i]` are the feature vector and the label of sample `i`. */
  predicate Aligned(x: seq<Features>, y: seq<int>, s: seq<Sample>)
  {
    |x| == |s| && |y| == |s| && forall i :: 0 <= i < |s| ==> x[i] == s[i].features && y[i] == s[i].classLabel
  }

  /** A further window that reduces keeps a complete harvest complete; one that fails ends it. */
  lemma HarvestExtend(rec: Recording, a: seq<Window>, w: Window, chans: seq<int>, sr: SampleRate, reduce: Reducer)
    requires InBounds(a, rec.samples) && w.start + w.length <= rec.samples
    requires |Harvest(rec, a, chans, sr, reduce)| == |a|
    ensures InBounds(a + [w], rec.samples)
    ensures reduce(Slice(rec, w), chans, sr).Some? ==>
      Harvest(rec, a + [w], chans, sr, reduce) == Harvest(rec, a, chans, sr, reduce) + [reduce(Slice(rec, w), chans, sr).value]
    ensures reduce(Slice(rec, w), chans, sr).None? ==>
      Harvest(rec, a + [w], chans, sr, reduce) == Harvest(rec, a, chans, sr, reduce)
  {
    HarvestAppend(rec, a, [w], chans, sr, reduce);
  }

  /** Once the harvest of a prefix stopped short, no later window adds anything. */
  lemma HarvestStopped(rec: Recording, a: seq<Window>, b: seq<Window>, chans: seq<int>, sr: SampleRate, reduce: Reducer)
    requires a <= b && InBounds(b, rec.samples)
    requires |Harvest(rec, a, chans, sr, reduce)| < |a|
    ensures Harvest(rec, b, chans, sr, reduce) == Harvest(rec, a, chans, sr, reduce)
  {
    var rest := b[|a|..];
    assert b == a + rest;
    assert InBounds(rest, rec.samples) by {
      forall i | 0 <= i < |rest| ensures rest[i].start + rest[i].length <= rec.samples {
        assert rest[i] == b[|a| + i];
      }
    }
    HarvestAppend(rec, a, rest, chans, sr, reduce);
  }

  /** `y` is `y0` followed by copies of `classLabel` only. */
  predicate LabelRun(y0: seq<int>, y: seq<int>, classLabel: int)
  {
    y0 <= y && forall i :: |y0| <= i < |y| ==> y[i] == classLabel
  }

  lemma LabelRunTransitive(y0: seq<int>, y1: seq<int>, y2: seq<int>, classLabel: int)
    requires LabelRun(y0, y1, classLabel) && LabelRun(y1, y2, classLabel)
    ensures LabelRun(y0, y2, classLabel)
  {
    assert y0 <= y2 by {
      assert y2[..|y0|] == y1[..|y1|][..|y0|];
    }
  }

  lemma NextMultiple(k: nat, step: nat)
    ensures (k + 1) * step == k * step + step
  {
  }

  /**
   * One pass of the `while` loop of `prepare_data`: from position 0, while a window of `wl`
   * samples ends before the last sample, reduce it, append the vector to `x` and the label to
   * `y`, and advance by `step`. `completed` is false when a reduction raised; the windows
   * appended before it stay.
   */
  method ExtractPass(x0: seq<Features>, y0: seq<int>, rec: Recording, chans: seq<int>, sr: SampleRate,
                     reduce: Reducer, classLabel: int, num: nat)
    returns (x: seq<Features>, y: seq<int>, completed: bool)
    requires num < PassCount
    ensures x == x0 + Harvest(rec, PassWindows(rec.samples, num, sr), chans, sr, reduce)
    ensures LabelRun(y0, y, classLabel) && |y| - |y0| == |x| - |x0|
    ensures completed <==> |x| - |x0| == |PassWindows(rec.samples, num, sr)|
  {
    x, y := x0, y0;
    var n := rec.samples;
    ghost var pass := PassWindows(n, num, sr);
    var wl := WindowLength(num, sr);
    var step := Step(num, sr);
    var curPos := 0;
    ghost var k := 0;
    assert pass[..0] == [];
    while curPos + wl < n
      invariant k <= |pass| && curPos == k * step
      invariant x == x0 + Harvest(rec, pass[..k], chans, sr, reduce)
      invariant |x| - |x0| == k
      invariant LabelRun(y0, y, classLabel) && |y| - |y0| == k
      decreases |pass| - k
    {
      WindowCountExact(n, wl, step, k);
      assert pass[k] == Window(curPos, wl);
      assert pass[..k + 1] == pass[..k] + [pass[k]];
      HarvestExtend(rec, pass[..k], pass[k], chans, sr, reduce);
      var bands := reduce(Slice(rec, Window(curPos, wl)), chans, sr);
      if bands.None? {
        // the exception leaves the file: the windows already appended stay
        HarvestStopped(rec, pass[..k + 1], pass, chans, sr, reduce);
        return x, y, false;
      }
      x := x + [bands.value];
      y := y + [classLabel];
      NextMultiple(k, step);
      curPos := curPos + step;
      k := k + 1;
    }
    WindowCountExact(n, wl, step, k);
    assert pass[..k] == pass;
    completed := true;
  }

  /**
   * `x` held the complete harvest of windows `a` and then received the complete harvest of
   * windows `b`: it now holds the complete harvest of `a + b`.
   */
  lemma HarvestNext(x0: seq<Features>, xBefore: seq<Features>, x: seq<Features>, rec: Recording,
                    a: seq<Window>, b: seq<Window>, chans: seq<int>, sr: SampleRate, reduce: Reducer)
    requires InBounds(a, rec.samples) && InBounds(b, rec.samples)
    requires xBefore == x0 + Harvest(rec, a, chans, sr, reduce) && |xBefore| - |x0| == |a|
    requires x == xBefore + Harvest(rec, b, chans, sr, reduce) && |x| - |xBefore| == |b|
    ensures InBounds(a + b, rec.samples)
    ensures x == x0 + Harvest(rec, a + b, chans, sr, reduce) && |x| - |x0| == |a + b|
  {
    HarvestAppend(rec, a, b, chans, sr, reduce);
    AppendAssociative(x0, Harvest(rec, a, chans, sr, reduce), Harvest(rec, b, chans, sr, reduce));
  }

  /**
   * `x` held the complete harvest of windows `a` and then received the harvest of windows `b`,
   * which stopped short: it holds the harvest of every window list that starts with `a + b`.
   */
  lemma HarvestInterrupted(x0: seq<Features>, xBefore: seq<Features>, x: seq<Features>, rec: Recording,
                           a: seq<Window>, b: seq<Window>, all: seq<Window>, chans: seq<int>, sr: SampleRate, reduce: Reducer)
    requires InBounds(a, rec.samples) && InBounds(b, rec.samples) && InBounds(all, rec.samples) && a + b <= all
    requires xBefore == x0 + Harvest(rec, a, chans, sr, reduce) && |xBefore| - |x0| == |a|
    requires x == xBefore + Harvest(rec, b, chans, sr, reduce) && |Harvest(rec, b, chans, sr, reduce)| < |b|
    ensures x == x0 + Harvest(rec, all, chans, sr, reduce)
  {
    HarvestAppend(rec, a, b, chans, sr, reduce);
    HarvestStopped(rec, a + b, all, chans, sr, reduce);
    AppendAssociative(x0, Harvest(rec, a, chans, sr, reduce), Harvest(rec, b, chans, sr, reduce));
  }

  /** After pass `num` of a file completed, `x` holds the harvest of one more pass. */
  lemma PassCompleted(x0: seq<Features>, xBefore: seq<Features>, x: seq<Features>, rec: Recording, sr: SampleRate,
                      num: nat, chans: seq<int>, reduce: Reducer)
    requires num < PassCount
    requires xBefore == x0 + Harvest(rec, PassesBefore(rec.samples, sr, num), chans, sr, reduce)
    requires |xBefore| - |x0| == |PassesBefore(rec.samples, sr, num)|
    requires x == xBefore + Harvest(rec, PassWindows(rec.samples, num, sr), chans, sr, reduce)
    requires |x| - |xBefore| == |PassWindows(rec.samples, num, sr)|
    ensures x == x0 + Harvest(rec, PassesBefore(rec.samples, sr, num + 1), chans, sr, reduce)
    ensures |x| - |x0| == |PassesBefore(rec.samples, sr, num + 1)|
  {
    var n := rec.samples;
    var done, pass := PassesBefore(n, sr, num), PassWindows(n, num, sr);
    PassFollowsEarlierPasses(n, sr, num);
    HarvestNext(x0, xBefore, x, rec, done, pass, chans, sr, reduce);
  }

  /** After pass `num` of a file stopped short, `x` holds the harvest of the whole file. */
  lemma PassStoppedFile(x0: seq<Features>, xBefore: seq<Features>, x: seq<Features>, rec: Recording, sr: SampleRate,
                        num: nat, chans: seq<int>, reduce: Reducer)
    requires num < PassCount
    requires xBefore == x0 + Harvest(rec, PassesBefore(rec.samples, sr, num), chans, sr, reduce)
    requires |xBefore| - |x0| == |PassesBefore(rec.samples, sr, num)|
    requires x == xBefore + Harvest(rec, PassWindows(rec.samples, num, sr), chans, sr, reduce)
    requires |x| - |xBefore| != |PassWindows(rec.samples, num, sr)|
    ensures x == x0 + Harvest(rec, FileWindows(rec.samples, sr), chans, sr, reduce)
  {
    var n := rec.samples;
    var done, pass := PassesBefore(n, sr, num), PassWindows(n, num, sr);
    PassFollowsEarlierPasses(n, sr, num);
    HarvestInterrupted(x0, xBefore, x, rec, done, pass, FileWindows(n, sr), chans, sr, reduce);
  }

  /**
   * The per-file body of `prepare_data` once the recording, the sampling rate and the channels
   * are known: the seven passes in `window_sizes` order. An exception in a pass ends the file.
   */
  method ExtractFile(x0: seq<Features>, y0: seq<int>, rec: Recording, chans: seq<int>, sr: SampleRate,
                     reduce: Reducer, classLabel: int)
    returns (x: seq<Features>, y: seq<int>)
    ensures x == x0 + Harvest(rec, FileWindows(rec.samples, sr), chans, sr, reduce)
    ensures LabelRun(y0, y, classLabel) && |y| - |y0| == |x| - |x0|
  {
    x, y := x0, y0;
    var n := rec.samples;
    for num := 0 to PassCount
      invariant x == x0 + Harvest(rec, PassesBefore(n, sr, num), chans, sr, reduce)
      invariant |x| - |x0| == |PassesBefore(n, sr, num)|
      invariant LabelRun(y0, y, classLabel) && |y| - |y0| == |x| - |x0|
    {
      ghost var xBefore, yBefore := x, y;
      var completed;
      x, y, completed := ExtractPass(x, y, rec, chans, sr, reduce, classLabel, num);
      LabelRunTransitive(y0, yBefore, y, classLabel);
      if !completed {
        PassStoppedFile(x0, xBefore, x, rec, sr, num, chans, reduce);
        return;
      }
      PassCompleted(x0, xBefore, x, rec, sr, num, chans, reduce);
    }
  }

  /** Appending a file's vectors to `x` and as many copies of its label to `y` keeps the lists aligned. */
  lemma AlignedAppend(x: seq<Features>, y: seq<int>, s: seq<Sample>, fs: seq<Features>, classLabel: int, y': seq<int>)
    requires Aligned(x, y, s)
    requires LabelRun(y, y', classLabel) && |y'| == |y| + |fs|
    ensures Aligned(x + fs, y', s + Labelled(fs, classLabel))
  {
    var s' := s + Labelled(fs, classLabel);
    forall i | 0 <= i < |s'|
      ensures (x + fs)[i] == s'[i].features && y'[i] == s'[i].classLabel
    {
      if i < |s| {
        assert y'[i] == y'[..|y|][i];
      }
    }
  }

  /**
   * The `try` block of `prepare_data` for one file: every exception before the windows (from
   * `int(board_id)`, `read_file`, `get_sampling_rate` or `get_eeg_channels`) leaves the lists
   * as they were; otherwise the file's windows are appended. Either way the lists stay aligned
   * with the samples, extended by the file's contribution.
   */
  method TryFile(x0: seq<Features>, y0: seq<int>, entry: FileEntry, boardId: Option<int>, shim: BoardShim,
                 blacklisted: Option<set<string>>, reduce: Reducer, classLabel: int, ghost s: seq<Sample>)
    returns (x: seq<Features>, y: seq<int>)
    requires Aligned(x0, y0, s)
    ensures Aligned(x, y, s + FileSamples(entry, boardId, shim, blacklisted, reduce, classLabel))
  {
    x, y := x0, y0;
    if boardId.None? || entry.Unreadable? {
      assert s + [] == s;
      return;
    }
    var rec := entry.rec;
    var info := shim(boardId.value);
    if info.samplingRate.None? || info.eegChannels.None? {
      assert s + [] == s;
      return;
    }
    var sr := info.samplingRate.value;
    var eegChannels := GetEegChannels(info.eegChannels.value, info.eegNames, blacklisted);
    ghost var fs := Harvest(rec, FileWindows(rec.samples, sr), eegChannels, sr, reduce);
    x, y := ExtractFile(x0, y0, rec, eegChannels, sr, reduce, classLabel);
    AlignedAppend(x0, y0, s, fs, classLabel, y);
  }

  /**
   * The inner loop of `prepare_data` over one class directory's listing: every file is tried in
   * listing order, and the lists end aligned with the directory's samples appended.
   */
  method ExtractClass(x0: seq<Features>, y0: seq<int>, files: seq<FileEntry>, boardId: Option<int>, shim: BoardShim,
                      blacklisted: Option<set<string>>, reduce: Reducer, classLabel: int, ghost s: seq<Sample>)
    returns (x: seq<Features>, y: seq<int>)
    requires Aligned(x0, y0, s)
    ensures Aligned(x, y, s + ClassSamples(files, boardId, shim, blacklisted, reduce, classLabel))
  {
    x, y := x0, y0;
    assert s + [] == s;
    for f := 0 to |files|
      invariant Aligned(x, y, s + ClassSamples(files[..f], boardId, shim, blacklisted, reduce, classLabel))
    {
      assert files[..f + 1][..f] == files[..f];
      ghost var done := ClassSamples(files[..f], boardId, shim, blacklisted, reduce, classLabel);
      ghost var contribution := FileSamples(files[f], boardId, shim, blacklisted, reduce, classLabel);
      assert ClassSamples(files[..f + 1], boardId, shim, blacklisted, reduce, classLabel) == done + contribution;
      x, y := TryFile(x, y, files[f], boardId, shim, blacklisted, reduce, classLabel, s + done);
      AppendAssociative(s, done, contribution);
    }
    assert files[..|files|] == files;
  }

  /**
   * `prepare_data(first_class, second_class, board_id, blacklisted_channels)`. `dirs` maps each
   * directory under `data` to its listing (a missing key: `os.listdir` raises); `boardId` is
   * `int(board_id)`, `None` when that raises; `shim` answers the `BoardShim` queries.
   */
  method PrepareData(firstClass: string, secondClass: string, dirs: map<string, seq<FileEntry>>,
                     boardId: Option<int>, shim: BoardShim, blacklisted: Option<set<string>>, reduce: Reducer)
    returns (r: Option<Dataset>)
    ensures r.Some? <==> PreparedSamples(firstClass, secondClass, dirs, boardId, shim, blacklisted, reduce).Some?
    ensures r.Some? ==> Aligned(r.value.x, r.value.y, PreparedSamples(firstClass, secondClass, dirs, boardId, shim, blacklisted, reduce).value)
  {
    var x: seq<Features> := [];
    var y: seq<int> := [];
    var classes := [firstClass, secondClass];
    for c := 0 to |classes|
      invariant forall j :: 0 <= j < c ==> classes[j] in dirs
      invariant Aligned(x, y, ClassesSamples(classes[..c], firstClass, dirs, boardId, shim, blacklisted, reduce))
    {
      var dataType := classes[c];
      if dataType !in dirs {
        return None;
      }
      ghost var before := ClassesSamples(classes[..c], firstClass, dirs, boardId, shim, blacklisted, reduce);
      x, y := ExtractClass(x, y, dirs[dataType], boardId, shim, blacklisted, reduce, LabelOf(dataType, firstClass), before);
      assert classes[..c + 1][..c] == classes[..c];
    }
    assert classes[..2] == classes;
    assert classes[0] in dirs && classes[1] in dirs;
    return Some(Dataset(x, y));
  }
}
