/**
 * What the dataset `prepare_data` returns looks like: the first class's samples come first and
 * carry label 0, the second class's follow with label 1, the logged class counts add up, and a
 * board id that `int` rejects or recordings too short for one window give no samples.
 */
module DatasetProperties {
  import opened Wrappers
  import opened Seqs
  import opened Brainflow
  import opened Windows
  import opened EegChannels
  import opened DatasetBuilder

  /** Every sample a class directory contributes carries that directory's label. */
  lemma {:induction false} ClassSamplesLabelled(files: seq<FileEntry>, boardId: Option<int>, shim: BoardShim,
                                                blacklisted: Option<set<string>>, reduce: Reducer, classLabel: int)
    ensures forall i :: 0 <= i < |ClassSamples(files, boardId, shim, blacklisted, reduce, classLabel)| ==>
      ClassSamples(files, boardId, shim, blacklisted, reduce, classLabel)[i].classLabel == classLabel
    decreases |files|
  {
    if files != [] {
      ClassSamplesLabelled(files[..|files| - 1], boardId, shim, blacklisted, reduce, classLabel);
    }
  }

  /**
   * The dataset is the first class directory's samples followed by the second's, and is missing
   * exactly when one of the two directories cannot be listed.
   */
  lemma PreparedIsBothClasses(firstClass: string, secondClass: string, dirs: map<string, seq<FileEntry>>,
                              boardId: Option<int>, shim: BoardShim, blacklisted: Option<set<string>>, reduce: Reducer)
    ensures PreparedSamples(firstClass, secondClass, dirs, boardId, shim, blacklisted, reduce).Some?
        <==> firstClass in dirs && secondClass in dirs
    ensures firstClass in dirs && secondClass in dirs ==>
      PreparedSamples(firstClass, secondClass, dirs, boardId, shim, blacklisted, reduce).value
      == ClassSamples(dirs[firstClass], boardId, shim, blacklisted, reduce, 0)
       + ClassSamples(dirs[secondClass], boardId, shim, blacklisted, reduce, if secondClass == firstClass then 0 else 1)
  {
    if firstClass in dirs && secondClass in dirs {
      var classes := [firstClass, secondClass];
      var firstOnly := ClassesSamples(classes[..1], firstClass, dirs, boardId, shim, blacklisted, reduce);
      assert classes[..1][..0] == [];
      assert firstOnly == ClassSamples(dirs[firstClass], boardId, shim, blacklisted, reduce, 0) by {
        assert classes[..1][0] == firstClass;
        assert ClassesSamples(classes[..1][..0], firstClass, dirs, boardId, shim, blacklisted, reduce) == [];
        assert firstOnly == [] + ClassSamples(dirs[firstClass], boardId, shim, blacklisted, reduce, 0);
      }
      assert ClassesSamples(classes, firstClass, dirs, boardId, shim, blacklisted, reduce)
          == firstOnly + ClassSamples(dirs[secondClass], boardId, shim, blacklisted, reduce, LabelOf(secondClass, firstClass));
    }
  }

  /**
   * Labels are 0 on the first class's samples and 1 on the second's (0 again when both
   * arguments name the same directory), so every label is 0 or 1.
   */
  lemma LabelsFollowClasses(firstClass: string, secondClass: string, dirs: map<string, seq<FileEntry>>,
                            boardId: Option<int>, shim: BoardShim, blacklisted: Option<set<string>>, reduce: Reducer)
    requires firstClass in dirs && secondClass in dirs
    ensures var s := PreparedSamples(firstClass, secondClass, dirs, boardId, shim, blacklisted, reduce).value;
            var k := |ClassSamples(dirs[firstClass], boardId, shim, blacklisted, reduce, 0)|;
            k <= |s|
            && (forall i :: 0 <= i < k ==> s[i].classLabel == 0)
            && (forall i :: k <= i < |s| ==> s[i].classLabel == (if secondClass == firstClass then 0 else 1))
  {
    PreparedIsBothClasses(firstClass, secondClass, dirs, boardId, shim, blacklisted, reduce);
    var second := if secondClass == firstClass then 0 else 1;
    var a: seq<Sample> := ClassSamples(dirs[firstClass], boardId, shim, blacklisted, reduce, 0);
    var b: seq<Sample> := ClassSamples(dirs[secondClass], boardId, shim, blacklisted, reduce, second);
    ClassSamplesLabelled(dirs[firstClass], boardId, shim, blacklisted, reduce, 0);
    ClassSamplesLabelled(dirs[secondClass], boardId, shim, blacklisted, reduce, second);
    forall i | |a| <= i < |a + b| ensures (a + b)[i].classLabel == second {
      assert (a + b)[i] == b[i - |a|];
    }
  }

  /**
   * The two class counts `prepare_data` logs: every label is 0 or 1, so they add up to the
   * length of `dataset_y`; with two distinct classes they are the sizes of the two classes'
   * contributions, and with the same class twice the second count is 0.
   */
  lemma LoggedClassCounts(firstClass: string, secondClass: string, dirs: map<string, seq<FileEntry>>,
                          boardId: Option<int>, shim: BoardShim, blacklisted: Option<set<string>>, reduce: Reducer,
                          x: seq<Features>, y: seq<int>)
    requires firstClass in dirs && secondClass in dirs
    requires Aligned(x, y, PreparedSamples(firstClass, secondClass, dirs, boardId, shim, blacklisted, reduce).value)
    ensures forall i :: 0 <= i < |y| ==> y[i] == 0 || y[i] == 1
    ensures Count(y, 0) + Count(y, 1) == |y|
    ensures firstClass != secondClass ==>
      Count(y, 0) == |ClassSamples(dirs[firstClass], boardId, shim, blacklisted, reduce, 0)|
      && Count(y, 1) == |ClassSamples(dirs[secondClass], boardId, shim, blacklisted, reduce, 1)|
    ensures firstClass == secondClass ==> Count(y, 1) == 0
  {
    PreparedIsBothClasses(firstClass, secondClass, dirs, boardId, shim, blacklisted, reduce);
    LabelsFollowClasses(firstClass, secondClass, dirs, boardId, shim, blacklisted, reduce);
    var k := |ClassSamples(dirs[firstClass], boardId, shim, blacklisted, reduce, 0)|;
    TwoRunCounts(y, k, if secondClass == firstClass then 0 else 1);
    BinaryCountsCoverAll(y);
  }

  /** Without a board id `int` accepts, no file of a directory contributes anything. */
  lemma {:induction false} NoBoardNoClassSamples(files: seq<FileEntry>, shim: BoardShim, blacklisted: Option<set<string>>,
                                                 reduce: Reducer, classLabel: int)
    ensures ClassSamples(files, None, shim, blacklisted, reduce, classLabel) == []
    decreases |files|
  {
    if files != [] {
      NoBoardNoClassSamples(files[..|files| - 1], shim, blacklisted, reduce, classLabel);
    }
  }

  /**
   * A board id that `int` rejects (such as the `None` of an unknown menu choice) makes every
   * file fail, so the dataset is empty whenever both directories can be listed.
   */
  lemma NoBoardNoData(firstClass: string, secondClass: string, dirs: map<string, seq<FileEntry>>,
                      shim: BoardShim, blacklisted: Option<set<string>>, reduce: Reducer)
    requires firstClass in dirs && secondClass in dirs
    ensures PreparedSamples(firstClass, secondClass, dirs, None, shim, blacklisted, reduce) == Some([])
  {
    PreparedIsBothClasses(firstClass, secondClass, dirs, None, shim, blacklisted, reduce);
    NoBoardNoClassSamples(dirs[firstClass], shim, blacklisted, reduce, 0);
    NoBoardNoClassSamples(dirs[secondClass], shim, blacklisted, reduce, if secondClass == firstClass then 0 else 1);
  }

  /**
   * A recording of at most `int(4.0 * sampling_rate)` samples is shorter than every window
   * (the strict `<` also rules out one of exactly that length), so its file contributes nothing.
   */
  lemma ShortRecordingContributesNothing(rec: Recording, boardId: int, shim: BoardShim, blacklisted: Option<set<string>>,
                                         reduce: Reducer, classLabel: int)
    requires shim(boardId).samplingRate.Some?
    requires rec.samples <= 4 * shim(boardId).samplingRate.value
    ensures FileSamples(Readable(rec), Some(boardId), shim, blacklisted, reduce, classLabel) == []
  {
    var sr := shim(boardId).samplingRate.value;
    ShortRecordingHasNoWindows(rec.samples, sr, PassCount);
  }

  /**
   * A file whose reduction fails somewhere keeps the samples of the windows before the failure:
   * its contribution is the reductions of its leading windows, in pass order and then in order
   * of start position, and the first window it leaves out is one whose reduction failed.
   */
  lemma FileKeepsWindowsBeforeFailure(rec: Recording, boardId: int, shim: BoardShim, blacklisted: Option<set<string>>,
                                      reduce: Reducer, classLabel: int)
    requires shim(boardId).samplingRate.Some? && shim(boardId).eegChannels.Some?
    ensures var info := shim(boardId);
            var sr := info.samplingRate.value;
            var chans := SelectedChannels(info.eegChannels.value, info.eegNames, blacklisted);
            var ws := FileWindows(rec.samples, sr);
            var s := FileSamples(Readable(rec), Some(boardId), shim, blacklisted, reduce, classLabel);
            |s| <= |ws|
            && (forall i :: 0 <= i < |s| ==>
                  reduce(Slice(rec, ws[i]), chans, sr) == Some(s[i].features) && s[i].classLabel == classLabel)
            && (|s| < |ws| ==> reduce(Slice(rec, ws[|s|]), chans, sr).None?)
  {
    var info := shim(boardId);
    var sr := info.samplingRate.value;
    var chans := SelectedChannels(info.eegChannels.value, info.eegNames, blacklisted);
    var ws := FileWindows(rec.samples, sr);
    var fs := Harvest(rec, ws, chans, sr, reduce);
    var s := FileSamples(Readable(rec), Some(boardId), shim, blacklisted, reduce, classLabel);
    assert s == Labelled(fs, classLabel);
    HarvestStopsAtFirstFailure(rec, ws, chans, sr, reduce);
    forall i | 0 <= i < |s|
      ensures reduce(Slice(rec, ws[i]), chans, sr) == Some(s[i].features) && s[i].classLabel == classLabel
    {
      assert s[i] == Sample(fs[i], classLabel);
    }
  }
}
