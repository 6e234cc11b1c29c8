# Sliding-window EEG dataset builder

This project models the data-preparation core of `train_classifiers.py` in Dafny and proves
properties about it. That script trains focus and relaxation classifiers on EEG recordings made
with BrainFlow boards. The model covers four pieces:

- `prepare_data`: reads every recording of two class directories and cuts it into windows.
  Seven passes run over each recording, with window sizes of 4.0 to 10.0 seconds. Each pass has
  its own overlap fraction, from 0.5 down to 0.35. Each window is reduced to a five-band
  average-power feature vector, which is appended to `dataset_x`. Its label goes at the same
  index of `dataset_y`: 0 for the first class, 1 for the second. An exception inside a file
  abandons the rest of that file but keeps the vectors already appended.
- `get_eeg_channels`: drops the board's EEG channels whose names are blacklisted. It falls back
  to the full channel list when the names cannot be read or indexing fails.
- The class partition of `print_dataset_info`: splits `x` into first-class and second-class rows
  by the labels in `y`.
- `select_board_id`: maps the menu keys "1" to "5" to BrainFlow board ids.

Modules:

- `Wrappers`: `Option`.
- `Seqs`: `zip`, counting.
- `Brainflow`: what the library hands over, as data and function parameters.
- `Windows`: window arithmetic.
- `EegChannels`: channel selection.
- `DatasetBuilder`: the `prepare_data` loops as methods, and the dataset they build as functions.
- `DatasetProperties`: labels, counts and empty results of that dataset.
- `DatasetInfo`: the class partition.
- `BoardMenu`: the menu lookup.

Window sizes are kept in tenths of a second and overlaps in thousandths. So
`int(window_size * sampling_rate)` is `(tenths * sr) / 10` and
`int(window_size * overlap * sampling_rate)` is `(tenths * thousandths * sr) / 10000`, both
computed exactly. `DatasetBuilder.Harvest` is the reference for the exception handling. It
gives the feature vectors of the leading windows of a recording, up to the first window whose
reduction fails.

A recording of exactly `int(4.0 * sampling_rate)` samples yields no window: the loop test
`cur_pos + wl < n` (train_classifiers.py:67) is strict, so a window ending at the last sample is
never taken. See `Windows.PassWindows`, `Windows.ShortRecordingHasNoWindows` and
`Windows.TenSecondsAt250Hz`.

## Model

| member | source | states |
|---|---|---|
| Windows.WindowLength | train_classifiers.py:67 | the window of pass `p` is `(p + 4) * sampling_rate` samples: the sizes 4.0 .. 10.0 s are whole seconds |
| Windows.Step | train_classifiers.py:78 | the advance of every pass is at least two seconds of samples (so the `while` loop terminates) and at most half the window, so consecutive windows overlap |
| Windows.WindowCountExact | train_classifiers.py:66-78 | the closed-form window count admits index `k` exactly when `k * step + wl < n`, the loop's condition at the `k`-th start |
| Windows.Progression | train_classifiers.py:66-78 | the starts of a pass are exactly `0, step, 2*step, ...`; every window ends strictly before `n`; the pass is empty iff `n <= wl` |
| Windows.ProgressionIncreasing | train_classifiers.py:78 | start positions strictly increase within a pass |
| Windows.PassWindows | train_classifiers.py:64-78 | one pass emits windows iff its window is shorter than the recording; each has the pass's full length and ends strictly before sample `n`; starts strictly increase; every start `k * step` whose window ends before `n` is emitted, as window `k` |
| Windows.PassesBefore | train_classifiers.py:64-78 | the windows of the first `m` passes, in `window_sizes` order, all in bounds and at least the shortest window long |
| Windows.PassesBeforePrefix | train_classifiers.py:64 | the first `m` passes' windows are a prefix of the whole file's windows (pass order is preserved) |
| Windows.PassFollowsEarlierPasses | train_classifiers.py:64-78 | the windows of pass `m` come right after those of the earlier passes, and together they are a prefix of the file's windows |
| Windows.FileWindows | train_classifiers.py:64-78 | every window of every pass lies inside the recording |
| Windows.ShortRecordingHasNoWindows | train_classifiers.py:64-67 | a recording of at most `int(4.0 * sampling_rate)` samples yields no window in any pass |
| Windows.TenSecondsAt250Hz | train_classifiers.py:67-78 | 2500 samples at 250 Hz, first pass: starts 0, 500, 1000 of length 1000; start 1500 is rejected |
| Brainflow.Slice | train_classifiers.py:68 | `data[:, p:p + wl]` keeps every channel and exactly `wl` columns |
| EegChannels.GetEegChannels | train_classifiers.py:94-108 | the loop returns the channels whose names are not blacklisted, in order; the full list when the names raise or a kept name's index has no channel |
| EegChannels.SelectedChannels | train_classifiers.py:94-108 | the value `get_eeg_channels` returns: the channels of the (channel, name) pairs whose name is not blacklisted, or the full list when the names raise or a kept name has no channel; `GetEegChannels`, `NoBlacklistKeepsNamedChannels` and `BlacklistingShrinksSelection` state its properties |
| EegChannels.UnlistedSize | train_classifiers.py:102-105 | every named channel is either kept or blacklisted: kept plus blacklisted is the number of names considered |
| EegChannels.BlacklistOneMore | train_classifiers.py:103-105 | blacklisting one more name removes exactly the channels with that name; a name the board lacks removes nothing |
| EegChannels.UnlistedFromChannels | train_classifiers.py:103-105 | every selected channel is one of the board's EEG channels |
| EegChannels.UnlistedNothingListed | train_classifiers.py:101-105 | with an empty blacklist every named position is kept, in order |
| EegChannels.NoBlacklistKeepsNamedChannels | train_classifiers.py:100-105 | a `None` blacklist keeps every channel that has a name: the whole list unless there are fewer names than channels |
| EegChannels.BlacklistingShrinksSelection | train_classifiers.py:94-108 | when the names are readable and there are no more names than channels, blacklisting a name shrinks the selection by exactly the number of channels with that name |
| DatasetBuilder.Harvest | train_classifiers.py:64-80 | a file yields at most one vector per window |
| DatasetBuilder.HarvestStopsAtFirstFailure | train_classifiers.py:70-80 | vector `i` of a file is the reduction of window `i`; the first window left out is one whose reduction raised |
| DatasetBuilder.HarvestAppend | train_classifiers.py:64-80 | windows after a failure add nothing; without a failure the harvest of two window runs is the concatenation |
| DatasetBuilder.HarvestExtend | train_classifiers.py:67-77 | after a harvest with no failure so far, one more window adds its vector if its reduction succeeds and nothing if it raises |
| DatasetBuilder.HarvestStopped | train_classifiers.py:79-80 | once a reduction raised, no later window of the file adds anything |
| DatasetBuilder.ExtractPass | train_classifiers.py:66-78 | the `while` loop appends the harvest of the pass's windows to `x`, as many copies of the label to `y`, and reports whether no reduction raised |
| DatasetBuilder.PassCompleted | train_classifiers.py:64-78 | when a pass runs to its end, the vectors appended so far are the harvest of the passes up to and including it |
| DatasetBuilder.PassStoppedFile | train_classifiers.py:64-80 | when a reduction raises in some pass, the vectors appended so far are already the harvest of the whole file: later passes of that file would add nothing |
| DatasetBuilder.HarvestNext | train_classifiers.py:64-78 | harvesting two runs of windows without a failure in the first appends the two harvests in order |
| DatasetBuilder.HarvestInterrupted | train_classifiers.py:67-80 | a run of windows cut short by a failure leaves `x` at the harvest of every longer window list it is a prefix of |
| DatasetBuilder.ExtractFile | train_classifiers.py:64-80 | the seven passes append the file's harvest to `x` and the matching number of labels to `y` |
| DatasetBuilder.AlignedAppend | train_classifiers.py:73-77 | appending a file's vectors and as many labels keeps `x` and `y` index-aligned with the samples |
| DatasetBuilder.LabelOf | train_classifiers.py:74-77 | every label is 0 or 1, and it is 0 exactly for the first class's directory |
| DatasetBuilder.FileSamples | train_classifiers.py:55-80 | a file contributes nothing when `int(board_id)` raises, the file cannot be read, or `get_sampling_rate` or `get_eeg_channels` raises; at most one sample per window otherwise, and every sample carries the directory's label; `FileKeepsWindowsBeforeFailure` gives its exact contents |
| DatasetBuilder.ClassSamples | train_classifiers.py:51-80 | the samples of a directory's files concatenated in listing order; `ClassSamplesLabelled` and `NoBoardNoClassSamples` state its labels and its emptiness without a board id |
| DatasetBuilder.PreparedSamples | train_classifiers.py:41-92 | the whole result of `prepare_data`; `PreparedIsBothClasses` states when it exists and that it is the first class's samples followed by the second's |
| DatasetBuilder.TryFile | train_classifiers.py:55-80 | one iteration over a file appends exactly that file's samples to the aligned `x` and `y`, and nothing when `int(board_id)`, the file read or a board query raises |
| DatasetBuilder.ExtractClass | train_classifiers.py:51-80 | the loop over a directory's listing appends the samples of its files in listing order, keeping `x` and `y` aligned |
| DatasetBuilder.PrepareData | train_classifiers.py:41-92 | the method returns a dataset exactly when both class directories can be listed, with `x[i]` and `y[i]` the vector and label of sample `i` of the reference `PreparedSamples` |
| DatasetProperties.ClassSamplesLabelled | train_classifiers.py:74-77 | every sample from a class directory carries that directory's label |
| DatasetProperties.PreparedIsBothClasses | train_classifiers.py:48-51 | the dataset exists iff both directories are listable, and is the first class's samples followed by the second's |
| DatasetProperties.LabelsFollowClasses | train_classifiers.py:74-77 | labels are 0 up to the end of the first class's samples and 1 after (0 when both arguments name one directory) |
| DatasetProperties.LoggedClassCounts | train_classifiers.py:85 | every label is 0 or 1, so the two logged counts add up to `len(dataset_y)`; for distinct classes they are the two classes' sample counts |
| Seqs.TwoRunCounts | train_classifiers.py:85 | on labels that are 0 up to index `k` and `w` after it, the two comprehension counts are `k` and the rest (or all and none when `w` is 0) |
| DatasetProperties.NoBoardNoClassSamples | train_classifiers.py:55-80 | when `int(board_id)` raises, no file of a directory contributes |
| DatasetProperties.NoBoardNoData | train_classifiers.py:55-80 | when `int(board_id)` raises, the dataset is empty |
| DatasetProperties.ShortRecordingContributesNothing | train_classifiers.py:64-67 | a recording of at most `int(4.0 * sampling_rate)` samples contributes no sample |
| DatasetProperties.FileKeepsWindowsBeforeFailure | train_classifiers.py:55-80 | a file keeps the vectors of its windows before the first failing reduction, in visiting order, each with the file's label |
| DatasetInfo.RowsLabelled | train_classifiers.py:112-121 | a partition list is never longer than `x` |
| DatasetInfo.RowsLabelledSnoc | train_classifiers.py:116-120 | one more row of `x` joins the `v` list exactly when its index has label `v` |
| DatasetInfo.SplitByClass | train_classifiers.py:110-121 | the loop sends `x[i]` to the first list iff `y[i] == 0` and to the second iff `y[i] == 1`, in order |
| DatasetInfo.RowsLabelledCount | train_classifiers.py:112-121 | with one label per row, a list holds as many rows as there are labels `v` |
| DatasetInfo.NothingDropped | train_classifiers.py:112-121 | with one 0/1 label per row, the two lists together hold every row |
| DatasetInfo.RowsLabelledAppend | train_classifiers.py:116-120 | the partition of two consecutive blocks is the concatenation of their partitions |
| DatasetInfo.RowsLabelledConstant | train_classifiers.py:116-120 | a block labelled `v` throughout goes whole to the `v` list and adds nothing to another |
| DatasetInfo.TwoRunPartition | train_classifiers.py:112-121 | when labels are 0 up to index `k` and 1 after it, the first list is `x[..k]` and the second `x[k..]` |
| DatasetInfo.PartitionRecoversClasses | train_classifiers.py:110-121 | on `prepare_data`'s output for two distinct classes, the first list is exactly the first class's vectors and the second the rest |
| BoardMenu.SelectBoardIdAccepts | train_classifiers.py:262-273 | the menu answers an id exactly for the single characters "1" to "5" |
| BoardMenu.SelectBoardId | train_classifiers.py:262-273 | the lookup of the answer in `id_pairs` (the constant `IdPairs`); `SelectBoardIdAccepts`, `MenuSelectsBoard` and `SelectedIdIsBoard` state which answers it accepts and which id each gives |
| BoardMenu.MenuSelectsBoard | train_classifiers.py:262-268 | each board's key answers that board's `BoardIds` value: 22, 0, 1, 42 and 8 for keys "1" to "5" |
| BoardMenu.SelectedIdIsBoard | train_classifiers.py:262-271 | any id answered belongs to the board whose key was typed |
| BoardMenu.BoardIdsDistinct | train_classifiers.py:262-268 | the five boards have distinct ids |
| BoardMenu.UnknownChoiceGivesEmptyDataset | train_classifiers.py:269-273 | an unknown key gives `None`, and `prepare_data` on that board id yields an empty dataset |

## Left out

- `DataFilter.read_file` and `DataFilter.get_avg_band_powers` (train_classifiers.py:59, 70) belong to the BrainFlow library. They are not part of this model: a file is a parsed `Recording` or `Unreadable`, and the reduction is a function parameter answering a five-element vector or `None` for an exception.
- `BoardShim.get_sampling_rate`, `get_eeg_channels` and `get_eeg_names` are likewise a parameter answering each query or `None`. Sampling rates are taken to be positive.
- `os.listdir` is a map from directory name to its listing, in listing order. A missing directory makes the whole result `None`, because that call is outside the per-file `try`.
- `int(board_id)` is its result: an `Option<int>`, `None` when it raises.
- Sampling rates are positive (`Brainflow.SampleRate`). This is also what makes the `while` loop at train_classifiers.py:67 terminate: at a sampling rate of 0 both `wl` and the step are 0, `cur_pos` never advances, and on a non-empty recording the loop ends only if the reduction raises. The model does not capture that case.
- Floating point: the window length and step are computed exactly on rationals. For the seven (size, overlap) pairs the binary products are exact or one rounding step above the exact value, so `int()` yields the exact window length and step at every realistic sampling rate, and the exact encoding loses nothing.
- The `.astype(float)` conversion and `np.ascontiguousarray` (train_classifiers.py:69, 72) do not change values in the model.
- Printing, `logging` and pickling inside `prepare_data` (train_classifiers.py:47-52, 57-63, 80-90) are not modelled. Of the logging, only the class counts it reports are stated, as `DatasetProperties.LoggedClassCounts`.
- The `np.mean` summaries and the `.tolist()` conversion in `print_dataset_info` (train_classifiers.py:119-130) are not modelled, because they are floating point and logging.
- The `print`/`input` prompt of `select_board_id` (train_classifiers.py:250-260) is not modelled: the model takes the typed answer as its argument.
- `write_model`, the scikit-learn training, cross-validation and ONNX export (train_classifiers.py:25-39, 132-211) are not modelled, because they are library calls on floats.
- `main` and its argument parsing (train_classifiers.py:214-242) are not modelled. `main` also calls `print_dataset_info` with two arguments although it takes one.
- `generate_data.py` is not part of this model. It is device-session plumbing, and its `select_board_id` duplicates the one modelled here.
- Concurrency does not arise: the script is single-threaded.
