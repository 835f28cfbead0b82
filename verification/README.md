# Audix preprocessing: a Dafny model of the feature-and-level pipeline

This project models the parts of the Audix preprocessing code that do more than call a library:

- the adaptive level controller applied to every denoised microphone track (`adaptive_level_adjust`);
- the feature writer (`save_mel_tensor`): it keeps or skips a separated source by the microphone's part list, selects the channel, chooses the resampling, pads and cuts the feature tensor to `MEL_SIZE`, and picks the output path;
- the real-time stream loop (`process_stream`): record, take a timestamp, then for each microphone denoise, adjust, separate and save every source;
- the process-wide resampler slot (`init_resampler` / `maybe_resample`);
- the mono-to-stereo conversion (`mono_to_stereo`);
- the offline folder converter (`convert_all_audio_recursively`): it walks a directory tree, takes each directory's audio files in sorted order, mixes each one down, resamples it and saves it under a per-folder numbered name.

## Modules

| file | module | what it holds |
|---|---|---|
| `common.dfy` | `Common` | `Option` and `Result`. |
| `config.dfy` | `Config` | The constants of `config.py`. |
| `decimal.dfy` | `Decimal` | Python's `str(n)` and `f"{n:03d}"`, and a parser that inverts both. |
| `paths.dfy` | `Paths` | POSIX `os.path.join` and `os.path.basename`, ASCII `str.lower`, and `str.endswith`. |
| `sorting.dfy` | `Sorting` | Python's string order and `sorted`. |
| `level.dfy` | `Level` | The level controller, as functions over real samples. |
| `mel.dfy` | `Mel` | `save_mel_tensor`, as a function of its arguments and two effect parameters. |
| `stream.dfy` | `Stream` | `process_stream`: a specification (`Run` values) and three loop methods proved equal to it. |
| `resample.dfy` | `Resample` | A class `Coordinator` whose field is the `RESAMPLER` global. |
| `stereo.dfy` | `Stereo` | `mono_to_stereo` on its two input types. |
| `batch.dfy` | `Batch` | The folder converter: a specification over an `os.walk` listing, and a class `FolderConverter` whose fields are `folder_counts` and the report log. |

External computations are parameters:

- The square roots come in as values related to their squares by `IsRoot`.
- The mel/dB/z-score/resize chain is one function: `Mel.FeatureIO.spectrogram`.
- The file write is `Mel.FeatureIO.store`.
- Recording, the clock, denoising, separation, `torchaudio.load` and the resampling transforms are further function parameters.

A collaborator returns `None` (or `false`) where the Python code would raise.

## Model

| member | source | states |
|---|---|---|
| Decimal.NatToString | mel.py:53 | `str(n)` is a non-empty string of digits with no leading zero when n ≥ 10, and a single digit below 10 |
| Decimal.ParseNatToString | mel.py:53 | reading `str(n)` back as a decimal gives n |
| Decimal.NatToStringInjective | mel.py:53 | distinct microphone indices give distinct `mic_<idx>` texts |
| Decimal.ZeroPad3 | convert_folder_to_mel.py:44 | `f"{n:03d}"` is all digits, three long when `str(n)` is shorter, otherwise as long as `str(n)` |
| Decimal.ParseZeroPad3 | convert_folder_to_mel.py:44 | reading the zero-padded counter back gives the counter |
| Decimal.ZeroPad3Injective | convert_folder_to_mel.py:44 | distinct counters are padded to distinct strings |
| Paths.Join | convert_folder_to_mel.py:29 | an absolute second part replaces the first; otherwise the result starts with the first part and ends with the second, with one '/' added when the first is non-empty and does not end in one, and none added when it is empty or already ends in '/' |
| Paths.JoinSeparated | mel.py:53-55 | joining two non-empty relative parts puts exactly one '/' between them |
| Paths.Basename | convert_folder_to_mel.py:21-22 | the basename has no '/', is a suffix of the path, and is preceded by '/' when shorter than the path |
| Paths.LowerFacts | convert_folder_to_mel.py:16 | lower-casing leaves no ASCII capital, keeps every other character, and is idempotent |
| Sorting.LexTotal | convert_folder_to_mel.py:16 | any two names are ordered one way or the other |
| Sorting.LexAntisymmetric | convert_folder_to_mel.py:16 | names ordered both ways are equal |
| Sorting.LexTransitive | convert_folder_to_mel.py:16 | the name order is transitive |
| Sorting.Sort | convert_folder_to_mel.py:16 | `sorted` returns an ascending permutation of its input |
| Sorting.SortedUnique | convert_folder_to_mel.py:16 | two ascending permutations of the same names are equal, so `Sort` is exactly Python's `sorted` |
| Level.Peak | main.py:37 | the peak is non-negative, bounds every sample's magnitude and is attained by one sample of a non-empty track |
| Level.AmplifyGain | main.py:41-45 | the amplify gain is target/rms or the gain limit, whichever is smaller, and at least 1 below the target |
| Level.MinorGain | main.py:87-89 | `np.clip`: the minor gain lies in [lo, hi]; it is target/rms inside the bounds, exactly lo below them and exactly hi above them |
| Level.SelectBranch | main.py:22-59 | pass-through exactly for empty or near-silent tracks (rms < 1e-8); amplify exactly below the target; compress exactly at or above the target with a peak over the threshold; minor adjustment otherwise |
| Level.AdaptiveLevelAdjust | main.py:12-95 | the output has the input's length, and an empty or near-silent track comes back unchanged |
| Level.PeakScale | main.py:47-50 | a non-negative gain scales the peak by that gain |
| Level.ScaleTwice | main.py:47-52 | the clip rescale after the gain is one combined gain |
| Level.MeanSquareScale | main.py:77-80 | a gain g multiplies the mean square by g² |
| Level.NormalizedMeanSquare | main.py:77-80 | rescaling a track of RMS r > 0 by target/r gives it exactly the target RMS |
| Level.AmplifyClipped | main.py:50-53 | when the gained peak exceeds 0.95, the output peak is exactly 0.95 and the combined gain is positive and below the first gain |
| Level.AmplifyClipGuard | main.py:39-55 | the amplify branch applies one gain in (0, gain limit], and the output peak never exceeds 0.95 |
| Level.AmplifyUnclipped | main.py:41-47 | below the gain limit and the clip ceiling, the amplify branch applies exactly target/rms |
| Level.AmplifyReachesTarget | main.py:39-47 | in that case the amplified track has exactly the target RMS |
| Level.CompressSampleFacts | main.py:66-74 | samples within the threshold are unchanged; the others keep their sign, and their magnitude becomes threshold + excess/3, strictly between the threshold and the old magnitude |
| Level.CompressSampleMonotone | main.py:66-74 | the soft-knee map is strictly increasing |
| Level.CompressBranchFacts | main.py:59-80 | the compression branch keeps signs and sample order, and reaches the target RMS when the compressed RMS exceeds 1e-8, else it returns the compressed copy |
| Level.MinorBranchFacts | main.py:85-91 | the minor gain lies in [lo, 1] and does not raise the peak |
| Level.MinorReachesTarget | main.py:85-91 | when target/rms is inside [lo, hi], the minor branch reaches exactly the target RMS |
| Level.AdaptiveLevelAdjustFacts | main.py:12-95 | the guarantee of each branch of `adaptive_level_adjust`; the minor branch keeps the peak at or below the compression threshold |
| Level.CompressionCanExceedClipCeiling | main.py:59-80 | a concrete track on which the compression branch outputs a peak of 1.0, above the 0.95 ceiling |
| Mel.PadRow | mel.py:50 | a row is padded on the right with zeros up to the given length and keeps its old values as a prefix |
| Mel.PadLastAxis | mel.py:50 | padding keeps the number of channels and of rows per channel |
| Mel.TruncateRows | mel.py:51 | the cut keeps the number of channels |
| Mel.SaveMelTensor | mel.py:7-56 | the call is skipped exactly when the part list excludes the source; a kept source fails when the spectrogram raises, and otherwise is written exactly when the store succeeds, holding the size-corrected spectrogram at `OutputPath` |
| Mel.SkipIgnoresEffects | mel.py:19-20 | a filtered source is skipped whatever the effects would do |
| Mel.NoFilterWithoutParts | mel.py:19-20 | without a part list nothing is skipped; a spectrogram that computes and stores gives `Written` |
| Mel.FirstChannelIsInputRow | mel.py:22-23 | channel selection never averages: the rows kept are input rows, exactly one when there were several, and selecting again changes nothing |
| Mel.ResamplesFromCaptureRate | mel.py:26-28 | with the configured rates the input is always resampled from 44100 Hz to 16000 Hz |
| Mel.FitShape | mel.py:50-51 | each channel keeps its first min(rows, 240) rows, and each row becomes its old values followed by zeros up to 240 columns |
| Mel.FitRowWidth | mel.py:50-51 | a row at most 240 wide becomes exactly 240 wide; a wider row is kept whole, since the cut applies to the row axis |
| Mel.FitIdempotent | mel.py:50-51 | correcting the size twice is the same as once |
| Mel.FitIdentity | mel.py:50-51 | a tensor that already has the size is saved unchanged |
| Mel.OutputPathForm | mel.py:53-55 | the file is `output/<timestamp>/mic_<idx>/<name>.pt` |
| Mel.OutputPathInjective | mel.py:53-56 | the path determines the timestamp, the microphone and the source name, so distinct keys never share a file |
| Stream.ProcessMic | main.py:119-150 | the microphone body (denoise, level-adjust, separate, one save call per source) issues exactly the calls and error of `MicRun` |
| Stream.AdjustedTrackFacts | main.py:134 | when `root` is the true RMS, the track handed to the separator has the recording's length; it is unchanged on pass-through, within the 0.95 clip ceiling when amplified, at the -18 dB target RMS when compressed (unless the compressed RMS is negligible), and within the 0.7 threshold after a minor adjustment |
| Stream.ProcessCycle | main.py:107-150 | one repeat (record, one timestamp, the microphone loop) equals `CycleRun` |
| Stream.ProcessStream | main.py:97-156 | the whole stream (noise clip, then the repeats) equals `StreamRun` |
| Stream.SourcesRouting | main.py:147-149 | call j of the source loop is the request for source j under its reported name, with the microphone, the timestamp and the part list; there is one call per source when nothing fails |
| Stream.MicRouting | main.py:146-149 | a separated channel routes its sources with `CHANNEL_PARTS[mic]` |
| Stream.UnmappedMicRaises | main.py:146 | a channel index without a part list raises after separation, before any save |
| Stream.TooManyChannelsFails | main.py:119-146 | a segment with more channels than `CHANNEL_PARTS` has entries never completes its repeat |
| Stream.MicsShareTimestamp | main.py:117-149 | every call in the microphone loop carries the repeat's single timestamp, its own channel index and that channel's part list |
| Stream.CycleSharesTimestamp | main.py:111-149 | every call of one repeat carries the timestamp taken in that repeat |
| Stream.RepeatsSucceed | main.py:107-156 | the repeat loop ends without error exactly when every repeat does |
| Stream.StreamSucceeds | main.py:105-107 | the stream ends without error exactly when the noise clip loads and every repeat completes |
| Stream.PartsPartitionSources | config.py:13-17 | the routing table has one row per configured channel (`CHANNELS` = 2); each configured source is kept for exactly one microphone: fan and pump on 0, bearing, gearbox and slider on 1 |
| Resample.Coordinator.constructor | resample.py:6 | the slot starts empty |
| Resample.Coordinator.InitResampler | resample.py:8-24 | the slot becomes `Planned(rate)`, which is also returned |
| Resample.Coordinator.MaybeResample | resample.py:27-38 | the slot is only read: audio unchanged when empty, resampled otherwise |
| Resample.ResampleBeforeInit | resample.py:27-38 | resampling before configuration is not an error and returns the audio |
| Resample.ConfigureThenResample | main.py:160 | after start-up configuration, audio is converted from 44100 Hz exactly when the model's rate differs |
| Resample.Reconfigure | resample.py:15-24 | a second configuration replaces the first |
| Resample.ResampleTwice | resample.py:34-38 | reads leave the slot unchanged, so later reads see the same resampler |
| Stereo.AsColumnTransposed | monotostereo.py:13-16 | `(n,)` widened to `(n, 1)` and transposed is the signal as one row |
| Stereo.InterleavePairs | monotostereo.py:22 | `np.repeat(row, 2)` holds entry i at positions 2i and 2i + 1 |
| Stereo.TransposeInvolution | monotostereo.py:16 | transposing twice gives the array back |
| Stereo.MonoToStereo | monotostereo.py:5-28 | a `TypeError` exactly for inputs that are neither tensor nor array; otherwise shape (1, 2·width, rows) |
| Stereo.MonoDuplicated | monotostereo.py:5-28 | a rank-1 signal x becomes `[[x, x]]` on both paths |
| Stereo.ColumnSameAsFlat | monotostereo.py:13-14 | an `(n, 1)` input gives what the `(n,)` input gives |
| Stereo.NumpyAgreesOnMono | monotostereo.py:15-25 | for at most one column the two paths agree |
| Stereo.PathsDifferOnTwoColumns | monotostereo.py:15-22 | for every input with two columns a and b, the tensor path gives the channels (a, b, a, b) and the array path gives (a, a, b, b) |
| Batch.FilterAudio | convert_folder_to_mel.py:16 | keeps exactly the names ending in .wav, .mp3 or .flac in any letter case, each as often as listed |
| Batch.AudioNameIgnoresCase | convert_folder_to_mel.py:16 | a name and its lower-cased form are both audio names or neither |
| Batch.AudioFiles | convert_folder_to_mel.py:16 | exactly the audio names, ascending, each as often as listed |
| Batch.MixDownStereo | convert_folder_to_mel.py:34-35 | a two-channel file is mixed down to the sample-wise average of its channels |
| Batch.MixDownIdentical | convert_folder_to_mel.py:34-35 | averaging copies of one signal gives that signal |
| Batch.SetDefaultFacts | convert_folder_to_mel.py:26 | `setdefault(folder, 1)` adds the folder only when missing, keeps every existing counter, and a second call changes nothing |
| Batch.FileStepCounter | convert_folder_to_mel.py:28-58 | one file adds one report and touches only its folder's counter; it takes a number exactly when load and resampling succeed, and the number is the current counter, advanced by one even if the save then fails |
| Batch.CountNumberedExtremes | convert_folder_to_mel.py:43-45 | the number of reports whose file took a number: zero exactly when no file did, all of them exactly when every file did |
| Batch.NumberedFileSaved | convert_folder_to_mel.py:47-53 | a numbered file is never filtered and is written under microphone 0 with its numbered name |
| Batch.NamesCollideAcrossFolders | convert_folder_to_mel.py:21-45 | the 1001st file of `x` and the first file of `x1` are both saved as `x1001` |
| Batch.FilesRunNumbering | convert_folder_to_mel.py:28-58 | the file loop reports every file in order, whatever fails, and numbers consecutively from the folder's counter, which ends advanced by the count of numbered files |
| Batch.EntryNumbering | convert_folder_to_mel.py:15-28 | a directory without audio files, or named like the input folder, changes nothing; any other directory continues its basename's counter, or starts it at 1 |
| Batch.FileStepValid | convert_folder_to_mel.py:43-45 | one file keeps the numbering invariant: counters at least 1, numbers below their counter, increasing per folder |
| Batch.FilesRunValid | convert_folder_to_mel.py:28-58 | the file loop keeps the numbering invariant |
| Batch.WalkRunValid | convert_folder_to_mel.py:15-58 | the walk keeps the numbering invariant |
| Batch.NumberedNameInjective | convert_folder_to_mel.py:44 | one folder never gives two counters the same name |
| Batch.NamesDistinctPerFolder | convert_folder_to_mel.py:12-58 | within a run, two numbered files with the same folder basename never share a name |
| Batch.ConvertFile | convert_folder_to_mel.py:30-53 | the `try` block: load, mix down, resample, then save under the numbered name, with the outcome of `FileOutcome` |
| Batch.FolderConverter.constructor | convert_folder_to_mel.py:13 | the counters and the report log start empty |
| Batch.FolderConverter.ProcessFile | convert_folder_to_mel.py:29-58 | the new counters and reports are `FileStep` of the old ones |
| Batch.FolderConverter.ConvertFolder | convert_folder_to_mel.py:28-58 | the file loop leaves `FilesRun` of the state it started from |
| Batch.FolderConverter.ConvertAllAudioRecursively | convert_folder_to_mel.py:12-58 | the counters and the report log end as `ConvertAll` of the walk |

## Behaviour of the code worth knowing

- **Compression branch.** Only the amplify branch has a clip guard (`main.py:50-53`). The compression branch (`main.py:59-80`) renormalises to the target RMS with no guard. `Level.CompressionCanExceedClipCeiling` shows a track whose output peak is 1.0.
- **No exception handling in the stream.** `process_stream` (`main.py:97-156`) catches no exception, so the first failure ends the whole stream (`Stream.RepeatsSucceed`, `Stream.StreamSucceeds`).
- **Skipped directories.** The comment at `convert_folder_to_mel.py:23` says the skip is meant for the top folder. The test at line 22 compares basenames only, so every directory whose basename equals the input folder's is skipped, at any depth (`Batch.EntryNumbering`).
- **Shared counters.** Counters are keyed by basename (`convert_folder_to_mel.py:21,26`) and `f"{n:03d}"` only pads to three digits, so names from different folders can collide (`Batch.NamesCollideAcrossFolders`). Within one folder basename, names stay distinct (`Batch.NamesDistinctPerFolder`).

## Left out

- **Numerics are not modelled:**
  - The mel spectrogram, the dB conversion, both z-score normalisations and the bilinear resize are one collaborator (`Mel.FeatureIO.spectrogram`), with no numeric content.
  - The resampling transforms (torchaudio `Resample`) are collaborators as well.
- **Floating point.** Samples are reals, so float32 rounding and the `1e-8`/`1e-9` epsilons in the dB and z-score formulas are not modelled. The silence guards at 1e-8 are kept.
- **Square roots, logarithms and powers.** `sqrt`, `log10` and `10 ** x` are parameters. The level lemmas require `IsRoot`; the dB values appear only in log lines.
- **Logging and timing.** Printing and the `time.time()` measurements are left out: they do not affect results.
- **Collaborators.** The following are parameters of the model:
  - `load_noise_clip`, `record_segment`, `denoise` and `separate`;
  - model loading;
  - `torchaudio.load`, `os.makedirs` and `torch.save`.
- **Time.** `datetime.now()` is a parameter: `Pipeline.clock(i)` for repeat i, `BatchIO.timestamp` for the batch script.
- **Directory walk.** `os.walk` is the given sequence of `(root, files)` entries. Its traversal order is not modelled.
- **Paths and case.** Paths are POSIX. `str.lower` is modelled for ASCII letters only.
- Stereo.MonoToStereo: does not model the `float32` conversion of the numpy path. Inputs of rank 0 are not modelled: the tensor path gives shape (1, 2, 1) and the numpy path raises. Inputs of rank three or more are not modelled either: both paths raise on them.
- **Loop structure.** The repeat loop of `process_stream` is split into three methods (`ProcessStream`, `ProcessCycle`, `ProcessMic`), one per nested loop. Together they make the same calls in the same order.
- **Resample.Coordinator.** The `.to(DEVICE)` placement and the slot's use inside the separation model are not modelled. The class models the global slot only.
- **Scripts.** The `__main__` blocks are not modelled as programs. Their start-up order is `Resample.ConfigureThenResample`, and the batch entry point is `FolderConverter.ConvertAllAudioRecursively`.
