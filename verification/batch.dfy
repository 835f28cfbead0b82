/**
 * Offline conversion of a folder tree of recordings into numbered feature
 * files. Each directory's audio files are taken in sorted order; each file
 * is loaded, mixed down to one channel, brought to the capture rate and
 * saved as `<folder><count:03d>`, where the count belongs to the folder's
 * basename and is shared by every directory with that basename. A failure
 * in one file is reported and the next file is taken.
 */
module Batch {
  import opened Common
  import opened Config
  import opened Paths
  import Decimal
  import Sorting
  import Mel

  /** `MIC_IDX`: every converted file is saved as microphone 0. */
  const MIC_IDX: nat := 0

  /** One step of `os.walk`: a directory and the names of the files directly in it. */
  datatype WalkEntry = WalkEntry(root: string, files: seq<string>)

  /** What `torchaudio.load` returns: channel-major samples and their sample rate. */
  datatype Loaded = Loaded(channels: seq<seq<real>>, rate: nat)

  /**
   * The effects the conversion depends on: `load` is `torchaudio.load`
   * (None when it raises), `resample` applies a `Resample` transform (None
   * when it raises), `features` stands for `save_mel_tensor`'s own effects
   * and `timestamp` is `TIMESTAMP_STR`, taken once when the script starts.
   */
  datatype BatchIO = BatchIO(
    load: string -> Option<Loaded>,
    resample: (Resampling, seq<seq<real>>) -> Option<seq<seq<real>>>,
    features: Mel.FeatureIO,
    timestamp: string)

  /** How one file ended. `Numbered` files took counter value `number`; `saved` is false when `save_mel_tensor` raised. */
  datatype Outcome = LoadFailed | ResampleFailed | Numbered(number: nat, saved: bool)

  /** The report printed for one file, which names `os.path.join(root, file)`. */
  datatype FileReport = FileReport(folder: string, root: string, file: string, outcome: Outcome)

  /** `folder_counts` and the reports so far. */
  datatype BatchState = BatchState(counts: map<string, nat>, reports: seq<FileReport>)

  const Start := BatchState(map[], [])

  /** The name a numbered file is saved under. */
  function NumberedName(folder: string, number: nat): string {
    folder + Decimal.ZeroPad3(number)
  }

  // ---------------------------------------------------------------------
  // File selection

  /** `f.lower().endswith(('.wav', '.mp3', '.flac'))`. */
  predicate IsAudioName(f: string) {
    var l := Lower(f);
    EndsWith(l, ".wav") || EndsWith(l, ".mp3") || EndsWith(l, ".flac")
  }

  function FilterAudio(files: seq<string>): (r: seq<string>)
    ensures forall f :: f in r <==> f in files && IsAudioName(f)
    ensures multiset(r) <= multiset(files)
    ensures forall f :: multiset(r)[f] == if IsAudioName(f) then multiset(files)[f] else 0
  {
    if files == [] then []
    else
      assert files == [files[0]] + files[1..];
      (if IsAudioName(files[0]) then [files[0]] else []) + FilterAudio(files[1..])
  }

  /** `sorted([f for f in files if ...])`: exactly the audio files, in ascending order, each as often as listed. */
  function AudioFiles(files: seq<string>): (r: seq<string>)
    ensures Sorting.Sorted(r)
    ensures forall f :: f in r <==> f in files && IsAudioName(f)
    ensures multiset(r) == multiset(FilterAudio(files))
    ensures forall f :: multiset(r)[f] == if IsAudioName(f) then multiset(files)[f] else 0
  {
    var r := Sorting.Sort(FilterAudio(files));
    assert forall f :: f in r <==> f in multiset(r);
    r
  }

  /** The extension test ignores letter case: a name and its lower-cased form are both audio names or neither. */
  lemma AudioNameIgnoresCase(f: string)
    ensures IsAudioName(f) <==> IsAudioName(Lower(f))
  {
    LowerFacts(f);
  }

  /** Whether a walk entry is passed over: no audio files, or the same basename as the input folder. */
  predicate Skipped(inputFolder: string, e: WalkEntry) {
    AudioFiles(e.files) == [] || Basename(e.root) == Basename(inputFolder)
  }

  // ---------------------------------------------------------------------
  // One file

  /** The column sums of equal-length channels. */
  function ColumnSum(channels: seq<seq<real>>, t: nat): real {
    if channels == [] then 0.0
    else (if t < |channels[0]| then channels[0][t] else 0.0) + ColumnSum(channels[1..], t)
  }

  /** `waveform.mean(dim=0, keepdim=True)` over a `[channels, time]` waveform. */
  function ChannelMean(channels: seq<seq<real>>): (r: seq<seq<real>>)
    requires |channels| > 0
    ensures |r| == 1 && |r[0]| == |channels[0]|
  {
    [seq(|channels[0]|, t requires 0 <= t < |channels[0]| => ColumnSum(channels, t) / |channels| as real)]
  }

  /** Mixing down: only input with more than one channel is averaged. */
  function MixDown(channels: seq<seq<real>>): (r: seq<seq<real>>)
    ensures |channels| > 1 ==> |r| == 1
    ensures |channels| <= 1 ==> r == channels
  {
    if |channels| > 1 then ChannelMean(channels) else channels
  }

  /** The waveform handed to the feature writer, or None when resampling raised. */
  function Conditioned(l: Loaded, io: BatchIO): Option<seq<seq<real>>> {
    var mono := MixDown(l.channels);
    if l.rate != SAMPLE_RATE then io.resample(Resampling(l.rate, SAMPLE_RATE), mono) else Some(mono)
  }

  /** The `save_mel_tensor` call for a numbered file. */
  function SaveRequestFor(waveform: seq<seq<real>>, name: string, io: BatchIO): Mel.SaveRequest {
    Mel.SaveRequest(Mel.Matrix(waveform), MIC_IDX, name, io.timestamp, None)
  }

  /** How a file at `path` ends when its folder's counter stands at `count`. */
  function FileOutcome(path: string, folder: string, count: nat, io: BatchIO): Outcome {
    match io.load(path)
    case None => LoadFailed
    case Some(loaded) =>
      match Conditioned(loaded, io)
      case None => ResampleFailed
      case Some(waveform) =>
        Numbered(count, Mel.SaveMelTensor(SaveRequestFor(waveform, NumberedName(folder, count), io), io.features).Written?)
  }

  /** Records a file's report; a numbered file has taken its folder's counter, which moves on by one. */
  function Record(st: BatchState, report: FileReport): BatchState
    requires report.folder in st.counts
  {
    var counts := if report.outcome.Numbered? then st.counts[report.folder := st.counts[report.folder] + 1] else st.counts;
    BatchState(counts, st.reports + [report])
  }

  /** The body of the file loop. */
  function FileStep(st: BatchState, folder: string, root: string, file: string, io: BatchIO): BatchState
    requires folder in st.counts
  {
    Record(st, FileReport(folder, root, file, FileOutcome(Join(root, file), folder, st.counts[folder], io)))
  }

  /** The file loop over `files`. */
  function FilesRun(st: BatchState, folder: string, root: string, files: seq<string>, io: BatchIO): BatchState
    requires folder in st.counts
    decreases |files|
  {
    if files == [] then st
    else
      var next := FileStep(st, folder, root, files[0], io);
      FilesRun(next, folder, root, files[1..], io)
  }

  /** `folder_counts.setdefault(folder, 1)`. */
  function SetDefault(counts: map<string, nat>, folder: string): (r: map<string, nat>)
    ensures folder in r
    ensures folder in counts ==> r == counts
    ensures folder !in counts ==> r == counts[folder := 1]
  {
    if folder in counts then counts else counts[folder := 1]
  }

  /** The body of the walk loop. */
  function EntryStep(st: BatchState, inputFolder: string, e: WalkEntry, io: BatchIO): BatchState {
    if Skipped(inputFolder, e) then st
    else
      var folder := Basename(e.root);
      FilesRun(BatchState(SetDefault(st.counts, folder), st.reports), folder, e.root, AudioFiles(e.files), io)
  }

  function WalkRun(st: BatchState, inputFolder: string, walk: seq<WalkEntry>, io: BatchIO): BatchState
    decreases |walk|
  {
    if walk == [] then st
    else WalkRun(EntryStep(st, inputFolder, walk[0], io), inputFolder, walk[1..], io)
  }

  /** `convert_all_audio_recursively(input_folder)` over a given walk. */
  function ConvertAll(inputFolder: string, walk: seq<WalkEntry>, io: BatchIO): BatchState {
    WalkRun(Start, inputFolder, walk, io)
  }

  // ---------------------------------------------------------------------
  // Properties of one file

  /** How many of `reports` took a number. */
  function CountNumbered(reports: seq<FileReport>): (n: nat)
    ensures n <= |reports|
  {
    if reports == [] then 0
    else (if reports[0].outcome.Numbered? then 1 else 0) + CountNumbered(reports[1..])
  }

  /** The count is zero exactly when no file took a number, and is every report exactly when all did. */
  lemma {:induction false} CountNumberedExtremes(reports: seq<FileReport>)
    ensures CountNumbered(reports) == 0 <==> forall i :: 0 <= i < |reports| ==> !reports[i].outcome.Numbered?
    ensures CountNumbered(reports) == |reports| <==> forall i :: 0 <= i < |reports| ==> reports[i].outcome.Numbered?
  {
    if reports != [] {
      var tail := reports[1..];
      CountNumberedExtremes(tail);
      assert forall i :: 1 <= i < |reports| ==> reports[i] == tail[i - 1];
    }
  }

  /**
   * One file adds one report and touches only its own folder's counter: a
   * file that fails to load or to resample leaves it as it was; a file that
   * gets that far takes the current value and advances it by one, whether
   * or not the save that follows succeeds.
   */
  lemma FileStepCounter(st: BatchState, folder: string, root: string, file: string, io: BatchIO)
    requires folder in st.counts
    ensures var r := FileStep(st, folder, root, file, io);
      var path := Join(root, file);
      && r.reports[..|st.reports|] == st.reports
      && |r.reports| == |st.reports| + 1
      && r.reports == st.reports + [r.reports[|st.reports|]]
      && r.reports[|st.reports|].folder == folder
      && r.reports[|st.reports|].root == root && r.reports[|st.reports|].file == file
      && r.counts.Keys == st.counts.Keys
      && (forall f :: f in st.counts && f != folder ==> r.counts[f] == st.counts[f])
      && (r.reports[|st.reports|].outcome.Numbered? <==>
            io.load(path).Some? && Conditioned(io.load(path).value, io).Some?)
      && (r.reports[|st.reports|].outcome.Numbered? ==>
            r.reports[|st.reports|].outcome.number == st.counts[folder] &&
            r.counts == st.counts[folder := st.counts[folder] + 1])
      && (!r.reports[|st.reports|].outcome.Numbered? ==> r.counts == st.counts)
      && (io.load(path).None? ==> r.reports[|st.reports|].outcome == LoadFailed)
  {
    var path := Join(root, file);
    var outcome := FileOutcome(path, folder, st.counts[folder], io);
    FileOutcomeCases(path, folder, st.counts[folder], io);
    RecordFacts(st, FileReport(folder, root, file, outcome));
  }

  lemma FileOutcomeCases(path: string, folder: string, count: nat, io: BatchIO)
    ensures var o := FileOutcome(path, folder, count, io);
      && (o.Numbered? <==> io.load(path).Some? && Conditioned(io.load(path).value, io).Some?)
      && (o.Numbered? ==> o.number == count)
      && (io.load(path).None? ==> o == LoadFailed)
  {
  }

  lemma RecordFacts(st: BatchState, report: FileReport)
    requires report.folder in st.counts
    ensures var r := Record(st, report);
      && r.reports[..|st.reports|] == st.reports
      && |r.reports| == |st.reports| + 1
      && r.reports == st.reports + [report]
      && r.reports[|st.reports|] == report
      && r.counts.Keys == st.counts.Keys
      && (forall f :: f in st.counts && f != report.folder ==> r.counts[f] == st.counts[f])
      && (report.outcome.Numbered? ==> r.counts == st.counts[report.folder := st.counts[report.folder] + 1])
      && (!report.outcome.Numbered? ==> r.counts == st.counts)
  {
  }

  /** A numbered file is always written, never filtered: microphone 0, no part list, under its numbered name. */
  lemma NumberedFileSaved(waveform: seq<seq<real>>, name: string, io: BatchIO)
    ensures var r := Mel.SaveMelTensor(SaveRequestFor(waveform, name, io), io.features);
      && r != Mel.Skipped
      && (r.Written? ==> r.path == Mel.OutputPath(io.timestamp, 0, name))
  {
    Mel.NoFilterWithoutParts(SaveRequestFor(waveform, name, io), io.features);
  }

  lemma {:induction false} ColumnSumCopies(channels: seq<seq<real>>, x: seq<real>, t: nat)
    requires t < |x| && forall c :: 0 <= c < |channels| ==> channels[c] == x
    ensures ColumnSum(channels, t) == |channels| as real * x[t]
    decreases |channels|
  {
    if channels != [] {
      ColumnSumCopies(channels[1..], x, t);
      var n := |channels[1..]| as real;
      assert ColumnSum(channels, t) == x[t] + n * x[t];
      assert (n + 1.0) * x[t] == n * x[t] + x[t];
    }
  }

  /** Averaging channels that all carry the same signal gives back that signal as one channel. */
  lemma MixDownIdentical(channels: seq<seq<real>>, x: seq<real>)
    requires |channels| > 1 && forall c :: 0 <= c < |channels| ==> channels[c] == x
    ensures MixDown(channels) == [x]
  {
    var m := ChannelMean(channels)[0];
    assert channels[0] == x;
    forall t | 0 <= t < |x| ensures m[t] == x[t] {
      ColumnSumCopies(channels, x, t);
      var k := |channels| as real;
      assert m[t] == (k * x[t]) / k;
      DivCancel(k, x[t]);
    }
    assert m == x;
  }

  /** A two-channel file is mixed down to the sample-wise average of its channels, not to either channel. */
  lemma MixDownStereo(x: seq<real>, y: seq<real>)
    requires |x| == |y|
    ensures MixDown([x, y]) == [seq(|x|, t requires 0 <= t < |x| => (x[t] + y[t]) / 2.0)]
  {
    var m := ChannelMean([x, y])[0];
    var avg := seq(|x|, t requires 0 <= t < |x| => (x[t] + y[t]) / 2.0);
    forall t | 0 <= t < |x| ensures m[t] == avg[t] {
      assert [x, y][1..] == [y];
      assert [y][1..] == [];
      assert ColumnSum([], t) == 0.0;
      assert ColumnSum([y], t) == y[t];
      assert ColumnSum([x, y], t) == x[t] + y[t];
    }
    assert m == avg;
  }

  /**
   * `setdefault` adds the folder with counter 1 only when it is missing,
   * keeps every existing entry, and a second call changes nothing.
   */
  lemma SetDefaultFacts(counts: map<string, nat>, folder: string)
    ensures SetDefault(counts, folder).Keys == counts.Keys + {folder}
    ensures forall f :: f in counts ==> SetDefault(counts, folder)[f] == counts[f]
    ensures SetDefault(SetDefault(counts, folder), folder) == SetDefault(counts, folder)
    ensures (forall f :: f in counts ==> counts[f] >= 1) ==> SetDefault(counts, folder)[folder] >= 1
  {
  }

  lemma DivCancel(k: real, v: real)
    requires k != 0.0
    ensures (k * v) / k == v
  {
  }

  /**
   * Counters belong to basenames and the padding only guarantees three
   * digits, so two different folders can produce the same name: the
   * 1001st file of `x` and the first file of `x1` are both `x1001`.
   */
  lemma NamesCollideAcrossFolders()
    ensures NumberedName("x", 1001) == NumberedName("x1", 1) == "x1001"
  {
    assert Decimal.NatToString(1) == "1";
    assert Decimal.NatToString(10) == "10";
    assert Decimal.NatToString(100) == "100";
    assert Decimal.NatToString(1001) == "1001";
    assert Decimal.ZeroPad3(1) == "001" by {
      assert Decimal.Zeros(2) == "00";
    }
  }

  // ---------------------------------------------------------------------
  // Properties of one directory

  /** The file loop appends one report per file, in order, and keeps the earlier reports. */
  predicate Extends(st: BatchState, r: BatchState, folder: string, root: string, files: seq<string>) {
    && |r.reports| == |st.reports| + |files|
    && r.reports[..|st.reports|] == st.reports
    && (forall i :: |st.reports| <= i < |r.reports| ==>
          r.reports[i].folder == folder && r.reports[i].root == root && r.reports[i].file == files[i - |st.reports|])
  }

  /** Numbers handed out since `st` are consecutive from `st`'s counter, which ends advanced past them. */
  predicate Counted(st: BatchState, r: BatchState, folder: string)
    requires folder in st.counts && |st.reports| <= |r.reports|
  {
    && r.counts.Keys == st.counts.Keys
    && (forall f :: f in st.counts && f != folder ==> r.counts[f] == st.counts[f])
    && r.counts[folder] == st.counts[folder] + CountNumbered(r.reports[|st.reports|..])
    && (forall i :: |st.reports| <= i < |r.reports| && r.reports[i].outcome.Numbered? ==>
          r.reports[i].outcome.number == st.counts[folder] + CountNumbered(r.reports[|st.reports|..i]))
  }

  predicate NumberedRun(st: BatchState, r: BatchState, folder: string, root: string, files: seq<string>)
    requires folder in st.counts
  {
    Extends(st, r, folder, root, files) && Counted(st, r, folder)
  }

  lemma FileStepRun(st: BatchState, folder: string, root: string, file: string, io: BatchIO)
    requires folder in st.counts
    ensures NumberedRun(st, FileStep(st, folder, root, file, io), folder, root, [file])
  {
    var outcome := FileOutcome(Join(root, file), folder, st.counts[folder], io);
    FileOutcomeCases(Join(root, file), folder, st.counts[folder], io);
    RecordRun(st, FileReport(folder, root, file, outcome));
  }

  /** Recording one report whose number, if any, is its folder's counter is a numbered run of one file. */
  lemma RecordRun(st: BatchState, report: FileReport)
    requires report.folder in st.counts
    requires report.outcome.Numbered? ==> report.outcome.number == st.counts[report.folder]
    ensures NumberedRun(st, Record(st, report), report.folder, report.root, [report.file])
  {
    var r := Record(st, report);
    RecordFacts(st, report);
    var n := |st.reports|;
    assert r.reports[n..] == [report];
    CountNumberedCons(report, []);
    assert r.reports[n..n] == [];
  }

  lemma CountNumberedCons(a: FileReport, rest: seq<FileReport>)
    ensures CountNumbered([a] + rest) == (if a.outcome.Numbered? then 1 else 0) + CountNumbered(rest)
  {
    assert ([a] + rest)[1..] == rest;
  }

  /**
   * The file loop reports every file, in order, whatever fails, and hands
   * out consecutive numbers: the k-th added report, if numbered, gets the
   * counter's starting value plus the number of numbered reports before it,
   * and the counter ends advanced by the number of numbered reports.
   */
  lemma {:induction false} FilesRunNumbering(st: BatchState, folder: string, root: string, files: seq<string>, io: BatchIO)
    requires folder in st.counts
    ensures NumberedRun(st, FilesRun(st, folder, root, files, io), folder, root, files)
    decreases |files|
  {
    var r := FilesRun(st, folder, root, files, io);
    var n := |st.reports|;
    if files == [] {
      assert r.reports[n..] == [];
    } else {
      var next := FileStep(st, folder, root, files[0], io);
      FileStepRun(st, folder, root, files[0], io);
      assert files[..1] == [files[0]];
      assert folder in next.counts;
      assert r == FilesRun(next, folder, root, files[1..], io);
      FilesRunNumbering(next, folder, root, files[1..], io);
      FilesStepJoin(st, next, r, folder, root, files);
    }
  }

  /** The induction step of `FilesRunNumbering`: one file followed by the rest. */
  lemma FilesStepJoin(st: BatchState, next: BatchState, r: BatchState, folder: string, root: string, files: seq<string>)
    requires folder in st.counts && files != []
    requires NumberedRun(st, next, folder, root, files[..1])
    requires folder in next.counts
    requires NumberedRun(next, r, folder, root, files[1..])
    ensures NumberedRun(st, r, folder, root, files)
  {
    ExtendsJoin(st, next, r, folder, root, files);
    CountedJoin(st, next, r, folder);
  }

  lemma ExtendsJoin(st: BatchState, next: BatchState, r: BatchState, folder: string, root: string, files: seq<string>)
    requires files != []
    requires Extends(st, next, folder, root, files[..1])
    requires Extends(next, r, folder, root, files[1..])
    ensures Extends(st, r, folder, root, files)
  {
    var n := |st.reports|;
    assert r.reports[..n] == st.reports by {
      assert r.reports[..n] == r.reports[..n + 1][..n];
      assert r.reports[..n + 1] == next.reports;
    }
    forall i | n <= i < |r.reports|
      ensures r.reports[i].folder == folder && r.reports[i].root == root && r.reports[i].file == files[i - n]
    {
      if i > n {
        assert files[i - n] == files[1..][i - (n + 1)];
      } else {
        assert r.reports[n] == next.reports[n];
      }
    }
  }

  lemma SliceCons<T>(s: seq<T>, lo: nat, hi: nat)
    requires lo < hi <= |s|
    ensures s[lo..hi] == [s[lo]] + s[lo + 1..hi]
  {
  }

  lemma CountedJoin(st: BatchState, next: BatchState, r: BatchState, folder: string)
    requires folder in st.counts && folder in next.counts
    requires |next.reports| == |st.reports| + 1 && |r.reports| >= |next.reports|
    requires r.reports[..|next.reports|] == next.reports
    requires Counted(st, next, folder)
    requires Counted(next, r, folder)
    ensures Counted(st, r, folder)
  {
    var n := |st.reports|;
    var first := next.reports[n];
    assert r.reports[n] == first by {
      assert r.reports[n] == r.reports[..n + 1][n];
    }
    var rest := r.reports[n + 1..];
    assert r.reports[n..] == [first] + rest;
    assert next.reports[n..] == [first];
    CountNumberedCons(first, []);
    CountNumberedCons(first, rest);
    forall i | n <= i < |r.reports| && r.reports[i].outcome.Numbered?
      ensures r.reports[i].outcome.number == st.counts[folder] + CountNumbered(r.reports[n..i])
    {
      if i > n {
        SliceCons(r.reports, n, i);
        CountNumberedCons(first, r.reports[n + 1..i]);
      } else {
        assert r.reports[n..n] == [];
        assert next.reports[n..n] == [];
      }
    }
  }

  // ---------------------------------------------------------------------
  // Properties of the whole walk

  /**
   * A directory without audio files, or whose basename is the input
   * folder's (the top folder, and any other directory of that name), adds
   * nothing and changes no counter. Any other directory reports each of its
   * audio files in sorted order, and its basename's counter carries on from
   * its value so far, or from 1 for a basename not seen before.
   */
  lemma EntryNumbering(st: BatchState, inputFolder: string, e: WalkEntry, io: BatchIO)
    ensures Skipped(inputFolder, e) ==> EntryStep(st, inputFolder, e, io) == st
    ensures !Skipped(inputFolder, e) ==>
      var folder := Basename(e.root);
      var begin := BatchState(SetDefault(st.counts, folder), st.reports);
      && begin.counts[folder] == (if folder in st.counts then st.counts[folder] else 1)
      && NumberedRun(begin, EntryStep(st, inputFolder, e, io), folder, e.root, AudioFiles(e.files))
  {
    if !Skipped(inputFolder, e) {
      var folder := Basename(e.root);
      FilesRunNumbering(BatchState(SetDefault(st.counts, folder), st.reports), folder, e.root, AudioFiles(e.files), io);
    }
  }

  /**
   * The numbering invariant: every counter is at least 1, every number
   * handed out lies below its folder's counter, and the numbers of one
   * folder increase along the reports.
   */
  predicate NumberingValid(st: BatchState) {
    && (forall f :: f in st.counts ==> st.counts[f] >= 1)
    && (forall i :: 0 <= i < |st.reports| && st.reports[i].outcome.Numbered? ==>
          st.reports[i].folder in st.counts &&
          1 <= st.reports[i].outcome.number < st.counts[st.reports[i].folder])
    && (forall i, j ::
          (0 <= i < j < |st.reports| && st.reports[i].outcome.Numbered? && st.reports[j].outcome.Numbered? &&
           st.reports[i].folder == st.reports[j].folder) ==>
          st.reports[i].outcome.number < st.reports[j].outcome.number)
  }

  lemma FileStepValid(st: BatchState, folder: string, root: string, file: string, io: BatchIO)
    requires NumberingValid(st) && folder in st.counts
    ensures NumberingValid(FileStep(st, folder, root, file, io))
  {
    var outcome := FileOutcome(Join(root, file), folder, st.counts[folder], io);
    FileOutcomeCases(Join(root, file), folder, st.counts[folder], io);
    RecordValid(st, FileReport(folder, root, file, outcome));
  }

  /** Recording a report keeps the invariant when a numbered report carries its folder's current counter. */
  lemma RecordValid(st: BatchState, report: FileReport)
    requires NumberingValid(st) && report.folder in st.counts
    requires report.outcome.Numbered? ==> report.outcome.number == st.counts[report.folder]
    ensures NumberingValid(Record(st, report))
  {
    AppendValid(st, Record(st, report), report);
  }

  /** Appending one report keeps the invariant when a numbered report takes its folder's counter and advances it. */
  lemma AppendValid(st: BatchState, r: BatchState, last: FileReport)
    requires NumberingValid(st)
    requires r.reports == st.reports + [last]
    requires !last.outcome.Numbered? ==> r.counts == st.counts
    requires last.outcome.Numbered? ==>
      last.folder in st.counts && last.outcome.number == st.counts[last.folder] &&
      r.counts == st.counts[last.folder := st.counts[last.folder] + 1]
    ensures NumberingValid(r)
  {
    var n := |st.reports|;
    forall i | 0 <= i < n ensures r.reports[i] == st.reports[i] {
    }
    assert r.reports[n] == last;
  }

  lemma {:induction false} FilesRunValid(st: BatchState, folder: string, root: string, files: seq<string>, io: BatchIO)
    requires NumberingValid(st) && folder in st.counts
    ensures NumberingValid(FilesRun(st, folder, root, files, io))
    decreases |files|
  {
    if files != [] {
      var next := FileStep(st, folder, root, files[0], io);
      FileStepValid(st, folder, root, files[0], io);
      FileStepCounter(st, folder, root, files[0], io);
      FilesRunValid(next, folder, root, files[1..], io);
    }
  }

  lemma {:induction false} WalkRunValid(st: BatchState, inputFolder: string, walk: seq<WalkEntry>, io: BatchIO)
    requires NumberingValid(st)
    ensures NumberingValid(WalkRun(st, inputFolder, walk, io))
    decreases |walk|
  {
    if walk != [] {
      EntryStepValid(st, inputFolder, walk[0], io);
      WalkRunValid(EntryStep(st, inputFolder, walk[0], io), inputFolder, walk[1..], io);
    }
  }

  lemma EntryStepValid(st: BatchState, inputFolder: string, e: WalkEntry, io: BatchIO)
    requires NumberingValid(st)
    ensures NumberingValid(EntryStep(st, inputFolder, e, io))
  {
    if !Skipped(inputFolder, e) {
      var folder := Basename(e.root);
      var begin := BatchState(SetDefault(st.counts, folder), st.reports);
      assert NumberingValid(begin);
      FilesRunValid(begin, folder, e.root, AudioFiles(e.files), io);
    }
  }

  lemma NumberedNameInjective(folder: string, a: nat, b: nat)
    requires NumberedName(folder, a) == NumberedName(folder, b)
    ensures a == b
  {
    assert Decimal.ZeroPad3(a) == NumberedName(folder, a)[|folder|..];
    assert Decimal.ZeroPad3(b) == NumberedName(folder, b)[|folder|..];
    Decimal.ZeroPad3Injective(a, b);
  }

  /**
   * Within one run, two different numbered files of the same folder
   * basename never share a name (and so never a feature file), however many
   * directories carry that basename and whatever failed in between.
   */
  lemma NamesDistinctPerFolder(inputFolder: string, walk: seq<WalkEntry>, io: BatchIO)
    ensures var r := ConvertAll(inputFolder, walk, io);
      forall i, j ::
        (0 <= i < j < |r.reports| && r.reports[i].outcome.Numbered? && r.reports[j].outcome.Numbered? &&
         r.reports[i].folder == r.reports[j].folder) ==>
        NumberedName(r.reports[i].folder, r.reports[i].outcome.number) !=
        NumberedName(r.reports[j].folder, r.reports[j].outcome.number)
  {
    var r := ConvertAll(inputFolder, walk, io);
    WalkRunValid(Start, inputFolder, walk, io);
    forall i, j | 0 <= i < j < |r.reports| && r.reports[i].outcome.Numbered? && r.reports[j].outcome.Numbered? &&
        r.reports[i].folder == r.reports[j].folder
      ensures NumberedName(r.reports[i].folder, r.reports[i].outcome.number) !=
        NumberedName(r.reports[j].folder, r.reports[j].outcome.number)
    {
      if NumberedName(r.reports[i].folder, r.reports[i].outcome.number) ==
         NumberedName(r.reports[j].folder, r.reports[j].outcome.number) {
        NumberedNameInjective(r.reports[i].folder, r.reports[i].outcome.number, r.reports[j].outcome.number);
      }
    }
  }

  // ---------------------------------------------------------------------
  // The imperative converter

  class FolderConverter {
    var counts: map<string, nat>
    var reports: seq<FileReport>

    function State(): BatchState
      reads this
    {
      BatchState(counts, reports)
    }

    constructor()
      ensures State() == Start
    {
      counts, reports := map[], [];
    }

    /** Loops over the walk and, inside, over each kept directory's audio files. */
    method ConvertAllAudioRecursively(inputFolder: string, walk: seq<WalkEntry>, io: BatchIO)
      modifies this
      ensures State() == ConvertAll(inputFolder, walk, io)
    {
      counts, reports := map[], [];
      var k := 0;
      while k < |walk|
        invariant 0 <= k <= |walk|
        invariant WalkRun(State(), inputFolder, walk[k..], io) == ConvertAll(inputFolder, walk, io)
        decreases |walk| - k
      {
        assert walk[k..][1..] == walk[k + 1..];
        ghost var before := State();
        var e := walk[k];
        var files := AudioFiles(e.files);
        var folder := Basename(e.root);
        if files != [] && folder != Basename(inputFolder) {
          counts := SetDefault(counts, folder);
          ConvertFolder(folder, e.root, files, io);
        }
        assert State() == EntryStep(before, inputFolder, e, io);
        k := k + 1;
      }
    }

    /** The file loop over one directory's sorted audio files. */
    method ConvertFolder(folder: string, root: string, files: seq<string>, io: BatchIO)
      requires folder in counts
      modifies this
      ensures State() == FilesRun(old(State()), folder, root, files, io)
    {
      ghost var before := State();
      var j := 0;
      while j < |files|
        invariant 0 <= j <= |files|
        invariant folder in counts
        invariant FilesRun(State(), folder, root, files[j..], io) == FilesRun(before, folder, root, files, io)
        decreases |files| - j
      {
        assert files[j..][1..] == files[j + 1..];
        ProcessFile(folder, root, files[j], io);
        j := j + 1;
      }
    }

    /** The body of the file loop: the file's outcome is recorded, and a numbered file advances its folder's counter. */
    method ProcessFile(folder: string, root: string, file: string, io: BatchIO)
      requires folder in counts
      modifies this
      ensures folder in counts
      ensures State() == FileStep(old(State()), folder, root, file, io)
    {
      ghost var st := State();
      var count := counts[folder];
      // The source advances the counter just before the save call; the save's
      // result does not affect the counter, so advancing it after is the same.
      var outcome := ConvertFile(Join(root, file), folder, count, io);
      var report := FileReport(folder, root, file, outcome);
      if outcome.Numbered? {
        counts := counts[folder := count + 1];
      }
      reports := reports + [report];
      assert State() == Record(st, report);
    }
  }

  /** The `try` block of the file loop: load, mix down, resample, save under the numbered name. */
  method ConvertFile(path: string, folder: string, count: nat, io: BatchIO) returns (outcome: Outcome)
    ensures outcome == FileOutcome(path, folder, count, io)
  {
    var loaded := io.load(path);
    if loaded.None? {
      return LoadFailed;
    }
    var waveform := loaded.value.channels;
    if |waveform| > 1 {
      waveform := ChannelMean(waveform);
    }
    if loaded.value.rate != SAMPLE_RATE {
      var resampled := io.resample(Resampling(loaded.value.rate, SAMPLE_RATE), waveform);
      if resampled.None? {
        return ResampleFailed;
      }
      waveform := resampled.value;
    }
    var name := NumberedName(folder, count);
    var result := Mel.SaveMelTensor(SaveRequestFor(waveform, name, io), io.features);
    outcome := Numbered(count, result.Written?);
  }
}
