/**
 * The shaping and routing around feature extraction: which separated
 * sources are kept, which channel reaches the mel transform, whether it is
 * resampled first, how the resulting tensor is padded and cut to
 * `MEL_SIZE`, and where it is written. The mel, dB, z-score and
 * interpolation arithmetic is one collaborator; the file write another.
 */
module Mel {
  import opened Common
  import opened Config
  import opened Paths
  import Decimal

  /** A tensor of rank 1 (`Vector`) or rank 2 (`Matrix`, one row per channel). */
  datatype Waveform = Vector(samples: seq<real>) | Matrix(rows: seq<seq<real>>)

  /** What reaches the mel transform: the selected input and the resampling applied to it first. */
  datatype Prepared = Prepared(input: Waveform, resampling: Option<Resampling>)

  /** One channel of a feature tensor: rows of columns. */
  type Plane = seq<seq<real>>

  /** A feature tensor `[channels, rows, columns]`. */
  type Feature = seq<Plane>

  /** The arguments of `save_mel_tensor`. */
  datatype SaveRequest = SaveRequest(
    source: Waveform,
    micIdx: nat,
    sourceName: string,
    timestamp: string,
    partsToSave: Option<seq<string>>)

  /**
   * The effects `save_mel_tensor` depends on: `spectrogram` is the mel
   * transform, dB conversion, both z-score normalisations and the bilinear
   * resize (None when any of them raises); `store` is `os.makedirs`
   * followed by `torch.save` (false when either raises).
   */
  datatype FeatureIO = FeatureIO(
    spectrogram: Prepared -> Option<Feature>,
    store: (string, Feature) -> bool)

  /** How one call ends: filtered out, raised, or wrote `feature` to `path`. */
  datatype MelResult = Skipped | Failed | Written(path: string, feature: Feature)

  /** Whether the parts filter lets `name` through. */
  predicate Keeps(partsToSave: Option<seq<string>>, name: string) {
    match partsToSave
    case None => true
    case Some(parts) => name in parts
  }

  /** A rank-2 input with more than one row is cut to its first row; anything else passes as is. */
  function SelectFirstChannel(w: Waveform): (r: Waveform)
    ensures w.Matrix? && |w.rows| > 1 ==> r == Matrix([w.rows[0]])
    ensures !(w.Matrix? && |w.rows| > 1) ==> r == w
  {
    if w.Matrix? && |w.rows| > 1 then Matrix([w.rows[0]]) else w
  }

  /** The resampling chosen from the configuration alone, whatever the input's real rate. */
  function MelResampling(): Option<Resampling> {
    if SAMPLE_RATE != MEL_SAMPLE_RATE then Some(Resampling(SAMPLE_RATE, MEL_SAMPLE_RATE)) else None
  }

  function ZeroRow(k: nat): (z: seq<real>)
    ensures |z| == k && forall i :: 0 <= i < k ==> z[i] == 0.0
  {
    seq(k, _ => 0.0)
  }

  /** `F.pad(row, (0, max(0, n - len)))`: zeros appended on the right up to length `n`. */
  function PadRow(row: seq<real>, n: nat): (r: seq<real>)
    ensures |r| == if |row| < n then n else |row|
    ensures r[..|row|] == row
    ensures forall i :: |row| <= i < |r| ==> r[i] == 0.0
  {
    if |row| < n then row + ZeroRow(n - |row|) else row
  }

  /** Padding of the last axis of every row of every channel to `MEL_SIZE[0]`. */
  function PadLastAxis(f: Feature): (r: Feature)
    ensures |r| == |f| && forall c :: 0 <= c < |f| ==> |r[c]| == |f[c]|
  {
    seq(|f|, c requires 0 <= c < |f| =>
      seq(|f[c]|, i requires 0 <= i < |f[c]| => PadRow(f[c][i], MEL_SIZE.0)))
  }

  /** `mel[:, :MEL_SIZE[0]]`: a prefix of the second axis, the rows of each channel. */
  function TruncateRows(f: Feature): (r: Feature)
    ensures |r| == |f|
  {
    seq(|f|, c requires 0 <= c < |f| => if |f[c]| <= MEL_SIZE.0 then f[c] else f[c][..MEL_SIZE.0])
  }

  /** The size correction applied before saving: pad, then cut. */
  function FitToMelSize(f: Feature): Feature {
    TruncateRows(PadLastAxis(f))
  }

  /** `os.path.join(OUTPUT_FOLDER, timestamp_str, f"mic_{mic_idx}")`. */
  function OutputFolder(timestamp: string, mic: nat): string {
    Join(Join(OUTPUT_FOLDER, timestamp), "mic_" + Decimal.NatToString(mic))
  }

  /** `os.path.join(folder, f"{source_name}.pt")`. */
  function OutputPath(timestamp: string, mic: nat, name: string): string {
    Join(OutputFolder(timestamp, mic), name + ".pt")
  }

  /** What the mel transform is given for a request. */
  function Prepare(source: Waveform): (p: Prepared)
    ensures p.input == SelectFirstChannel(source) && p.resampling == MelResampling()
  {
    Prepared(SelectFirstChannel(source), MelResampling())
  }

  /** `save_mel_tensor(source_tensor, mic_idx, source_name, timestamp_str, parts_to_save)`. */
  function SaveMelTensor(req: SaveRequest, io: FeatureIO): (r: MelResult)
    ensures r == Skipped <==> !Keeps(req.partsToSave, req.sourceName)
    ensures r.Written? ==>
      && io.spectrogram(Prepare(req.source)).Some?
      && r.path == OutputPath(req.timestamp, req.micIdx, req.sourceName)
      && r.feature == FitToMelSize(io.spectrogram(Prepare(req.source)).value)
    ensures Keeps(req.partsToSave, req.sourceName) && io.spectrogram(Prepare(req.source)).None? ==> r == Failed
    ensures Keeps(req.partsToSave, req.sourceName) && io.spectrogram(Prepare(req.source)).Some? ==>
      (r.Written? <==> io.store(OutputPath(req.timestamp, req.micIdx, req.sourceName),
                                FitToMelSize(io.spectrogram(Prepare(req.source)).value)))
  {
    if !Keeps(req.partsToSave, req.sourceName) then Skipped
    else
      match io.spectrogram(Prepare(req.source))
      case None => Failed
      case Some(mel) =>
        var feature := FitToMelSize(mel);
        var path := OutputPath(req.timestamp, req.micIdx, req.sourceName);
        if io.store(path, feature) then Written(path, feature) else Failed
  }

  // ---------------------------------------------------------------------
  // Filter, channel and resampling

  /**
   * A source outside a given parts list is skipped before anything is
   * computed or written: the outcome is the same whatever the collaborators do.
   */
  lemma SkipIgnoresEffects(req: SaveRequest, io1: FeatureIO, io2: FeatureIO)
    requires req.partsToSave.Some? && req.sourceName !in req.partsToSave.value
    ensures SaveMelTensor(req, io1) == SaveMelTensor(req, io2) == Skipped
  {
  }

  /** Without a parts list no source is skipped, and a successful computation and write yields `Written`. */
  lemma NoFilterWithoutParts(req: SaveRequest, io: FeatureIO)
    requires req.partsToSave.None?
    ensures SaveMelTensor(req, io) != Skipped
    ensures io.spectrogram(Prepare(req.source)).Some? &&
      io.store(OutputPath(req.timestamp, req.micIdx, req.sourceName),
               FitToMelSize(io.spectrogram(Prepare(req.source)).value))
      ==> SaveMelTensor(req, io).Written?
  {
  }

  /**
   * Channel selection never averages: the rows that reach the transform are
   * rows of the input, and a multi-row input keeps exactly one row.
   */
  lemma FirstChannelIsInputRow(w: Waveform)
    requires w.Matrix?
    ensures SelectFirstChannel(w).Matrix?
    ensures forall row :: row in SelectFirstChannel(w).rows ==> row in w.rows
    ensures |w.rows| > 1 ==> |SelectFirstChannel(w).rows| == 1
    ensures SelectFirstChannel(SelectFirstChannel(w)) == SelectFirstChannel(w)
  {
  }

  /** With the configured rates the input is always resampled from 44100 Hz to 16000 Hz. */
  lemma ResamplesFromCaptureRate(source: Waveform)
    ensures Prepare(source).resampling == Some(Resampling(44100, 16000))
  {
  }

  // ---------------------------------------------------------------------
  // Size correction

  /**
   * After the size correction every channel keeps the first
   * `min(rows, 240)` rows, and every row is its old values followed by zeros
   * up to 240 columns; rows longer than 240 are kept whole.
   */
  lemma FitShape(f: Feature)
    ensures var r := FitToMelSize(f);
      && |r| == |f|
      && forall c :: 0 <= c < |f| ==>
        && |r[c]| == (if |f[c]| <= 240 then |f[c]| else 240)
        && forall i :: 0 <= i < |r[c]| ==>
          && |r[c][i]| == (if |f[c][i]| < 240 then 240 else |f[c][i]|)
          && r[c][i][..|f[c][i]|] == f[c][i]
          && (forall j :: |f[c][i]| <= j < |r[c][i]| ==> r[c][i][j] == 0.0)
  {
    var p := PadLastAxis(f);
    var r := FitToMelSize(f);
    forall c | 0 <= c < |f|
      ensures |r[c]| == (if |f[c]| <= 240 then |f[c]| else 240)
      ensures forall i :: 0 <= i < |r[c]| ==> r[c][i] == PadRow(f[c][i], 240)
    {
      assert |p[c]| == |f[c]|;
      forall i | 0 <= i < |r[c]| ensures r[c][i] == PadRow(f[c][i], 240) {
        assert r[c][i] == p[c][i];
      }
    }
  }

  /** A row at most 240 wide becomes exactly 240 wide; a wider row is not cut, since the cut is on the row axis. */
  lemma FitRowWidth(f: Feature, c: nat, i: nat)
    requires c < |f| && i < |f[c]| && i < 240
    ensures |f[c][i]| <= 240 ==> |FitToMelSize(f)[c][i]| == 240
    ensures |f[c][i]| > 240 ==> FitToMelSize(f)[c][i] == f[c][i]
  {
    FitShape(f);
  }

  /** Correcting the size twice is the same as once. */
  lemma FitIdempotent(f: Feature)
    ensures FitToMelSize(FitToMelSize(f)) == FitToMelSize(f)
  {
    var r := FitToMelSize(f);
    var rr := FitToMelSize(r);
    FitShape(f);
    FitShape(r);
    forall c | 0 <= c < |r| ensures rr[c] == r[c] {
      forall i | 0 <= i < |r[c]| ensures rr[c][i] == r[c][i] {
        assert |r[c][i]| >= 240;
        assert rr[c][i][..|r[c][i]|] == r[c][i];
      }
    }
  }

  /** A tensor already 240 columns wide with at most 240 rows per channel is saved unchanged. */
  lemma FitIdentity(f: Feature)
    requires forall c :: 0 <= c < |f| ==> |f[c]| <= 240
    requires forall c, i :: 0 <= c < |f| && 0 <= i < |f[c]| ==> |f[c][i]| == 240
    ensures FitToMelSize(f) == f
  {
    var r := FitToMelSize(f);
    FitShape(f);
    forall c | 0 <= c < |f| ensures r[c] == f[c] {
      forall i | 0 <= i < |f[c]| ensures r[c][i] == f[c][i] {
        assert r[c][i][..|f[c][i]|] == f[c][i];
      }
    }
  }

  // ---------------------------------------------------------------------
  // Output path

  /**
   * For a non-empty timestamp and names without '/', the file lands at
   * `output/<timestamp>/mic_<idx>/<name>.pt`.
   */
  lemma OutputPathForm(timestamp: string, mic: nat, name: string)
    requires timestamp != [] && '/' !in timestamp && '/' !in name
    ensures OutputPath(timestamp, mic, name)
      == OUTPUT_FOLDER + "/" + timestamp + "/" + ("mic_" + Decimal.NatToString(mic)) + "/" + (name + ".pt")
  {
    var digits := Decimal.NatToString(mic);
    var micPart := "mic_" + digits;
    var file := name + ".pt";
    JoinSeparated(OUTPUT_FOLDER, timestamp);
    var folder := OUTPUT_FOLDER + "/" + timestamp;
    assert folder[|folder| - 1] == timestamp[|timestamp| - 1];
    assert micPart[0] == 'm';
    JoinSeparated(folder, micPart);
    var micFolder := folder + "/" + micPart;
    assert micFolder[|micFolder| - 1] == digits[|digits| - 1];
    assert Decimal.IsDigit(digits[|digits| - 1]);
    assert file[0] != '/' by {
      if name != [] { assert file[0] == name[0]; } else { assert file[0] == '.'; }
    }
    JoinSeparated(micFolder, file);
  }

  lemma DigitsHaveNoSlash(mic: nat)
    ensures '/' !in "mic_" + Decimal.NatToString(mic)
  {
    var s := "mic_" + Decimal.NatToString(mic);
    forall i | 0 <= i < |s| ensures s[i] != '/' {
      if i >= 4 {
        assert s[i] == Decimal.NatToString(mic)[i - 4];
        assert Decimal.IsDigit(s[i]);
      }
    }
  }

  /**
   * Distinct (timestamp, microphone, source) triples never share a file:
   * the path determines all three, for timestamps and names without '/'.
   */
  lemma OutputPathInjective(t1: string, m1: nat, n1: string, t2: string, m2: nat, n2: string)
    requires t1 != [] && '/' !in t1 && '/' !in n1
    requires t2 != [] && '/' !in t2 && '/' !in n2
    requires OutputPath(t1, m1, n1) == OutputPath(t2, m2, n2)
    ensures t1 == t2 && m1 == m2 && n1 == n2
  {
    OutputPathForm(t1, m1, n1);
    OutputPathForm(t2, m2, n2);
    var d1, d2 := "mic_" + Decimal.NatToString(m1), "mic_" + Decimal.NatToString(m2);
    DigitsHaveNoSlash(m1);
    DigitsHaveNoSlash(m2);
    assert '/' !in n1 + ".pt" && '/' !in n2 + ".pt";
    SplitAtLastSlash(OUTPUT_FOLDER + "/" + t1 + "/" + d1, n1 + ".pt", OUTPUT_FOLDER + "/" + t2 + "/" + d2, n2 + ".pt");
    SplitAtLastSlash(OUTPUT_FOLDER + "/" + t1, d1, OUTPUT_FOLDER + "/" + t2, d2);
    SplitAtLastSlash(OUTPUT_FOLDER, t1, OUTPUT_FOLDER, t2);
    assert Decimal.NatToString(m1) == d1[4..] == d2[4..] == Decimal.NatToString(m2);
    Decimal.NatToStringInjective(m1, m2);
    assert n1 == (n1 + ".pt")[..|n1|] && n2 == (n2 + ".pt")[..|n2|];
  }
}
