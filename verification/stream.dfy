/**
 * The real-time loop: for each repeat one segment is recorded and stamped,
 * and every microphone channel is denoised, level-adjusted and separated;
 * each separated source is handed to the feature writer together with the
 * microphone's part list. Nothing in the loop catches an exception, so the
 * first failure ends the whole stream.
 *
 * The specification is a `Run`: the save calls issued, in order, and the
 * error that ended the run, if any.
 */
module Stream {
  import opened Common
  import opened Config
  import Level
  import Mel

  /** One recorded block, channel-major: `segment[m]` is the column `audio[:, m]`. */
  type Segment = seq<seq<real>>

  /** Why a run stopped early. */
  datatype StreamError =
    | NoiseClipFailed
    | RecordFailed
    | DenoiseFailed
    | SeparateFailed
    | NoPartsForMic(mic: nat)
    | NoNameForSource(index: nat)
    | SaveFailed

  /**
   * The collaborators the loop calls, with None (or `Failed`) standing for
   * an exception: `noiseClip` is `load_noise_clip()`, `record(i)` the
   * segment captured in repeat `i`, `clock(i)` the timestamp text taken in
   * repeat `i`, `root(x)` the value `np.sqrt(np.mean(x ** 2))`, `separate`
   * the trained separator and `sourceNames` the names it reports. The
   * level target `10 ** (-18 / 20)` and the minor-branch bounds
   * `10 ** (-3 / 20)`, `10 ** (3 / 20)` are given as numbers.
   */
  datatype Pipeline = Pipeline(
    noiseClip: Option<seq<real>>,
    record: nat -> Option<Segment>,
    clock: nat -> string,
    denoise: (seq<real>, seq<real>) -> Option<seq<real>>,
    root: seq<real> -> real,
    separate: seq<real> -> Option<seq<Mel.Waveform>>,
    sourceNames: seq<string>,
    features: Mel.FeatureIO,
    targetRms: real,
    lo: real,
    hi: real)

  /** The save calls made, in order, and the error that stopped the run. */
  datatype Run = Run(calls: seq<Mel.SaveRequest>, error: Option<StreamError>)

  /** Sequencing: `b` runs only when `a` ended without an error. */
  function Then(a: Run, b: Run): (r: Run)
    ensures a.error.Some? ==> r == a
    ensures a.error.None? ==> r.calls == a.calls + b.calls && r.error == b.error
  {
    if a.error.Some? then a else Run(a.calls + b.calls, b.error)
  }

  lemma ThenAssoc(a: Run, b: Run, c: Run)
    ensures Then(Then(a, b), c) == Then(a, Then(b, c))
  {
    if a.error.None? && b.error.None? {
      assert (a.calls + b.calls) + c.calls == a.calls + (b.calls + c.calls);
    }
  }

  const Done := Run([], None)

  function Fail(e: StreamError): Run {
    Run([], Some(e))
  }

  /** `adaptive_level_adjust(clean, target_rms_db=-18.0)` with its default gain limit (20 dB) and threshold (0.7). */
  function LevelParams(p: Pipeline): Level.Params {
    Level.Params(p.targetRms, 10.0, 0.7, p.lo, p.hi)
  }

  function Adjust(p: Pipeline, clean: seq<real>): seq<real> {
    Level.AdaptiveLevelAdjust(clean, LevelParams(p), p.root(clean), p.root(Level.Compress(clean, 0.7)))
  }

  /** `root` returns the true RMS of every track, and the level parameters are in range. */
  ghost predicate ExactLevels(p: Pipeline) {
    LevelParams(p).Valid() && forall x :: Level.IsRoot(p.root(x), Level.MeanSquare(x))
  }

  /**
   * What the separator receives on each branch of the level adjustment: an
   * amplified track stays within the clip ceiling, a compressed track is at
   * the target RMS unless its compressed RMS is negligible, and a minor
   * adjustment stays within the compression threshold.
   */
  lemma AdjustedTrackFacts(p: Pipeline, clean: seq<real>)
    requires ExactLevels(p)
    ensures var branch := Level.SelectBranch(clean, p.root(clean), LevelParams(p));
      var r := Adjust(p, clean);
      && |r| == |clean|
      && (branch == Level.PassThrough ==> r == clean)
      && (branch == Level.Amplified ==> Level.Peak(r) <= Level.ClipCeiling)
      && (branch == Level.Compressed && p.root(Level.Compress(clean, 0.7)) > Level.SilenceFloor ==>
            Level.MeanSquare(r) == Level.Mul(p.targetRms, p.targetRms))
      && (branch == Level.MinorAdjusted ==> Level.Peak(r) <= 0.7)
  {
    var q := LevelParams(p);
    assert Level.IsRoot(p.root(clean), Level.MeanSquare(clean));
    assert Level.IsRoot(p.root(Level.Compress(clean, q.threshold)), Level.MeanSquare(Level.Compress(clean, q.threshold)));
    Level.AdaptiveLevelAdjustFacts(clean, q, p.root(clean), p.root(Level.Compress(clean, q.threshold)));
  }

  /** The request for source `k` of microphone `mic`. */
  function RequestFor(p: Pipeline, sources: seq<Mel.Waveform>, mic: nat, ts: string, parts: seq<string>, k: nat): Mel.SaveRequest
    requires k < |sources| && k < |p.sourceNames|
  {
    Mel.SaveRequest(sources[k], mic, p.sourceNames[k], ts, Some(parts))
  }

  /** One `save_mel_tensor` call; the call is made before it can fail. */
  function SaveStep(p: Pipeline, req: Mel.SaveRequest): Run {
    Run([req], if Mel.SaveMelTensor(req, p.features).Failed? then Some(SaveFailed) else None)
  }

  /** The source loop from index `k` on. */
  function SourcesFrom(p: Pipeline, sources: seq<Mel.Waveform>, mic: nat, ts: string, parts: seq<string>, k: nat): Run
    decreases |sources| - k
  {
    if k >= |sources| then Done
    else if k >= |p.sourceNames| then Fail(NoNameForSource(k))
    else Then(SaveStep(p, RequestFor(p, sources, mic, ts, parts, k)), SourcesFrom(p, sources, mic, ts, parts, k + 1))
  }

  /** The body of the microphone loop for channel `mic`. */
  function MicRun(p: Pipeline, clip: seq<real>, segment: Segment, mic: nat, ts: string): Run
    requires mic < |segment|
  {
    match p.denoise(segment[mic], clip)
    case None => Fail(DenoiseFailed)
    case Some(clean) =>
      match p.separate(Adjust(p, clean))
      case None => Fail(SeparateFailed)
      case Some(sources) =>
        if mic >= |CHANNEL_PARTS| then Fail(NoPartsForMic(mic))
        else SourcesFrom(p, sources, mic, ts, CHANNEL_PARTS[mic], 0)
  }

  /** The microphone loop from channel `m` on. */
  function MicsFrom(p: Pipeline, clip: seq<real>, segment: Segment, ts: string, m: nat): Run
    decreases |segment| - m
  {
    if m >= |segment| then Done
    else Then(MicRun(p, clip, segment, m, ts), MicsFrom(p, clip, segment, ts, m + 1))
  }

  /** Repeat `i`: record, take one timestamp, process every channel. */
  function CycleRun(p: Pipeline, clip: seq<real>, i: nat): Run {
    match p.record(i)
    case None => Fail(RecordFailed)
    case Some(segment) => MicsFrom(p, clip, segment, p.clock(i), 0)
  }

  /** The repeat loop from repeat `i` on. */
  function RepeatsFrom(p: Pipeline, clip: seq<real>, i: nat, n: nat): Run
    decreases n - i
  {
    if i >= n then Done
    else Then(CycleRun(p, clip, i), RepeatsFrom(p, clip, i + 1, n))
  }

  /** `process_stream(model, source_names, repeat=n)`. */
  function StreamRun(p: Pipeline, n: nat): Run {
    match p.noiseClip
    case None => Fail(NoiseClipFailed)
    case Some(clip) => RepeatsFrom(p, clip, 0, n)
  }

  // ---------------------------------------------------------------------
  // The loops

  /** Channel `mic` of one segment: denoise, adjust, separate, then one save call per source. */
  method ProcessMic(p: Pipeline, clip: seq<real>, segment: Segment, mic: nat, ts: string)
    returns (calls: seq<Mel.SaveRequest>, error: Option<StreamError>)
    requires mic < |segment|
    ensures Run(calls, error) == MicRun(p, clip, segment, mic, ts)
  {
    calls, error := [], None;
    var clean := p.denoise(segment[mic], clip);
    if clean.None? {
      error := Some(DenoiseFailed);
      return;
    }
    var adjusted := Adjust(p, clean.value);
    var sources := p.separate(adjusted);
    if sources.None? {
      error := Some(SeparateFailed);
      return;
    }
    if mic >= |CHANNEL_PARTS| {
      error := Some(NoPartsForMic(mic));
      return;
    }
    var parts := CHANNEL_PARTS[mic];
    assert MicRun(p, clip, segment, mic, ts) == SourcesFrom(p, sources.value, mic, ts, parts, 0);
    var k := 0;
    while k < |sources.value|
      invariant 0 <= k <= |sources.value|
      invariant Then(Run(calls, None), SourcesFrom(p, sources.value, mic, ts, parts, k))
        == SourcesFrom(p, sources.value, mic, ts, parts, 0)
      decreases |sources.value| - k
    {
      if k >= |p.sourceNames| {
        error := Some(NoNameForSource(k));
        return;
      }
      var req := RequestFor(p, sources.value, mic, ts, parts, k);
      var saved := Mel.SaveMelTensor(req, p.features);
      ThenAssoc(Run(calls, None), SaveStep(p, req), SourcesFrom(p, sources.value, mic, ts, parts, k + 1));
      calls := calls + [req];
      if saved.Failed? {
        error := Some(SaveFailed);
        return;
      }
      k := k + 1;
    }
  }

  /** One pass of the repeat loop: record, take the timestamp, then the microphone loop. */
  method ProcessCycle(p: Pipeline, clip: seq<real>, i: nat) returns (calls: seq<Mel.SaveRequest>, error: Option<StreamError>)
    ensures Run(calls, error) == CycleRun(p, clip, i)
  {
    calls, error := [], None;
    var segment := p.record(i);
    if segment.None? {
      error := Some(RecordFailed);
      return;
    }
    var ts := p.clock(i);
    var m := 0;
    while m < |segment.value|
      invariant 0 <= m <= |segment.value|
      invariant Then(Run(calls, None), MicsFrom(p, clip, segment.value, ts, m)) == MicsFrom(p, clip, segment.value, ts, 0)
      decreases |segment.value| - m
    {
      var micCalls, micError := ProcessMic(p, clip, segment.value, m, ts);
      ThenAssoc(Run(calls, None), Run(micCalls, micError), MicsFrom(p, clip, segment.value, ts, m + 1));
      calls := calls + micCalls;
      if micError.Some? {
        error := micError;
        return;
      }
      m := m + 1;
    }
  }

  /** `process_stream`: load the noise clip, then `repeat` passes, stopping at the first exception. */
  method ProcessStream(p: Pipeline, repeat: nat) returns (calls: seq<Mel.SaveRequest>, error: Option<StreamError>)
    ensures Run(calls, error) == StreamRun(p, repeat)
  {
    calls, error := [], None;
    if p.noiseClip.None? {
      error := Some(NoiseClipFailed);
      return;
    }
    var clip := p.noiseClip.value;
    var i := 0;
    while i < repeat
      invariant 0 <= i <= repeat
      invariant Then(Run(calls, None), RepeatsFrom(p, clip, i, repeat)) == StreamRun(p, repeat)
      decreases repeat - i
    {
      var cycleCalls, cycleError := ProcessCycle(p, clip, i);
      ThenAssoc(Run(calls, None), Run(cycleCalls, cycleError), RepeatsFrom(p, clip, i + 1, repeat));
      calls := calls + cycleCalls;
      if cycleError.Some? {
        error := cycleError;
        return;
      }
      i := i + 1;
    }
  }

  // ---------------------------------------------------------------------
  // Properties

  /** Routing within one microphone: call `j` carries source `k + j`, its reported name, the microphone, the timestamp and the part list. */
  predicate RoutedFrom(r: Run, p: Pipeline, sources: seq<Mel.Waveform>, mic: nat, ts: string, parts: seq<string>, k: nat) {
    && (k <= |sources| ==> |r.calls| <= |sources| - k)
    && (forall j :: 0 <= j < |r.calls| ==> RoutedCall(r, p, sources, mic, ts, parts, k, j))
    && (r.error.None? && k <= |sources| ==> |r.calls| == |sources| - k)
  }

  /** Call `j` of `r` is the request for source `k + j`. */
  predicate RoutedCall(r: Run, p: Pipeline, sources: seq<Mel.Waveform>, mic: nat, ts: string, parts: seq<string>, k: nat, j: nat)
    requires j < |r.calls|
  {
    k + j < |sources| && k + j < |p.sourceNames| && r.calls[j] == RequestFor(p, sources, mic, ts, parts, k + j)
  }

  lemma {:induction false} SourcesRouting(p: Pipeline, sources: seq<Mel.Waveform>, mic: nat, ts: string, parts: seq<string>, k: nat)
    ensures RoutedFrom(SourcesFrom(p, sources, mic, ts, parts, k), p, sources, mic, ts, parts, k)
    decreases |sources| - k
  {
    if k < |sources| && k < |p.sourceNames| {
      var req := RequestFor(p, sources, mic, ts, parts, k);
      var step := SaveStep(p, req);
      var rest := SourcesFrom(p, sources, mic, ts, parts, k + 1);
      var r := SourcesFrom(p, sources, mic, ts, parts, k);
      assert r == Then(step, rest);
      if step.error.None? {
        SourcesRouting(p, sources, mic, ts, parts, k + 1);
        assert RoutedFrom(rest, p, sources, mic, ts, parts, k + 1);
        assert r.calls == [req] + rest.calls;
        assert |r.calls| == 1 + |rest.calls| && r.error == rest.error;
        assert |rest.calls| <= |sources| - (k + 1);
        assert rest.error.None? ==> |rest.calls| == |sources| - (k + 1);
        forall j | 0 <= j < |r.calls|
          ensures RoutedCall(r, p, sources, mic, ts, parts, k, j)
        {
          if j > 0 {
            assert RoutedCall(rest, p, sources, mic, ts, parts, k + 1, j - 1);
            assert (k + 1) + (j - 1) == k + j;
            assert r.calls[j] == rest.calls[j - 1];
          } else {
            assert r.calls[0] == req;
          }
        }
        assert RoutedFrom(r, p, sources, mic, ts, parts, k);
      }
    }
  }

  /**
   * A channel that is denoised and separated and has a part list issues one
   * call per separated source, each with that channel's index and
   * `CHANNEL_PARTS[mic]`; all of them when none fails.
   */
  lemma MicRouting(p: Pipeline, clip: seq<real>, segment: Segment, mic: nat, ts: string)
    requires mic < |segment| && mic < |CHANNEL_PARTS|
    requires p.denoise(segment[mic], clip).Some?
    requires p.separate(Adjust(p, p.denoise(segment[mic], clip).value)).Some?
    ensures RoutedFrom(MicRun(p, clip, segment, mic, ts), p,
      p.separate(Adjust(p, p.denoise(segment[mic], clip).value)).value, mic, ts, CHANNEL_PARTS[mic], 0)
  {
    var sources := p.separate(Adjust(p, p.denoise(segment[mic], clip).value)).value;
    assert MicRun(p, clip, segment, mic, ts) == SourcesFrom(p, sources, mic, ts, CHANNEL_PARTS[mic], 0);
    SourcesRouting(p, sources, mic, ts, CHANNEL_PARTS[mic], 0);
  }

  /** A channel index with no entry in `CHANNEL_PARTS` raises after separation, before any save call. */
  lemma UnmappedMicRaises(p: Pipeline, clip: seq<real>, segment: Segment, mic: nat, ts: string)
    requires mic < |segment| && mic >= |CHANNEL_PARTS|
    requires p.denoise(segment[mic], clip).Some?
    requires p.separate(Adjust(p, p.denoise(segment[mic], clip).value)).Some?
    ensures MicRun(p, clip, segment, mic, ts) == Fail(NoPartsForMic(mic))
  {
  }

  lemma {:induction false} MicsFromFail(p: Pipeline, clip: seq<real>, segment: Segment, ts: string, m: nat)
    requires m <= |CHANNEL_PARTS| < |segment|
    ensures MicsFrom(p, clip, segment, ts, m).error.Some?
    decreases |CHANNEL_PARTS| - m
  {
    var first := MicRun(p, clip, segment, m, ts);
    if first.error.None? {
      assert m < |CHANNEL_PARTS|;
      MicsFromFail(p, clip, segment, ts, m + 1);
    }
  }

  /** A segment with more channels than `CHANNEL_PARTS` has entries can never complete its repeat. */
  lemma TooManyChannelsFails(p: Pipeline, clip: seq<real>, i: nat)
    requires p.record(i).Some? && |p.record(i).value| > |CHANNEL_PARTS|
    ensures CycleRun(p, clip, i).error.Some?
  {
    MicsFromFail(p, clip, p.record(i).value, p.clock(i), 0);
  }

  /** Every call of one repeat carries that repeat's single timestamp and a channel index of its segment. */
  lemma {:induction false} MicsShareTimestamp(p: Pipeline, clip: seq<real>, segment: Segment, ts: string, m: nat)
    ensures forall req :: req in MicsFrom(p, clip, segment, ts, m).calls ==>
      req.timestamp == ts && m <= req.micIdx < |segment| && req.micIdx < |CHANNEL_PARTS| &&
      req.partsToSave == Some(CHANNEL_PARTS[req.micIdx])
    decreases |segment| - m
  {
    if m < |segment| {
      MicsShareTimestamp(p, clip, segment, ts, m + 1);
      var first := MicRun(p, clip, segment, m, ts);
      var clean := p.denoise(segment[m], clip);
      if clean.Some? && p.separate(Adjust(p, clean.value)).Some? && m < |CHANNEL_PARTS| {
        var sources := p.separate(Adjust(p, clean.value)).value;
        MicRouting(p, clip, segment, m, ts);
        forall req | req in first.calls
          ensures req.timestamp == ts && req.micIdx == m && req.partsToSave == Some(CHANNEL_PARTS[m])
        {
          var j :| 0 <= j < |first.calls| && first.calls[j] == req;
          assert RoutedCall(first, p, sources, m, ts, CHANNEL_PARTS[m], 0, j);
        }
      }
    }
  }

  lemma CycleSharesTimestamp(p: Pipeline, clip: seq<real>, i: nat)
    requires p.record(i).Some?
    ensures forall req :: req in CycleRun(p, clip, i).calls ==>
      req.timestamp == p.clock(i) && req.micIdx < |p.record(i).value| && req.micIdx < |CHANNEL_PARTS| &&
      req.partsToSave == Some(CHANNEL_PARTS[req.micIdx])
  {
    MicsShareTimestamp(p, clip, p.record(i).value, p.clock(i), 0);
  }

  /**
   * The stream ends without error exactly when the noise clip loads and
   * every repeat completes; one failing channel ends every later channel
   * and repeat too.
   */
  lemma {:induction false} RepeatsSucceed(p: Pipeline, clip: seq<real>, i: nat, n: nat)
    ensures RepeatsFrom(p, clip, i, n).error.None? <==>
      forall j :: i <= j < n ==> CycleRun(p, clip, j).error.None?
    decreases n - i
  {
    if i < n {
      RepeatsSucceed(p, clip, i + 1, n);
    }
  }

  lemma StreamSucceeds(p: Pipeline, n: nat)
    ensures StreamRun(p, n).error.None? <==>
      p.noiseClip.Some? && forall j :: 0 <= j < n ==> CycleRun(p, p.noiseClip.value, j).error.None?
  {
    if p.noiseClip.Some? {
      RepeatsSucceed(p, p.noiseClip.value, 0, n);
    }
  }

  /** With the configured routing table each of the five configured sources is kept for exactly one microphone. */
  lemma PartsPartitionSources()
    ensures |CHANNEL_PARTS| == CHANNELS
    ensures forall name :: name in SOURCES ==>
      (Mel.Keeps(Some(CHANNEL_PARTS[0]), name) <==> !Mel.Keeps(Some(CHANNEL_PARTS[1]), name))
    ensures forall name :: Mel.Keeps(Some(CHANNEL_PARTS[0]), name) <==> name == "fan" || name == "pump"
    ensures forall name :: Mel.Keeps(Some(CHANNEL_PARTS[1]), name) <==> name == "bearing" || name == "gearbox" || name == "slider"
  {
  }
}
