/**
 * The adaptive level controller applied to each denoised microphone track
 * before separation. Samples are reals; the values the implementation gets
 * from `sqrt`, `log10` and `**` are parameters whose defining relations are
 * stated as preconditions of the lemmas.
 */
module Level {
  import opened Common

  /** Below this RMS a track counts as silent (1e-8). */
  const SilenceFloor: real := 0.00000001

  /** Clip guard of the amplify branch. */
  const ClipCeiling: real := 0.95

  /** Soft-knee compression ratio. */
  const CompressionRatio: real := 3.0

  /**
   * The controller's settings as linear factors: `targetRms` is
   * 10^(target_rms_db/20), `maxGainFactor` is 10^(max_gain_db/20),
   * `lo` and `hi` are 10^(-3/20) and 10^(3/20).
   */
  datatype Params = Params(targetRms: real, maxGainFactor: real, threshold: real, lo: real, hi: real)
  {
    predicate Valid() {
      targetRms > 0.0 && maxGainFactor >= 1.0 && 0.0 <= threshold <= 1.0 && 0.0 < lo < 1.0 < hi
    }
  }

  function Abs(x: real): real { if x < 0.0 then -x else x }

  /** `np.sign`. */
  function Sign(x: real): real { if x > 0.0 then 1.0 else if x < 0.0 then -1.0 else 0.0 }

  /**
   * The product of a sample (or a level) and a gain. It is named so that the
   * scaling lemmas below state their facts about the very terms the
   * definitions produce.
   */
  function Mul(a: real, b: real): real { a * b }

  /** The quotient `a / b`, named for the same reason as `Mul`. */
  function Ratio(a: real, b: real): real
    requires b != 0.0
  {
    a / b
  }

  function SumSquares(s: seq<real>): real {
    if s == [] then 0.0 else Mul(s[0], s[0]) + SumSquares(s[1..])
  }

  /** `np.mean(x ** 2)`, taken as 0 for an empty track. */
  function MeanSquare(s: seq<real>): real {
    if |s| == 0 then 0.0 else Ratio(SumSquares(s), |s| as real)
  }

  /** `r` is the square root of `x`. */
  predicate IsRoot(r: real, x: real) { r >= 0.0 && Mul(r, r) == x }

  /** `np.max(np.abs(s))`, taken as 0 for an empty track. */
  function Peak(s: seq<real>): (m: real)
    ensures m >= 0.0
    ensures forall i :: 0 <= i < |s| ==> Abs(s[i]) <= m
    ensures |s| > 0 ==> exists i :: 0 <= i < |s| && Abs(s[i]) == m
  {
    if s == [] then 0.0
    else
      var rest := Peak(s[1..]);
      assert forall i :: 1 <= i < |s| ==> s[i] == s[1..][i - 1];
      if Abs(s[0]) >= rest then Abs(s[0]) else rest
  }

  /** `s * g`: every sample multiplied by the same gain. */
  function Scale(s: seq<real>, g: real): (r: seq<real>)
    ensures |r| == |s|
  {
    seq(|s|, i requires 0 <= i < |s| => Mul(s[i], g))
  }

  /** Soft-knee map of one sample: magnitudes above `t` keep a third of their excess. */
  function CompressSample(x: real, t: real): real {
    if Abs(x) > t then Sign(x) * (t + (Abs(x) - t) / CompressionRatio) else x
  }

  /** The masked write into `np.copy(audio)`. */
  function Compress(s: seq<real>, t: real): (r: seq<real>)
    ensures |r| == |s|
  {
    seq(|s|, i requires 0 <= i < |s| => CompressSample(s[i], t))
  }

  /** `min(target_rms / current_rms, max_gain_factor)`. */
  function AmplifyGain(rms: real, p: Params): (g: real)
    requires rms > 0.0
    ensures g <= Ratio(p.targetRms, rms) && g <= p.maxGainFactor
    ensures g == Ratio(p.targetRms, rms) || g == p.maxGainFactor
    ensures p.Valid() && rms < p.targetRms ==> 1.0 <= g
  {
    Min(Ratio(p.targetRms, rms), p.maxGainFactor)
  }

  /** The amplify branch: gain, then rescale to the clip ceiling when the scaled peak exceeds it. */
  function Amplify(audio: seq<real>, rms: real, p: Params): seq<real>
    requires rms > 0.0
  {
    var adjusted := Scale(audio, AmplifyGain(rms, p));
    var newMax := Peak(adjusted);
    if newMax > ClipCeiling then Scale(adjusted, Ratio(ClipCeiling, newMax)) else adjusted
  }

  /** The combined gain of the amplify branch (the linear form of `actual_gain`). */
  function ActualGain(audio: seq<real>, rms: real, p: Params): real
    requires rms > 0.0
  {
    var g := AmplifyGain(rms, p);
    var newMax := Peak(Scale(audio, g));
    if newMax > ClipCeiling then Mul(Ratio(ClipCeiling, newMax), g) else g
  }

  /** The compression branch: soft-knee map, then rescale to the target RMS when the new RMS is not negligible. */
  function CompressAndNormalize(audio: seq<real>, newRms: real, p: Params): seq<real> {
    var compressed := Compress(audio, p.threshold);
    if newRms > SilenceFloor then Scale(compressed, Ratio(p.targetRms, newRms)) else compressed
  }

  /** `np.clip(target_rms / current_rms, lo, hi)`. */
  function MinorGain(rms: real, p: Params): (g: real)
    requires rms > 0.0
    ensures p.lo <= p.hi ==> p.lo <= g <= p.hi
    ensures p.lo <= Ratio(p.targetRms, rms) <= p.hi ==> g == Ratio(p.targetRms, rms)
    ensures p.lo <= p.hi && Ratio(p.targetRms, rms) < p.lo ==> g == p.lo
    ensures p.lo <= p.hi && Ratio(p.targetRms, rms) > p.hi ==> g == p.hi
  {
    Min(Max(Ratio(p.targetRms, rms), p.lo), p.hi)
  }

  datatype Branch = PassThrough | Amplified | Compressed | MinorAdjusted

  /** Which of the controller's branches handles a track. */
  function SelectBranch(audio: seq<real>, rms: real, p: Params): (b: Branch)
    ensures b == PassThrough <==> |audio| == 0 || rms < SilenceFloor
    ensures b == Amplified <==> |audio| > 0 && SilenceFloor <= rms < p.targetRms
    ensures b == Compressed <==>
      |audio| > 0 && SilenceFloor <= rms && p.targetRms <= rms && Peak(audio) > p.threshold
    ensures b == MinorAdjusted <==>
      |audio| > 0 && SilenceFloor <= rms && p.targetRms <= rms && Peak(audio) <= p.threshold
  {
    if |audio| == 0 || rms < SilenceFloor then PassThrough
    else if rms < p.targetRms then Amplified
    else if Peak(audio) > p.threshold then Compressed
    else MinorAdjusted
  }

  /**
   * `adaptive_level_adjust(audio, ...)` where `rms` is the input's RMS and
   * `newRms` the RMS of its soft-knee compressed copy.
   */
  function AdaptiveLevelAdjust(audio: seq<real>, p: Params, rms: real, newRms: real): (r: seq<real>)
    ensures |r| == |audio|
    ensures |audio| == 0 || rms < SilenceFloor ==> r == audio
  {
    match SelectBranch(audio, rms, p)
    case PassThrough => audio
    case Amplified => Amplify(audio, rms, p)
    case Compressed => CompressAndNormalize(audio, newRms, p)
    case MinorAdjusted => Scale(audio, MinorGain(rms, p))
  }

  // ---------------------------------------------------------------------
  // Facts about single values

  lemma MulLe(a: real, b: real, g: real)
    requires g >= 0.0 && a <= b
    ensures Mul(a, g) <= Mul(b, g)
  {
    assert (b - a) * g >= 0.0;
  }

  lemma MulLt(a: real, b: real, g: real)
    requires g > 0.0 && a < b
    ensures Mul(a, g) < Mul(b, g)
  {
    assert (b - a) * g > 0.0;
  }

  lemma AbsMul(x: real, g: real)
    requires g >= 0.0
    ensures Abs(Mul(x, g)) == Mul(Abs(x), g)
  {
    if x < 0.0 {
      assert x * g <= 0.0;
    }
  }

  lemma SignMul(x: real, g: real)
    requires g > 0.0
    ensures Sign(Mul(x, g)) == Sign(x)
  {
    if x < 0.0 {
      MulLt(x, 0.0, g);
    } else if x > 0.0 {
      MulLt(0.0, x, g);
    }
  }

  lemma MulAssoc(x: real, a: real, b: real)
    ensures Mul(Mul(x, a), b) == Mul(x, Mul(a, b))
  {
  }

  /** The larger of two levels, each scaled by `g`, is the larger level scaled by `g`. */
  lemma MaxMul(x: real, y: real, p: real, q: real, m: real, g: real)
    requires g >= 0.0 && y == Mul(x, g) && q == Mul(p, g)
    requires m == (if Abs(x) >= p then Abs(x) else p)
    ensures (if Abs(y) >= q then Abs(y) else q) == Mul(m, g)
  {
    AbsMul(x, g);
    if Abs(x) >= p { MulLe(p, Abs(x), g); } else { MulLe(Abs(x), p, g); }
  }

  lemma SquareMul(x: real, y: real, r: real, rs: real, g: real)
    requires y == Mul(x, g) && rs == Mul(Mul(g, g), r)
    ensures Mul(y, y) + rs == Mul(Mul(g, g), Mul(x, x) + r)
  {
    assert (x * g) * (x * g) == (g * g) * (x * x);
  }

  lemma MulDiv(k: real, sum: real, n: real)
    requires n > 0.0
    ensures Ratio(Mul(k, sum), n) == Mul(k, Ratio(sum, n))
  {
    var q := sum / n;
    assert q * n == sum;
    assert (k * q) * n == k * sum;
  }

  lemma NormalizeValues(k: real, r: real, target: real)
    requires r > 0.0 && k == Ratio(target, r)
    ensures Mul(Mul(k, k), Mul(r, r)) == Mul(target, target)
  {
    assert k * r == target;
    assert (k * k) * (r * r) == (k * r) * (k * r);
  }

  /** How `a / b` for positive `a`, `b` compares with 0 and 1. */
  lemma RatioFacts(a: real, b: real)
    requires a > 0.0 && b > 0.0
    ensures Ratio(a, b) > 0.0
    ensures a <= b ==> Ratio(a, b) <= 1.0
    ensures a > b ==> Ratio(a, b) > 1.0
  {
  }

  lemma ClipValues(newMax: real)
    requires newMax > ClipCeiling
    ensures 0.0 < Ratio(ClipCeiling, newMax) < 1.0
    ensures Mul(newMax, Ratio(ClipCeiling, newMax)) == ClipCeiling
  {
  }

  // ---------------------------------------------------------------------
  // Peak and RMS under a gain

  lemma PeakCons(s: seq<real>)
    requires s != []
    ensures Peak(s) == (if Abs(s[0]) >= Peak(s[1..]) then Abs(s[0]) else Peak(s[1..]))
  {
  }

  lemma SumSquaresCons(s: seq<real>)
    requires s != []
    ensures SumSquares(s) == Mul(s[0], s[0]) + SumSquares(s[1..])
  {
  }

  lemma ScaleTail(s: seq<real>, g: real)
    requires s != []
    ensures Scale(s, g)[1..] == Scale(s[1..], g)
    ensures Scale(s, g)[0] == Mul(s[0], g)
  {
    forall i | 0 <= i < |s| - 1 ensures Scale(s, g)[1..][i] == Scale(s[1..], g)[i] { }
  }

  /** A non-negative gain scales the peak by the same factor. */
  lemma {:induction false} PeakScale(s: seq<real>, g: real)
    requires g >= 0.0
    ensures Peak(Scale(s, g)) == Mul(Peak(s), g)
    decreases |s|
  {
    if s != [] {
      var t := Scale(s, g);
      PeakScale(s[1..], g);
      ScaleTail(s, g);
      PeakCons(s);
      PeakCons(t);
      MaxMul(s[0], t[0], Peak(s[1..]), Peak(t[1..]), Peak(s), g);
    }
  }

  /** Applying two gains in turn is applying their product. */
  lemma ScaleTwice(s: seq<real>, a: real, b: real)
    ensures Scale(Scale(s, a), b) == Scale(s, Mul(a, b))
  {
    forall i | 0 <= i < |s| ensures Scale(Scale(s, a), b)[i] == Scale(s, Mul(a, b))[i] {
      MulAssoc(s[i], a, b);
    }
  }

  lemma {:induction false} SumSquaresScale(s: seq<real>, g: real)
    ensures SumSquares(Scale(s, g)) == Mul(Mul(g, g), SumSquares(s))
    decreases |s|
  {
    if s == [] {
      assert Scale(s, g) == [];
    } else {
      var t := Scale(s, g);
      SumSquaresScale(s[1..], g);
      ScaleTail(s, g);
      SumSquaresCons(s);
      SumSquaresCons(t);
      SquareMul(s[0], t[0], SumSquares(s[1..]), SumSquares(t[1..]), g);
    }
  }

  /** Scaling by `g` multiplies the mean square by `g * g`. */
  lemma MeanSquareScale(s: seq<real>, g: real)
    ensures MeanSquare(Scale(s, g)) == Mul(Mul(g, g), MeanSquare(s))
  {
    SumSquaresScale(s, g);
    if |s| > 0 {
      MulDiv(Mul(g, g), SumSquares(s), |s| as real);
    }
  }

  /** Rescaling a track whose RMS is `r > 0` by `target / r` gives it the RMS `target`. */
  lemma NormalizedMeanSquare(s: seq<real>, r: real, target: real)
    requires r > 0.0 && IsRoot(r, MeanSquare(s))
    ensures MeanSquare(Scale(s, Ratio(target, r))) == Mul(target, target)
  {
    MeanSquareScale(s, Ratio(target, r));
    NormalizeValues(Ratio(target, r), r, target);
  }

  // ---------------------------------------------------------------------
  // Amplify branch

  /**
   * When the gained peak exceeds the clip ceiling, the amplify branch
   * rescales to exactly the ceiling, and the combined gain is positive and
   * below the first gain.
   */
  lemma AmplifyClipped(audio: seq<real>, rms: real, p: Params)
    requires p.Valid() && rms > 0.0
    requires Peak(Scale(audio, AmplifyGain(rms, p))) > ClipCeiling
    ensures Amplify(audio, rms, p) == Scale(audio, ActualGain(audio, rms, p))
    ensures 0.0 < ActualGain(audio, rms, p) < AmplifyGain(rms, p)
    ensures Peak(Amplify(audio, rms, p)) == ClipCeiling
  {
    var g := AmplifyGain(rms, p);
    RatioFacts(p.targetRms, rms);
    var adjusted := Scale(audio, g);
    var newMax := Peak(adjusted);
    var c := Ratio(ClipCeiling, newMax);
    ClipValues(newMax);
    assert Amplify(audio, rms, p) == Scale(adjusted, c);
    ScaleTwice(audio, g, c);
    assert ActualGain(audio, rms, p) == Mul(c, g) == Mul(g, c);
    PeakScale(adjusted, c);
    assert Peak(Scale(adjusted, c)) == Mul(newMax, c) == ClipCeiling;
    MulLt(c, 1.0, g);
    MulLt(0.0, c, g);
  }

  /**
   * The amplify branch applies one gain to every sample, that gain is
   * positive and at most `maxGainFactor`, and the output peak never exceeds
   * the clip ceiling; when the gained peak would exceed it, the output peak
   * is exactly the ceiling, and otherwise the gain is `AmplifyGain`.
   */
  lemma AmplifyClipGuard(audio: seq<real>, rms: real, p: Params)
    requires p.Valid() && rms > 0.0
    ensures Amplify(audio, rms, p) == Scale(audio, ActualGain(audio, rms, p))
    ensures 0.0 < ActualGain(audio, rms, p) <= p.maxGainFactor
    ensures Peak(Amplify(audio, rms, p)) <= ClipCeiling
    ensures Mul(Peak(audio), AmplifyGain(rms, p)) > ClipCeiling ==> Peak(Amplify(audio, rms, p)) == ClipCeiling
    ensures Mul(Peak(audio), AmplifyGain(rms, p)) <= ClipCeiling ==> ActualGain(audio, rms, p) == AmplifyGain(rms, p)
  {
    var g := AmplifyGain(rms, p);
    RatioFacts(p.targetRms, rms);
    PeakScale(audio, g);
    if Peak(Scale(audio, g)) > ClipCeiling {
      AmplifyClipped(audio, rms, p);
    } else {
      assert Amplify(audio, rms, p) == Scale(audio, g);
      assert ActualGain(audio, rms, p) == g;
    }
  }

  /** Below the gain limit and the clip ceiling, the amplify branch applies exactly `target / rms`. */
  lemma AmplifyUnclipped(audio: seq<real>, rms: real, p: Params)
    requires p.Valid() && rms > 0.0 && Ratio(p.targetRms, rms) <= p.maxGainFactor
    requires Mul(Peak(audio), Ratio(p.targetRms, rms)) <= ClipCeiling
    ensures Amplify(audio, rms, p) == Scale(audio, Ratio(p.targetRms, rms))
  {
    var g := Ratio(p.targetRms, rms);
    assert AmplifyGain(rms, p) == g;
    PeakScale(audio, g);
    assert Peak(Scale(audio, g)) == Mul(Peak(audio), g) <= ClipCeiling;
  }

  /**
   * When neither the gain limit nor the clip guard intervenes, the amplified
   * track has exactly the target RMS.
   */
  lemma AmplifyReachesTarget(audio: seq<real>, rms: real, p: Params)
    requires p.Valid() && rms > 0.0 && IsRoot(rms, MeanSquare(audio))
    requires Ratio(p.targetRms, rms) <= p.maxGainFactor
    requires Mul(Peak(audio), Ratio(p.targetRms, rms)) <= ClipCeiling
    ensures MeanSquare(Amplify(audio, rms, p)) == Mul(p.targetRms, p.targetRms)
  {
    AmplifyUnclipped(audio, rms, p);
    NormalizedMeanSquare(audio, rms, p.targetRms);
  }

  // ---------------------------------------------------------------------
  // Compression branch

  /**
   * The soft-knee map leaves samples with magnitude up to the threshold
   * unchanged; every other sample keeps its sign, and its magnitude becomes
   * threshold + excess / 3, which lies strictly between the threshold and
   * the original magnitude.
   */
  lemma CompressSampleFacts(x: real, t: real)
    requires t >= 0.0
    ensures Abs(x) <= t ==> CompressSample(x, t) == x
    ensures Abs(x) > t ==>
      && Sign(CompressSample(x, t)) == Sign(x)
      && Abs(CompressSample(x, t)) == t + (Abs(x) - t) / CompressionRatio
      && t < Abs(CompressSample(x, t)) < Abs(x)
  {
  }

  /** The soft-knee map is strictly increasing, so it keeps the order of samples. */
  lemma CompressSampleMonotone(x: real, y: real, t: real)
    requires t >= 0.0 && x < y
    ensures CompressSample(x, t) < CompressSample(y, t)
  {
    CompressSampleFacts(x, t);
    CompressSampleFacts(y, t);
  }

  /**
   * The compression branch keeps the sign and the relative order of samples
   * and, when the compressed RMS is not negligible, yields exactly the target
   * RMS; otherwise it returns the compressed copy as is. There is no clip
   * guard here.
   */
  lemma CompressBranchFacts(audio: seq<real>, newRms: real, p: Params)
    requires p.Valid() && IsRoot(newRms, MeanSquare(Compress(audio, p.threshold)))
    ensures var r := CompressAndNormalize(audio, newRms, p);
      && (newRms > SilenceFloor ==> MeanSquare(r) == Mul(p.targetRms, p.targetRms))
      && (newRms <= SilenceFloor ==> r == Compress(audio, p.threshold))
      && (forall i :: 0 <= i < |audio| ==> Sign(r[i]) == Sign(audio[i]))
      && (forall i, j :: 0 <= i < |audio| && 0 <= j < |audio| && audio[i] < audio[j] ==> r[i] < r[j])
  {
    var t := p.threshold;
    var c := Compress(audio, t);
    var r := CompressAndNormalize(audio, newRms, p);
    if newRms > SilenceFloor {
      var k := Ratio(p.targetRms, newRms);
      assert k > 0.0;
      assert r == Scale(c, k);
      NormalizedMeanSquare(c, newRms, p.targetRms);
      forall i | 0 <= i < |audio| ensures Sign(r[i]) == Sign(audio[i]) {
        CompressSampleFacts(audio[i], t);
        SignMul(c[i], k);
      }
      forall i, j | 0 <= i < |audio| && 0 <= j < |audio| && audio[i] < audio[j] ensures r[i] < r[j] {
        CompressSampleMonotone(audio[i], audio[j], t);
        MulLt(c[i], c[j], k);
      }
    } else {
      assert r == c;
      forall i | 0 <= i < |audio| ensures Sign(r[i]) == Sign(audio[i]) {
        CompressSampleFacts(audio[i], t);
      }
      forall i, j | 0 <= i < |audio| && 0 <= j < |audio| && audio[i] < audio[j] ensures r[i] < r[j] {
        CompressSampleMonotone(audio[i], audio[j], t);
      }
    }
  }

  // ---------------------------------------------------------------------
  // Minor-adjustment branch

  /**
   * In the minor branch the gain lies in [lo, 1]: the track is already at or
   * above the target, so it is never amplified, and the output peak stays at
   * or below the input peak.
   */
  lemma MinorBranchFacts(audio: seq<real>, rms: real, p: Params)
    requires p.Valid() && rms > 0.0 && p.targetRms <= rms
    ensures p.lo <= MinorGain(rms, p) <= 1.0
    ensures Peak(Scale(audio, MinorGain(rms, p))) <= Peak(audio)
  {
    var g := MinorGain(rms, p);
    RatioFacts(p.targetRms, rms);
    assert p.lo <= g <= 1.0;
    PeakScale(audio, g);
    assert Peak(Scale(audio, g)) == Mul(Peak(audio), g);
    MulLe(g, 1.0, Peak(audio));
    assert Mul(Peak(audio), g) == Mul(g, Peak(audio)) <= Mul(1.0, Peak(audio)) == Peak(audio);
  }

  /**
   * When the ratio target / rms already lies within [lo, hi], the minor
   * branch brings the track exactly to the target RMS.
   */
  lemma MinorReachesTarget(audio: seq<real>, rms: real, p: Params)
    requires rms > 0.0 && IsRoot(rms, MeanSquare(audio))
    requires p.lo <= Ratio(p.targetRms, rms) <= p.hi
    ensures MeanSquare(Scale(audio, MinorGain(rms, p))) == Mul(p.targetRms, p.targetRms)
  {
    NormalizedMeanSquare(audio, rms, p.targetRms);
  }

  // ---------------------------------------------------------------------
  // The controller as a whole

  /**
   * What `adaptive_level_adjust` guarantees, branch by branch: a silent or
   * empty track comes back unchanged; the amplify branch applies one gain of
   * at most `maxGainFactor` and respects the clip ceiling; the compression
   * branch reaches the target RMS (when not negligible) keeping signs; the
   * minor branch applies one gain in [lo, 1] and so stays at or below the
   * compression threshold.
   */
  lemma AdaptiveLevelAdjustFacts(audio: seq<real>, p: Params, rms: real, newRms: real)
    requires p.Valid()
    requires IsRoot(rms, MeanSquare(audio))
    requires IsRoot(newRms, MeanSquare(Compress(audio, p.threshold)))
    ensures var r := AdaptiveLevelAdjust(audio, p, rms, newRms);
      match SelectBranch(audio, rms, p)
      case PassThrough => r == audio
      case Amplified =>
        && r == Scale(audio, ActualGain(audio, rms, p))
        && 0.0 < ActualGain(audio, rms, p) <= p.maxGainFactor
        && Peak(r) <= ClipCeiling
      case Compressed =>
        && (newRms > SilenceFloor ==> MeanSquare(r) == Mul(p.targetRms, p.targetRms))
        && (forall i :: 0 <= i < |audio| ==> Sign(r[i]) == Sign(audio[i]))
      case MinorAdjusted =>
        && r == Scale(audio, MinorGain(rms, p))
        && p.lo <= MinorGain(rms, p) <= 1.0
        && Peak(r) <= p.threshold
  {
    match SelectBranch(audio, rms, p)
    case PassThrough =>
    case Amplified => AmplifyClipGuard(audio, rms, p);
    case Compressed => CompressBranchFacts(audio, newRms, p);
    case MinorAdjusted => MinorBranchFacts(audio, rms, p);
  }

  /**
   * Unlike the amplify branch, the compression branch can leave a peak above
   * the clip ceiling: one full-scale sample among three silent ones, with a
   * target RMS of 0.5, is compressed to 0.8 and renormalised back to 1.0.
   */
  lemma CompressionCanExceedClipCeiling()
    ensures var audio := [1.0, 0.0, 0.0, 0.0];
      var p := Params(0.5, 10.0, 0.7, 0.7, 1.4);
      && p.Valid()
      && IsRoot(0.5, MeanSquare(audio))
      && IsRoot(0.4, MeanSquare(Compress(audio, p.threshold)))
      && SelectBranch(audio, 0.5, p) == Compressed
      && Peak(AdaptiveLevelAdjust(audio, p, 0.5, 0.4)) == 1.0
  {
    var audio := [1.0, 0.0, 0.0, 0.0];
    var p := Params(0.5, 10.0, 0.7, 0.7, 1.4);
    var c := Compress(audio, p.threshold);
    assert c == [0.8, 0.0, 0.0, 0.0];
    assert SumSquares(audio) == 1.0;
    assert SumSquares(c) == 0.64;
    assert Peak(audio) == 1.0;
    var r := Scale(c, 0.5 / 0.4);
    assert r == [1.0, 0.0, 0.0, 0.0];
    assert Peak(r) == 1.0;
  }
}
