/**
 * The process-wide resampler slot: configured once from the separation
 * model's sample rate and read before every separation. The slot starts
 * empty, and reading an empty slot leaves the audio as it is.
 */
module Resample {
  import opened Common
  import opened Config

  /** What `init_resampler(model_rate)` stores: nothing when the rates agree, otherwise a converter from the capture rate. */
  function Planned(modelRate: nat): (r: Option<Resampling>)
    ensures r.None? <==> modelRate == SAMPLE_RATE
    ensures r.Some? ==> r.value.origFreq == SAMPLE_RATE && r.value.newFreq == modelRate
  {
    if SAMPLE_RATE != modelRate then Some(Resampling(SAMPLE_RATE, modelRate)) else None
  }

  /** What `maybe_resample` returns for a given slot content. */
  function Applied<T>(slot: Option<Resampling>, audio: T, apply: (Resampling, T) -> T): (r: T)
    ensures slot.None? ==> r == audio
    ensures slot.Some? ==> r == apply(slot.value, audio)
  {
    match slot
    case None => audio
    case Some(resampler) => apply(resampler, audio)
  }

  /** The module holding the `RESAMPLER` global. */
  class Coordinator {
    var resampler: Option<Resampling>

    /** Module import: the slot starts empty. */
    constructor()
      ensures resampler == None
    {
      resampler := None;
    }

    /** `init_resampler(model_rate)`: overwrites the slot and returns what it stored. */
    method InitResampler(modelRate: nat) returns (stored: Option<Resampling>)
      modifies this
      ensures resampler == Planned(modelRate)
      ensures stored == resampler
    {
      if SAMPLE_RATE != modelRate {
        resampler := Some(Resampling(SAMPLE_RATE, modelRate));
      } else {
        resampler := None;
      }
      stored := resampler;
    }

    /** `maybe_resample(audio)`: applies the stored resampler if there is one; the slot is only read. */
    method MaybeResample<T>(audio: T, apply: (Resampling, T) -> T) returns (out: T)
      ensures resampler.None? ==> out == audio
      ensures resampler.Some? ==> out == apply(resampler.value, audio)
    {
      if resampler.Some? {
        out := apply(resampler.value, audio);
      } else {
        out := audio;
      }
    }
  }

  /** Resampling before any configuration is not an error: the audio comes back unchanged. */
  method ResampleBeforeInit<T>(audio: T, apply: (Resampling, T) -> T) returns (out: T)
    ensures out == audio
  {
    var coordinator := new Coordinator();
    out := coordinator.MaybeResample(audio, apply);
  }

  /**
   * Start-up order of the stream: configure from the model's rate, then
   * resample. Audio is converted from the capture rate exactly when the
   * model's rate differs from it.
   */
  method ConfigureThenResample<T>(modelRate: nat, audio: T, apply: (Resampling, T) -> T) returns (out: T)
    ensures modelRate == SAMPLE_RATE ==> out == audio
    ensures modelRate != SAMPLE_RATE ==> out == apply(Resampling(44100, modelRate), audio)
  {
    var coordinator := new Coordinator();
    var _ := coordinator.InitResampler(modelRate);
    out := coordinator.MaybeResample(audio, apply);
  }

  /** A second configuration replaces the first: only the latest model rate matters. */
  method Reconfigure<T>(firstRate: nat, secondRate: nat, audio: T, apply: (Resampling, T) -> T)
    returns (stored: Option<Resampling>, out: T)
    ensures stored == Planned(secondRate)
    ensures out == Applied(Planned(secondRate), audio, apply)
  {
    var coordinator := new Coordinator();
    var _ := coordinator.InitResampler(firstRate);
    stored := coordinator.InitResampler(secondRate);
    out := coordinator.MaybeResample(audio, apply);
  }

  /** Reading the slot any number of times leaves it as configured: two reads in a row see the same resampler. */
  method ResampleTwice<T>(modelRate: nat, a: T, b: T, apply: (Resampling, T) -> T) returns (outA: T, outB: T)
    ensures outA == Applied(Planned(modelRate), a, apply)
    ensures outB == Applied(Planned(modelRate), b, apply)
  {
    var coordinator := new Coordinator();
    var _ := coordinator.InitResampler(modelRate);
    outA := coordinator.MaybeResample(a, apply);
    outB := coordinator.MaybeResample(b, apply);
  }
}
