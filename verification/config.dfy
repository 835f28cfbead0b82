/** The fixed configuration constants of the pipeline (config.py). */
module Config {

  /** Capture sample rate in Hz. */
  const SAMPLE_RATE: nat := 44100

  /** Rate the feature extractor resamples to before the mel transform. */
  const MEL_SAMPLE_RATE: nat := 16000

  /** Spatial size (height, width) of a feature tensor. */
  const MEL_SIZE: (nat, nat) := (240, 240)

  /** Root directory of the persisted feature tensors. */
  const OUTPUT_FOLDER: string := "output"

  /** Source names of the separation model, in output order. */
  const SOURCES: seq<string> := ["fan", "pump", "slider", "bearing", "gearbox"]

  /** Number of capture channels the stream is configured for. */
  const CHANNELS: nat := 2

  /** For each microphone index, the source names whose features are kept. */
  const CHANNEL_PARTS: seq<seq<string>> := [
    ["fan", "pump"],
    ["bearing", "gearbox", "slider"]
  ]
}
