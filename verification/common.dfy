/** Optional values and error-carrying results shared by every module. */
module Common {

  datatype Option<T> = None | Some(value: T)

  datatype Result<T, E> = Ok(value: T) | Err(error: E)

  /** A `Resample(orig_freq, new_freq)` transform, named by its two rates; what it computes is supplied by its caller. */
  datatype Resampling = Resampling(origFreq: nat, newFreq: nat)

  function Min(a: real, b: real): real { if a <= b then a else b }

  function Max(a: real, b: real): real { if a >= b then a else b }
}
