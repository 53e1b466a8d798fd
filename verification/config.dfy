/** The fixed audio configuration of chipnumpy (chipnumpy/constants.py). */
module Config {
  /** Samples per second. */
  const FrameRate: int := 44100
  /** Scale from a sample in [-1, 1] to a 16-bit PCM value. */
  const AmplitudeScale: int := 32767
  /** Mono output. */
  const NumChannels: int := 1
  /** Bits per PCM sample. */
  const NumBits: int := 16
}
