/**
 * Frame clock: the fixed audio configuration and the arithmetic that turns a sample rate
 * and a frame duration into the number of samples per channel in one frame.
 */
module FrameClock {

  /** Frame duration used by the transport, in milliseconds. */
  const FRAME_DURATION_MS: nat := 20

  /** Sample rate of both pipelines, in Hz. */
  const DEFAULT_SAMPLE_RATE: nat := 48000

  /** Default channel count of the playback pipeline (as written, two channels). */
  const DEFAULT_CHANNELS: nat := 2

  /** Default channel count of the capture pipeline. */
  const CAPTURE_CHANNELS: nat := 1

  /**
   * Samples per channel in one frame, `int(sample_rate * frame_duration / 1000)`: the exact
   * quotient truncated to an integer. The ensures says it is the largest whole number of
   * samples that fits into the frame duration.
   */
  function FrameSize(sampleRate: nat, frameDurationMs: nat): (n: nat)
    ensures n * 1000 <= sampleRate * frameDurationMs < (n + 1) * 1000
  {
    sampleRate * frameDurationMs / 1000
  }

  /** Block size of the playback stream: one 20 ms frame at 48 kHz. */
  const DEFAULT_BLOCK_SIZE: nat := FrameSize(DEFAULT_SAMPLE_RATE, FRAME_DURATION_MS)

  lemma DefaultBlockSizeIs960()
    ensures DEFAULT_BLOCK_SIZE == 960
  {
    assert DEFAULT_SAMPLE_RATE * FRAME_DURATION_MS == 960 * 1000;
  }

  /** A frame holds at least one sample exactly when the duration covers at least one sample period. */
  lemma FrameSizePositive(sampleRate: nat, frameDurationMs: nat)
    ensures FrameSize(sampleRate, frameDurationMs) > 0 <==> sampleRate * frameDurationMs >= 1000
  {
  }

  /** When the duration is a whole number of sample periods, the frame size is exact. */
  lemma FrameSizeExact(sampleRate: nat, frameDurationMs: nat, n: nat)
    requires sampleRate * frameDurationMs == n * 1000
    ensures FrameSize(sampleRate, frameDurationMs) == n
  {
  }
}
