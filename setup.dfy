/** The audio setup arithmetic of the streaming activity: the recording buffer size
    derived from the device's frames-per-buffer property, and the playback track's
    capacity, both evaluated in Java `int` arithmetic. */
module Setup {
  import opened StreamMessages

  /** Number of chunks the speaker buffers before playback starts; also the
      playback track's capacity in recording buffers. */
  const BufferSizeInChunks: int := 7

  /** The factor the activity multiplies the device's frames-per-buffer property by
      to size its recording buffer; a fixed constant of the code, not derived from
      the 16-bit stereo format (which would be 4 bytes per frame). */
  const FramesPerBufferFactor: int := 16

  /** Largest frames-per-buffer value for which neither size below wraps around. */
  const MaxUnwrappedFrames: int := (TwoTo31 - 1) / (FramesPerBufferFactor * BufferSizeInChunks)

  /** `bufferSize` of the activity: frames per buffer times 16, as a Java `int`. */
  function BufferSize(framesPerBuffer: int32): (size: int32)
    ensures 0 <= framesPerBuffer as int * FramesPerBufferFactor < TwoTo31 ==>
              size as int == framesPerBuffer as int * FramesPerBufferFactor
    ensures (size as int - framesPerBuffer as int * FramesPerBufferFactor) % TwoTo32 == 0
  {
    Wrap32(framesPerBuffer as int * FramesPerBufferFactor)
  }

  /** Capacity handed to the playback track: seven recording buffers, as a Java `int`. */
  function PlaybackCapacity(bufferSize: int32): (capacity: int32)
    ensures 0 <= bufferSize as int * BufferSizeInChunks < TwoTo31 ==>
              capacity as int == bufferSize as int * BufferSizeInChunks
    ensures (capacity as int - bufferSize as int * BufferSizeInChunks) % TwoTo32 == 0
  {
    Wrap32(bufferSize as int * BufferSizeInChunks)
  }

  /** For every frames-per-buffer value a device can plausibly report, the sizes
      are the plain products and the playback track holds exactly seven buffers. */
  lemma SizesWithoutWrap(framesPerBuffer: int32)
    requires 0 <= framesPerBuffer as int <= MaxUnwrappedFrames
    ensures BufferSize(framesPerBuffer) as int == framesPerBuffer as int * 16
    ensures PlaybackCapacity(BufferSize(framesPerBuffer)) as int == framesPerBuffer as int * 112
    ensures PlaybackCapacity(BufferSize(framesPerBuffer)) as int
            == BufferSize(framesPerBuffer) as int * BufferSizeInChunks
  {
  }

  /** Exactly when `bufferSize` wraps to a negative number, so that allocating the
      recording buffer fails: frames per buffer whose remainder modulo 2^28 is at least
      2^27, positive values from 2^27 to 2^28 - 1 among them. */
  lemma BufferSizeWrapsNegative(framesPerBuffer: int32)
    ensures BufferSize(framesPerBuffer) < 0 <==> framesPerBuffer as int % 0x1000_0000 >= 0x0800_0000
  {
  }
}
