/**
 * Playback jitter buffer. Inbound frames enter an unbounded arrival queue (`play_frame`,
 * which drops the oldest frame once the queue holds `max_queue_size` frames); a mover task
 * shifts frames one at a time into a playback buffer capped at `max_queue_size`; the
 * hardware output callback pops the oldest buffered frame or plays silence.
 */
module Playback {
  import opened Results
  import opened FrameClock

  /** One decoded inbound frame: its interleaved 16-bit samples. */
  type Frame = seq<int>

  /** Default capacity of both the arrival queue and the playback buffer. */
  const DEFAULT_MAX_QUEUE_SIZE: nat := 50

  /** Why `start` raised: the output stream could not be created, or could not be started. */
  datatype DeviceError = OpenFailed | StartFailed

  predicate IsSilence(out: seq<int>) {
    forall i :: 0 <= i < |out| ==> out[i] == 0
  }

  /** An output block of `n` zero samples. */
  function Silence(n: nat): (out: seq<int>)
    ensures |out| == n && IsSilence(out)
  {
    seq(n, _ => 0)
  }

  /** The last `n` elements of `s` (all of `s` when it is shorter). */
  function Latest<T>(s: seq<T>, n: nat): seq<T> {
    if |s| <= n then s else s[|s| - n..]
  }

  /**
   * The most frames the arrival queue can hold. With a capacity of 0 the oldest-frame
   * eviction finds nothing to remove on an empty queue, so one frame is still admitted.
   */
  function ArrivalBound(maxQueueSize: nat): nat {
    if maxQueueSize == 0 then 1 else maxQueueSize
  }

  // ---------------------------------------------------------------------------------------
  // play_frame: admission into the arrival queue
  // ---------------------------------------------------------------------------------------

  /**
   * The arrival queue after `play_frame(f)`: when the queue already holds `maxQueueSize`
   * frames its oldest frame is removed (if there is one), then `f` is appended.
   * The ensures say the bound is kept, the new frame is always kept and is the newest,
   * and at most one frame is lost.
   */
  function Admit(queue: seq<Frame>, f: Frame, maxQueueSize: nat): (r: seq<Frame>)
    ensures |queue| <= ArrivalBound(maxQueueSize) ==> |r| <= ArrivalBound(maxQueueSize)
    ensures 0 < |r| && r[|r| - 1] == f
    ensures |queue| <= |r| <= |queue| + 1
  {
    if |queue| >= maxQueueSize then
      (if |queue| > 0 then queue[1..] else queue) + [f]
    else
      queue + [f]
  }

  /**
   * The frame lost by an admission, if any, is the oldest: the queue after `play_frame`
   * is a suffix of the queue before it followed by the new frame, and a frame is lost
   * only when the queue was full.
   */
  lemma AdmitDropsOnlyOldest(queue: seq<Frame>, f: Frame, maxQueueSize: nat)
    ensures var r := Admit(queue, f, maxQueueSize);
      r == (queue + [f])[|queue| + 1 - |r|..]
      && (|r| == |queue| <==> 0 < |queue| && maxQueueSize <= |queue|)
  {
    var r := Admit(queue, f, maxQueueSize);
    if |queue| >= maxQueueSize && |queue| > 0 {
      assert r == (queue + [f])[1..];
    } else {
      assert r == (queue + [f])[0..];
    }
  }

  /** The arrival queue after `play_frame` is called on each of `fs` in order. */
  function AdmitAll(queue: seq<Frame>, fs: seq<Frame>, maxQueueSize: nat): seq<Frame>
    decreases |fs|
  {
    if fs == [] then queue else AdmitAll(Admit(queue, fs[0], maxQueueSize), fs[1..], maxQueueSize)
  }

  /**
   * A burst of `play_frame` calls, whatever the capacity (zero included): the bound is kept
   * over the whole burst, the queue never shrinks, it grows by at most one frame per call,
   * and the last frame offered is the newest one queued.
   */
  lemma {:induction false} AdmitAllBounds(queue: seq<Frame>, fs: seq<Frame>, maxQueueSize: nat)
    ensures var r := AdmitAll(queue, fs, maxQueueSize);
      && (|queue| <= ArrivalBound(maxQueueSize) ==> |r| <= ArrivalBound(maxQueueSize))
      && |queue| <= |r| <= |queue| + |fs|
      && (fs != [] ==> 0 < |r| && r[|r| - 1] == fs[|fs| - 1])
    decreases |fs|
  {
    if fs != [] {
      AdmitAllBounds(Admit(queue, fs[0], maxQueueSize), fs[1..], maxQueueSize);
    }
  }

  lemma LatestOfLatest<T>(s: seq<T>, t: seq<T>, n: nat)
    ensures Latest(Latest(s, n) + t, n) == Latest(s + t, n)
  {
    if |s| > n {
      var k := |s| - n;
      assert s + t == s[..k] + (s[k..] + t);
      assert (s + t)[k..] == s[k..] + t;
      if |s[k..] + t| > n {
        var m := |s[k..] + t| - n;
        assert (s + t)[k + m..] == (s[k..] + t)[m..];
      }
    }
  }

  /** With a positive capacity, one admission keeps exactly the newest `maxQueueSize` frames. */
  lemma AdmitKeepsLatest(queue: seq<Frame>, f: Frame, maxQueueSize: nat)
    requires 0 < maxQueueSize && |queue| <= maxQueueSize
    ensures Admit(queue, f, maxQueueSize) == Latest(queue + [f], maxQueueSize)
  {
    if |queue| == maxQueueSize {
      assert (queue + [f])[|queue| + 1 - maxQueueSize..] == queue[1..] + [f];
    }
  }

  /**
   * Drop-oldest policy over a whole burst: however many frames arrive, the queue ends up
   * holding exactly the newest `maxQueueSize` frames of everything offered, in arrival order.
   */
  lemma {:induction false} AdmitAllKeepsLatest(queue: seq<Frame>, fs: seq<Frame>, maxQueueSize: nat)
    requires 0 < maxQueueSize && |queue| <= maxQueueSize
    ensures AdmitAll(queue, fs, maxQueueSize) == Latest(queue + fs, maxQueueSize)
    decreases |fs|
  {
    if fs == [] {
      assert queue + fs == queue;
    } else {
      var q1 := Admit(queue, fs[0], maxQueueSize);
      AdmitKeepsLatest(queue, fs[0], maxQueueSize);
      AdmitAllKeepsLatest(q1, fs[1..], maxQueueSize);
      LatestOfLatest(queue + [fs[0]], fs[1..], maxQueueSize);
      assert queue + [fs[0]] + fs[1..] == queue + fs;
    }
  }

  /** With capacity 3, offering A, B, C, D to an empty queue leaves [B, C, D]. */
  lemma CapacityThreeScenario(a: Frame, b: Frame, c: Frame, d: Frame)
    ensures AdmitAll([], [a, b, c, d], 3) == [b, c, d]
  {
    AdmitAllKeepsLatest([], [a, b, c, d], 3);
    assert [] + [a, b, c, d] == [a, b, c, d];
  }

  /** With capacity 0 every admission replaces the single queued frame. */
  lemma AdmitZeroCapacity(queue: seq<Frame>, f: Frame)
    requires |queue| <= 1
    ensures Admit(queue, f, 0) == [f]
  {
  }

  // ---------------------------------------------------------------------------------------
  // _process_audio: one step of the mover
  // ---------------------------------------------------------------------------------------

  /** The arrival queue and the playback buffer, the two FIFOs in series. */
  datatype Fifos = Fifos(queue: seq<Frame>, buffer: seq<Frame>)

  /** All frames waiting to be played, oldest first: the buffer, then the arrival queue. */
  function Pending(q: Fifos): seq<Frame> {
    q.buffer + q.queue
  }

  /**
   * One iteration of the mover loop: when the buffer holds fewer than `maxQueueSize` frames
   * and a frame has arrived, the oldest arrival moves to the back of the buffer; otherwise
   * (the 0.1 s wait times out, or the buffer is full) nothing changes.
   * The ensures say the pending frames and their order are untouched, the buffer bound is
   * kept, and exactly one frame moves precisely when the buffer has room and the queue has a frame.
   */
  function MoveOne(q: Fifos, maxQueueSize: nat): (r: Fifos)
    ensures Pending(r) == Pending(q)
    ensures |q.buffer| <= maxQueueSize ==> |r.buffer| <= maxQueueSize
    ensures |r.buffer| == |q.buffer| + (if |q.buffer| < maxQueueSize && q.queue != [] then 1 else 0)
  {
    if |q.buffer| < maxQueueSize && q.queue != [] then
      Fifos(q.queue[1..], q.buffer + [q.queue[0]])
    else
      q
  }

  // ---------------------------------------------------------------------------------------
  // _audio_callback: rendering one output block
  // ---------------------------------------------------------------------------------------

  /**
   * The output block for a popped frame: the frame itself when it reshapes to the block
   * (same number of samples), otherwise the reshape raises and the block is filled with
   * zeros. The block is never partially filled.
   */
  function Render(frame: Frame, outLen: nat): (out: seq<int>)
    ensures |out| == outLen
    ensures out == frame <==> |frame| == outLen
    ensures out != frame ==> IsSilence(out)
  {
    if |frame| == outLen then frame else Silence(outLen)
  }

  /** The state of an `AudioOutput`: its flags and its two FIFOs. */
  class AudioOutput {
    const sampleRate: nat
    const channels: nat
    const blockSize: nat
    const maxQueueSize: nat
    const device: Option<string>
    const samplesPerFrame: nat

    var isPlaying: bool
    /** The output stream object is held (`self.stream is not None`). */
    var hasStream: bool
    /** The mover task exists (`self._task is not None`). */
    var hasTask: bool
    /** The arrival queue `_queue`, oldest first. */
    var queue: seq<Frame>
    /** The playback deque `_buffer`, oldest first. */
    var buffer: seq<Frame>

    ghost predicate Valid()
      reads this
    {
      && |buffer| <= maxQueueSize
      && |queue| <= ArrivalBound(maxQueueSize)
      && (hasTask <==> isPlaying)
      && (isPlaying ==> hasStream)
    }

    function Fifo(): Fifos
      reads this
    {
      Fifos(queue, buffer)
    }

    constructor (sampleRate: nat, channels: nat, blockSize: nat, maxQueueSize: nat, device: Option<string>)
      ensures Valid()
      ensures this.sampleRate == sampleRate && this.channels == channels && this.blockSize == blockSize
      ensures this.maxQueueSize == maxQueueSize && this.device == device
      ensures samplesPerFrame == DEFAULT_BLOCK_SIZE
      ensures !isPlaying && !hasStream && !hasTask && queue == [] && buffer == []
    {
      this.sampleRate := sampleRate;
      this.channels := channels;
      this.blockSize := blockSize;
      this.maxQueueSize := maxQueueSize;
      this.device := device;
      samplesPerFrame := FrameSize(DEFAULT_SAMPLE_RATE, FRAME_DURATION_MS);
      isPlaying, hasStream, hasTask := false, false, false;
      queue, buffer := [], [];
    }

    /**
     * Opens and starts the output stream, then spawns the mover task. A no-op while
     * playing. `openOk` and `startOk` say whether creating and starting the device
     * stream succeed; a failed start leaves the created stream held but not playing.
     */
    method Start(openOk: bool, startOk: bool) returns (r: Status<DeviceError>)
      requires Valid()
      modifies this
      ensures Valid()
      ensures queue == old(queue) && buffer == old(buffer)
      ensures old(isPlaying) ==> r == Done && isPlaying && hasStream && hasTask
      ensures !old(isPlaying) && openOk && startOk ==> r == Done && isPlaying && hasStream && hasTask
      ensures !old(isPlaying) && !openOk ==>
        r == Raised(OpenFailed) && !isPlaying && !hasTask && hasStream == old(hasStream)
      ensures !old(isPlaying) && openOk && !startOk ==>
        r == Raised(StartFailed) && !isPlaying && !hasTask && hasStream
    {
      if isPlaying {
        return Done;
      }
      if !openOk {
        return Raised(OpenFailed);
      }
      hasStream := true;
      if !startOk {
        return Raised(StartFailed);
      }
      isPlaying := true;
      hasTask := true;
      r := Done;
    }

    /**
     * Stops playback: cancels the mover, releases the stream and empties both FIFOs.
     * A no-op when not playing.
     */
    method Stop()
      requires Valid()
      modifies this
      ensures Valid()
      ensures !old(isPlaying) ==>
        isPlaying == old(isPlaying) && hasStream == old(hasStream) && hasTask == old(hasTask)
        && queue == old(queue) && buffer == old(buffer)
      ensures old(isPlaying) ==> !isPlaying && !hasTask && !hasStream && queue == [] && buffer == []
    {
      if !isPlaying {
        return;
      }
      isPlaying := false;
      hasTask := false;
      hasStream := false;
      buffer := [];
      queue := [];
    }

    /** `play_frame`: admits `f` into the arrival queue, evicting the oldest frame when full. */
    method PlayFrame(f: Frame)
      requires Valid()
      modifies this
      ensures Valid()
      ensures queue == Admit(old(queue), f, maxQueueSize)
      ensures buffer == old(buffer)
      ensures isPlaying == old(isPlaying) && hasStream == old(hasStream) && hasTask == old(hasTask)
    {
      if |queue| >= maxQueueSize {
        if |queue| > 0 {
          queue := queue[1..];
        }
      }
      queue := queue + [f];
    }

    /** One iteration of the mover loop `_process_audio`; the loop runs only while playing. */
    method MoveStep()
      requires Valid()
      modifies this
      ensures Valid()
      ensures Fifo() == if old(isPlaying) then MoveOne(old(Fifo()), maxQueueSize) else old(Fifo())
      ensures isPlaying == old(isPlaying) && hasStream == old(hasStream) && hasTask == old(hasTask)
    {
      if !isPlaying {
        return;
      }
      if |buffer| < maxQueueSize {
        if queue != [] {
          var data := queue[0];
          queue := queue[1..];
          buffer := buffer + [data];
        }
      }
    }

    /**
     * `rounds` iterations of the mover loop while playing. Each frame that moves keeps its
     * place in the pending order; afterwards exactly as many frames have moved as the
     * buffer had room for and the queue could supply.
     */
    method ProcessAudio(rounds: nat)
      requires Valid()
      modifies this
      ensures Valid()
      ensures Pending(Fifo()) == Pending(old(Fifo()))
      ensures !old(isPlaying) ==> Fifo() == old(Fifo())
      ensures old(isPlaying) ==>
        |buffer| == old(|buffer|) + Min3(rounds, maxQueueSize - old(|buffer|), old(|queue|))
      ensures isPlaying == old(isPlaying) && hasStream == old(hasStream) && hasTask == old(hasTask)
    {
      var i := 0;
      while i < rounds && isPlaying
        invariant Valid()
        invariant 0 <= i <= rounds
        invariant Pending(Fifo()) == Pending(old(Fifo()))
        invariant isPlaying == old(isPlaying) && hasStream == old(hasStream) && hasTask == old(hasTask)
        invariant !old(isPlaying) ==> Fifo() == old(Fifo())
        invariant old(isPlaying) ==>
          |buffer| == old(|buffer|) + Min3(i, maxQueueSize - old(|buffer|), old(|queue|))
      {
        MoveStep();
        i := i + 1;
      }
    }

    /**
     * The hardware output callback for a block of `outLen` samples: pops the oldest
     * buffered frame and renders it, or plays silence when the buffer is empty.
     */
    method Callback(outLen: nat) returns (out: seq<int>)
      requires Valid()
      modifies this
      ensures Valid()
      ensures |out| == outLen
      ensures old(buffer) == [] ==> buffer == [] && out == Silence(outLen)
      ensures old(buffer) != [] ==> buffer == old(buffer)[1..] && out == Render(old(buffer)[0], outLen)
      ensures queue == old(queue)
      ensures isPlaying == old(isPlaying) && hasStream == old(hasStream) && hasTask == old(hasTask)
    {
      if |buffer| > 0 {
        var data := buffer[0];
        buffer := buffer[1..];
        if |data| == outLen {
          out := data;
        } else {
          out := Silence(outLen);
        }
      } else {
        out := Silence(outLen);
      }
    }
  }
  /**
   * `AudioOutput()` with every default, as the connection manager builds it: 48 kHz, the
   * default two channels, 960-sample blocks, room for 50 frames, the default device, and
   * nothing queued or playing.
   */
  method DefaultAudioOutput() returns (out: AudioOutput)
    ensures fresh(out) && out.Valid()
    ensures out.sampleRate == 48000 && out.channels == 2 && out.blockSize == 960
    ensures out.maxQueueSize == 50 && out.device == None
    ensures !out.isPlaying && !out.hasStream && out.queue == [] && out.buffer == []
  {
    DefaultBlockSizeIs960();
    out := new AudioOutput(DEFAULT_SAMPLE_RATE, DEFAULT_CHANNELS, DEFAULT_BLOCK_SIZE, DEFAULT_MAX_QUEUE_SIZE, None);
  }


  function Min3(a: int, b: int, c: int): int {
    if a <= b && a <= c then a else if b <= c then b else c
  }
}
