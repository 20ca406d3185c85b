/**
 * Capture pipeline. The hardware input callback stamps each block of samples with a
 * running sample counter (`pts`) and pushes it onto the track's queue, unless capture is
 * paused; `AudioTrack.recv` starts recording lazily and hands the queued frames to the
 * transport in order.
 */
module Capture {
  import opened Results
  import opened FrameClock

  /** A captured frame, reduced to its presentation timestamp and its sample count. */
  datatype CapturedFrame = CapturedFrame(pts: nat, samples: nat)

  /** What can happen to a running recorder: a hardware callback with `n` samples, or a flag change. */
  datatype Event = Samples(n: nat) | Pause | Resume

  /** The callback-side state: the sample counter, the pause flag, and every frame pushed so far. */
  datatype Recorder = Recorder(pts: nat, paused: bool, emitted: seq<CapturedFrame>)

  /**
   * Why recording could not start: opening or starting the input stream raised, and the
   * exception is re-raised to the caller.
   */
  datatype CaptureError = StreamError

  /**
   * The invariant of the callback: consecutive frames are contiguous and the counter sits
   * just past the last frame pushed.
   */
  ghost predicate Stamped(r: Recorder) {
    && Contiguous(r.emitted)
    && (r.emitted != [] ==> r.emitted[|r.emitted| - 1].pts + r.emitted[|r.emitted| - 1].samples == r.pts)
  }

  /**
   * The effect of one event on the recorder. The ensures say frames are only ever appended,
   * one exactly for a callback while not paused, stamped with the counter, which advances
   * by its samples and otherwise stays; and the flag follows pause and resume.
   */
  function Step(r: Recorder, e: Event): (next: Recorder)
    ensures r.emitted <= next.emitted && |next.emitted| <= |r.emitted| + 1
    ensures |next.emitted| > |r.emitted| <==> e.Samples? && !r.paused
    ensures |next.emitted| > |r.emitted| ==>
      next.emitted[|r.emitted|] == CapturedFrame(r.pts, e.n) && next.pts == r.pts + e.n
    ensures |next.emitted| == |r.emitted| ==> next.pts == r.pts
    ensures (e.Pause? ==> next.paused) && (e.Resume? ==> !next.paused)
    ensures e.Samples? ==> next.paused == r.paused
  {
    match e
    case Samples(n) =>
      if r.paused then r
      else Recorder(r.pts + n, r.paused, r.emitted + [CapturedFrame(r.pts, n)])
    case Pause => r.(paused := true)
    case Resume => r.(paused := false)
  }

  /** The recorder after the events `es`, in order. */
  function Replay(r: Recorder, es: seq<Event>): Recorder
    decreases |es|
  {
    if es == [] then r else Replay(Step(r, es[0]), es[1..])
  }

  /**
   * Over any run of events earlier frames are never altered or dropped, at most one frame
   * is added per event, and the counter never goes back.
   */
  lemma {:induction false} ReplayExtends(r: Recorder, es: seq<Event>)
    ensures var out := Replay(r, es);
      r.emitted <= out.emitted && |out.emitted| <= |r.emitted| + |es| && r.pts <= out.pts
    decreases |es|
  {
    if es != [] {
      ReplayExtends(Step(r, es[0]), es[1..]);
    }
  }

  /** A single event keeps the callback's invariant. */
  lemma StepKeepsStamped(r: Recorder, e: Event)
    requires Stamped(r)
    ensures Stamped(Step(r, e))
  {
  }

  /** Any run of events keeps the callback's invariant. */
  lemma {:induction false} ReplayKeepsStamped(r: Recorder, es: seq<Event>)
    requires Stamped(r)
    ensures Stamped(Replay(r, es))
    decreases |es|
  {
    if es != [] {
      StepKeepsStamped(r, es[0]);
      ReplayKeepsStamped(Step(r, es[0]), es[1..]);
    }
  }

  /** Callbacks delivering `ns[0]`, `ns[1]`, ... samples. */
  function Callbacks(ns: seq<nat>): seq<Event> {
    if ns == [] then [] else [Samples(ns[0])] + Callbacks(ns[1..])
  }

  function Sum(ns: seq<nat>): nat {
    if ns == [] then 0 else ns[0] + Sum(ns[1..])
  }

  /** The sample count of each frame, in order. */
  function SampleCounts(fs: seq<CapturedFrame>): (ns: seq<nat>)
    ensures |ns| == |fs|
  {
    if fs == [] then [] else [fs[0].samples] + SampleCounts(fs[1..])
  }

  lemma {:induction false} SampleCountsAt(fs: seq<CapturedFrame>, i: nat)
    requires i < |fs|
    ensures SampleCounts(fs)[i] == fs[i].samples
    decreases i
  {
    if i > 0 {
      SampleCountsAt(fs[1..], i - 1);
    }
  }

  /** Each frame's timestamp is the previous frame's plus its sample count: no gap and no overlap. */
  ghost predicate Contiguous(fs: seq<CapturedFrame>) {
    forall i :: 0 < i < |fs| ==> fs[i].pts == fs[i - 1].pts + fs[i - 1].samples
  }

  /**
   * The frames an unpaused recorder starting at counter `pts` emits for blocks of `ns`
   * samples. The ensures say there is one frame per block, carrying that block's sample
   * count, and the first stamped `pts`; `StampContiguous` adds that the stamps are contiguous.
   */
  function Stamp(pts: nat, ns: seq<nat>): (fs: seq<CapturedFrame>)
    ensures SampleCounts(fs) == ns
    ensures |ns| > 0 ==> fs[0].pts == pts
    decreases |ns|
  {
    if ns == [] then [] else [CapturedFrame(pts, ns[0])] + Stamp(pts + ns[0], ns[1..])
  }

  /** Consecutive frames of an unpaused run carry no gap and no overlap in their timestamps. */
  lemma {:induction false} StampContiguous(pts: nat, ns: seq<nat>)
    ensures Contiguous(Stamp(pts, ns))
    decreases |ns|
  {
    if ns != [] {
      var fs := Stamp(pts, ns);
      var rest := Stamp(pts + ns[0], ns[1..]);
      StampContiguous(pts + ns[0], ns[1..]);
      assert fs == [CapturedFrame(pts, ns[0])] + rest;
      forall i | 0 < i < |fs|
        ensures fs[i].pts == fs[i - 1].pts + fs[i - 1].samples
      {
        if i > 1 {
          assert fs[i] == rest[i - 1] && fs[i - 1] == rest[i - 2];
        }
      }
    }
  }

  lemma {:induction false} ReplayAppend(r: Recorder, es: seq<Event>, fs: seq<Event>)
    ensures Replay(r, es + fs) == Replay(Replay(r, es), fs)
    decreases |es|
  {
    if es == [] {
      assert es + fs == fs;
    } else {
      assert (es + fs)[1..] == es[1..] + fs;
      ReplayAppend(Step(r, es[0]), es[1..], fs);
    }
  }

  /**
   * Unpaused callbacks each emit exactly one frame stamped with the current counter and
   * advance the counter by the block's samples.
   */
  lemma {:induction false} ReplayUnpaused(r: Recorder, ns: seq<nat>)
    requires !r.paused
    ensures Replay(r, Callbacks(ns)) == Recorder(r.pts + Sum(ns), false, r.emitted + Stamp(r.pts, ns))
    decreases |ns|
  {
    if ns == [] {
      assert r.emitted + Stamp(r.pts, ns) == r.emitted;
    } else {
      var r1 := FirstCallback(r, ns);
      ReplayUnpaused(r1, ns[1..]);
    }
  }

  /** The first of a run of unpaused callbacks emits its frame; the rest replay from there. */
  lemma FirstCallback(r: Recorder, ns: seq<nat>) returns (r1: Recorder)
    requires !r.paused && ns != []
    ensures !r1.paused && r1.pts + Sum(ns[1..]) == r.pts + Sum(ns)
    ensures r1.emitted + Stamp(r1.pts, ns[1..]) == r.emitted + Stamp(r.pts, ns)
    ensures Replay(r, Callbacks(ns)) == Replay(r1, Callbacks(ns[1..]))
  {
    r1 := Recorder(r.pts + ns[0], false, r.emitted + [CapturedFrame(r.pts, ns[0])]);
    assert Callbacks(ns)[1..] == Callbacks(ns[1..]);
  }

  /** While paused, callbacks emit nothing and leave the counter unchanged. */
  lemma {:induction false} ReplayPaused(r: Recorder, ns: seq<nat>)
    requires r.paused
    ensures Replay(r, Callbacks(ns)) == r
    decreases |ns|
  {
    if ns != [] {
      assert Callbacks(ns)[1..] == Callbacks(ns[1..]);
      ReplayPaused(r, ns[1..]);
    }
  }

  /**
   * Pausing, receiving any callbacks, then resuming is invisible to what follows: the
   * frames after `resume` are exactly those that would have been emitted had the pause
   * never happened, with timestamps continuing from the same counter.
   */
  lemma PauseResumeSeamless(r: Recorder, held: seq<nat>, ns: seq<nat>)
    requires !r.paused
    ensures Replay(r, [Pause] + Callbacks(held) + [Resume] + Callbacks(ns)) == Replay(r, Callbacks(ns))
  {
    var p := Step(r, Pause);
    ReplayAppend(r, [Pause], Callbacks(held));
    ReplayPaused(p, held);
    ReplayAppend(r, [Pause] + Callbacks(held), [Resume]);
    ReplayAppend(r, [Pause] + Callbacks(held) + [Resume], Callbacks(ns));
    assert Replay(p, [Resume]) == r;
  }

  /** In contiguous frames that are none of them empty, a later frame has a larger stamp. */
  lemma {:induction false} ContiguousIncreasing(fs: seq<CapturedFrame>, i: nat, j: nat)
    requires Contiguous(fs) && forall k :: 0 <= k < |fs| ==> fs[k].samples > 0
    requires i < j < |fs|
    ensures fs[i].pts < fs[j].pts
    decreases j - i
  {
    assert fs[j].pts == fs[j - 1].pts + fs[j - 1].samples;
    if i < j - 1 {
      ContiguousIncreasing(fs, i, j - 1);
    }
  }

  /** When every block has at least one sample, timestamps strictly increase along the queue. */
  lemma StampStrictlyIncreasing(pts: nat, ns: seq<nat>)
    requires forall i :: 0 <= i < |ns| ==> ns[i] > 0
    ensures forall i, j :: 0 <= i < j < |ns| ==> Stamp(pts, ns)[i].pts < Stamp(pts, ns)[j].pts
  {
    var fs := Stamp(pts, ns);
    StampContiguous(pts, ns);
    forall k | 0 <= k < |fs|
      ensures fs[k].samples > 0
    {
      SampleCountsAt(fs, k);
    }
    forall i, j | 0 <= i < j < |ns|
      ensures fs[i].pts < fs[j].pts
    {
      ContiguousIncreasing(fs, i, j);
    }
  }

  /** Five 960-sample callbacks from a fresh start queue frames stamped 0, 960, 1920, 2880, 3840. */
  lemma FiveCallbacksScenario()
    ensures Replay(Recorder(0, false, []), Callbacks([960, 960, 960, 960, 960])).emitted
         == [CapturedFrame(0, 960), CapturedFrame(960, 960), CapturedFrame(1920, 960),
             CapturedFrame(2880, 960), CapturedFrame(3840, 960)]
  {
    var ns: seq<nat> := [960, 960, 960, 960, 960];
    ReplayUnpaused(Recorder(0, false, []), ns);
    assert Stamp(3840, ns[4..]) == [CapturedFrame(3840, 960)];
    assert Stamp(2880, ns[3..]) == [CapturedFrame(2880, 960)] + Stamp(3840, ns[4..]);
    assert Stamp(1920, ns[2..]) == [CapturedFrame(1920, 960)] + Stamp(2880, ns[3..]);
    assert Stamp(960, ns[1..]) == [CapturedFrame(960, 960)] + Stamp(1920, ns[2..]);
    assert Stamp(0, ns) == [CapturedFrame(0, 960)] + Stamp(960, ns[1..]);
  }

  /** The asyncio queue shared between a handler's callback (producer) and its track (consumer). */
  class FrameQueue {
    var items: seq<CapturedFrame>

    constructor ()
      ensures items == []
    {
      items := [];
    }
  }

  class AudioHandler {
    const sampleRate: nat
    const channels: nat
    const frameDuration: nat
    const frameSize: nat
    var inputDevice: Option<int>
    var outputDevice: Option<int>
    /** The input stream object is held (`self.stream is not None`). */
    var hasStream: bool
    var isRecording: bool
    var isPaused: bool
    var pts: nat
    /** The queue the running callback pushes onto (the argument of the last `start_recording`). */
    var sink: FrameQueue?

    ghost predicate Valid()
      reads this
    {
      && frameSize == FrameSize(sampleRate, frameDuration)
      && (hasStream ==> isRecording)
      && (isRecording ==> sink != null)
    }

    /** The callback-side view of this handler. */
    function State(): Recorder
      reads this, sink
      requires sink != null
    {
      Recorder(pts, isPaused, sink.items)
    }

    constructor (sampleRate: nat, channels: nat, frameDuration: nat,
                 inputDevice: Option<int>, outputDevice: Option<int>)
      ensures Valid()
      ensures this.sampleRate == sampleRate && this.channels == channels
      ensures this.frameDuration == frameDuration
      ensures this.inputDevice == inputDevice && this.outputDevice == outputDevice
      ensures frameSize * 1000 <= sampleRate * frameDuration < (frameSize + 1) * 1000
      ensures !hasStream && !isRecording && !isPaused && pts == 0 && sink == null
    {
      this.sampleRate := sampleRate;
      this.channels := channels;
      this.frameDuration := frameDuration;
      this.inputDevice := inputDevice;
      this.outputDevice := outputDevice;
      frameSize := FrameSize(sampleRate, frameDuration);
      hasStream, isRecording, isPaused := false, false, false;
      pts := 0;
      sink := null;
    }

    /**
     * The setup part of `start_recording(queue)`: a no-op while recording; otherwise marks
     * recording, clears the pause flag, resets the counter, routes the callback to `queue`
     * and opens the input stream. If the stream cannot be opened (`openOk` false) the
     * `finally` clause stops the handler and the error is raised.
     */
    method StartRecording(queue: FrameQueue, openOk: bool) returns (r: Status<CaptureError>)
      requires Valid()
      modifies this
      ensures Valid()
      ensures old(isRecording) ==>
        r == Done && isRecording == old(isRecording) && isPaused == old(isPaused)
        && pts == old(pts) && sink == old(sink) && hasStream == old(hasStream)
      ensures !old(isRecording) && openOk ==>
        r == Done && isRecording && hasStream && !isPaused && pts == 0 && sink == queue
      ensures !old(isRecording) && !openOk ==>
        r == Raised(StreamError) && !isRecording && !hasStream && !isPaused && pts == 0 && sink == queue
      ensures inputDevice == old(inputDevice) && outputDevice == old(outputDevice)
    {
      if isRecording {
        return Done;
      }
      isRecording := true;
      isPaused := false;
      pts := 0;
      sink := queue;
      if !openOk {
        Stop();
        return Raised(StreamError);
      }
      hasStream := true;
      r := Done;
    }

    /**
     * The hardware input callback delivering `n` samples: unless paused, pushes one frame
     * stamped with the counter, then advances the counter by `n`.
     */
    method Callback(n: nat)
      requires Valid() && sink != null
      modifies this, sink
      ensures Valid()
      ensures sink == old(sink)
      ensures State() == Step(old(State()), Samples(n))
      ensures isRecording == old(isRecording) && hasStream == old(hasStream)
      ensures inputDevice == old(inputDevice) && outputDevice == old(outputDevice)
    {
      if !isPaused {
        var frame := CapturedFrame(pts, n);
        pts := pts + n;
        sink.items := sink.items + [frame];
      }
    }

    /** Halts recording and releases the stream; calling it again changes nothing. */
    method Stop()
      modifies this
      ensures !isRecording && !hasStream
      ensures isPaused == old(isPaused) && pts == old(pts) && sink == old(sink)
      ensures inputDevice == old(inputDevice) && outputDevice == old(outputDevice)
    {
      isRecording := false;
      hasStream := false;
    }

    method Pause()
      requires Valid()
      modifies this
      ensures Valid()
      ensures sink == old(sink) && (old(sink) != null ==> State() == Step(old(State()), Event.Pause))
      ensures isPaused && pts == old(pts) && sink == old(sink)
      ensures isRecording == old(isRecording) && hasStream == old(hasStream)
      ensures inputDevice == old(inputDevice) && outputDevice == old(outputDevice)
    {
      isPaused := true;
    }

    method Resume()
      requires Valid()
      modifies this
      ensures Valid()
      ensures sink == old(sink) && (old(sink) != null ==> State() == Step(old(State()), Event.Resume))
      ensures !isPaused && pts == old(pts) && sink == old(sink)
      ensures isRecording == old(isRecording) && hasStream == old(hasStream)
      ensures inputDevice == old(inputDevice) && outputDevice == old(outputDevice)
    {
      isPaused := false;
    }

    /** Selects the input device and releases any open stream without reopening it. */
    method SetInputDevice(index: int)
      requires Valid()
      modifies this
      ensures Valid()
      ensures inputDevice == Some(index) && outputDevice == old(outputDevice) && !hasStream
      ensures isRecording == old(isRecording) && isPaused == old(isPaused)
      ensures pts == old(pts) && sink == old(sink)
    {
      inputDevice := Some(index);
      hasStream := false;
    }

    /** Selects the output device and releases any open stream without reopening it. */
    method SetOutputDevice(index: int)
      requires Valid()
      modifies this
      ensures Valid()
      ensures outputDevice == Some(index) && inputDevice == old(inputDevice) && !hasStream
      ensures isRecording == old(isRecording) && isPaused == old(isPaused)
      ensures pts == old(pts) && sink == old(sink)
    {
      outputDevice := Some(index);
      hasStream := false;
    }
  }
  /**
   * `AudioHandler()` with every default: 48 kHz mono, 20 ms frames of 960 samples, the
   * default devices, and no stream, not recording.
   */
  method DefaultAudioHandler() returns (h: AudioHandler)
    ensures fresh(h) && h.Valid()
    ensures h.sampleRate == 48000 && h.channels == 1 && h.frameDuration == 20 && h.frameSize == 960
    ensures h.inputDevice == None && h.outputDevice == None
    ensures !h.hasStream && !h.isRecording && !h.isPaused && h.pts == 0
  {
    h := new AudioHandler(DEFAULT_SAMPLE_RATE, CAPTURE_CHANNELS, FRAME_DURATION_MS, None, None);
    FrameSizeExact(DEFAULT_SAMPLE_RATE, FRAME_DURATION_MS, 960);
  }


  /** The outbound media track: its own frame queue and the lazily started recording task. */
  class AudioTrack {
    const handler: AudioHandler
    const queue: FrameQueue
    var taskStarted: bool

    constructor (handler: AudioHandler)
      ensures this.handler == handler && fresh(queue) && queue.items == [] && !taskStarted
    {
      this.handler := handler;
      queue := new FrameQueue();
      taskStarted := false;
    }

    /**
     * The next frame for the transport. The first call starts recording into this track's
     * queue (`openOk` says whether the input stream opens); later calls do not. The oldest
     * queued frame is returned and removed; `None` stands for an empty queue, on which the
     * awaiting caller is suspended until the next callback.
     */
    method Recv(openOk: bool) returns (f: Option<CapturedFrame>)
      requires handler.Valid()
      modifies this, handler, queue
      ensures handler.Valid() && taskStarted
      ensures old(taskStarted) || old(handler.isRecording) ==>
        handler.isRecording == old(handler.isRecording) && handler.hasStream == old(handler.hasStream)
        && handler.sink == old(handler.sink) && handler.pts == old(handler.pts)
        && handler.isPaused == old(handler.isPaused)
      ensures !old(taskStarted) && !old(handler.isRecording) ==>
        handler.sink == queue && handler.pts == 0 && handler.isRecording == openOk
        && handler.hasStream == openOk && !handler.isPaused
      ensures handler.inputDevice == old(handler.inputDevice) && handler.outputDevice == old(handler.outputDevice)
      ensures old(queue.items) == [] ==> f == None && queue.items == []
      ensures old(queue.items) != [] ==> f == Some(old(queue.items)[0]) && queue.items == old(queue.items)[1..]
    {
      if !taskStarted {
        taskStarted := true;
        var _ := handler.StartRecording(queue, openOk);
      }
      if queue.items != [] {
        f := Some(queue.items[0]);
        queue.items := queue.items[1..];
      } else {
        f := None;
      }
    }
  }
}
