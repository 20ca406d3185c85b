# Realtime voice client: audio pipelines and session flags

A model of the core of a Python client that streams microphone audio to a realtime
speech service over WebRTC and plays the service's audio back. Three parts are modelled:

- **Playback** (`playback.dfy`, module `Playback`): the `AudioOutput` jitter buffer. Inbound
  frames enter an arrival queue through `play_frame`. That call drops the oldest queued
  frame once the queue holds `max_queue_size` frames. A mover task (`_process_audio`)
  shifts frames one at a time into a playback buffer capped at `max_queue_size`. The
  hardware output callback pops the oldest buffered frame, or plays silence. `start` and
  `stop` are guarded by `is_playing`.
- **Capture** (`capture.dfy`, module `Capture`): `AudioHandler` and `AudioTrack`. The input
  callback stamps each block with a running sample counter and queues it unless capture is
  paused. `start_recording` resets the counter. `stop`, `pause`, `resume` and the device
  setters change the handler's flags. `AudioTrack.recv` starts recording on its first call
  and returns queued frames in order.
- **Session** (`session.dfy`, module `Session`): `OpenAIWebRTCClient`. `start_streaming`
  attempts seven external steps in order and sets `is_streaming` only after the last one.
  `stop_streaming` runs the manager's `cleanup` (playback output, then peer connection) and
  then stops capture. Pause and resume only act while streaming. A transcription is
  handed to the callback when one is set.

`frame_clock.dfy` (module `FrameClock`) holds the shared configuration constants and the
frame-size arithmetic. `results.dfy` (module `Results`) holds the `Option` and `Status`
(success or raised error) datatypes.

Each part has the same shape. Pure functions state the behaviour: `Admit`, `MoveOne`,
`Render`, `Step`/`Replay`/`Stamp`, and `Started`/`Stopped`/`Teardown`. Lemmas prove what the
code promises about them. Classes with the source's fields and `modifies` clauses hold the
methods, and each method's postcondition ties its new state to those functions.

Outcomes of calls into the outside world become boolean or count parameters: whether a
device stream opens (`openOk`, `startOk`), how many connection steps succeed
(`succeeded`), whether closing the peer connection succeeds (`closeOk`), and how many
samples a hardware callback delivers. Resources held by the source (streams, tasks, the
peer connection) become presence flags. Every external call made by the session is
recorded, in order, in `calls`.

Points of the code's behaviour that the model keeps as written:

- The frame size is `int(rate * duration / 1000)`: truncated, not rounded. It can be 0
  (`FrameClock.FrameSizePositive`).
- `stop_streaming` runs `cleanup` before `audio_handler.stop`, so playback stops, then the
  peer connection closes, then capture stops.
- The `except` clause of `start_streaming` calls `stop_streaming`, which shows a cleanup
  was meant, but the guard at client.py:107 makes that call a no-op: a failed start tears
  nothing down (see Findings).
- `create_connection` replaces the manager's peer connection and playback output without
  releasing the previous ones. After a failed start they are still open and playing, so a
  retry leaves them so for good (see Findings). The model counts such dropped resources in
  `strayOutputs` and `strayConnections`.
- The drop-oldest policy applies to the arrival queue in `play_frame`. The playback buffer
  itself never evicts, because the mover only appends while it has room. With capacity 3,
  offering A, B, C, D leaves B, C, D; this holds for the arrival queue.
- The capture queue is an unbounded `asyncio.Queue`: the callback never drops a frame.
- The device setters release the input stream but leave `is_recording` set.
- With `max_queue_size` 0 the arrival queue still admits one frame. The eviction finds
  nothing to remove on an empty queue.
- The playback defaults are 48 kHz with two channels. Capture defaults to one channel.

## Model

| member | source | states |
|---|---|---|
| FrameClock.FrameSize | src/openai_realtime_webrtc/audio_handler.py:43 | the frame size is the largest whole number of samples that fits in the frame duration (the quotient truncated, never rounded up) |
| FrameClock.DefaultBlockSizeIs960 | src/openai_realtime_webrtc/audio_output.py:13-18 | the default playback block size, 20 ms at 48 kHz, is 960 samples |
| FrameClock.FrameSizePositive | src/openai_realtime_webrtc/audio_handler.py:43 | a frame holds at least one sample exactly when rate times duration reaches 1000 |
| FrameClock.FrameSizeExact | src/openai_realtime_webrtc/audio_handler.py:43 | when the duration is a whole number of sample periods the frame size is exactly that number |
| Playback.Silence | src/openai_realtime_webrtc/audio_output.py:116-118 | a silent block has the requested length and only zero samples |
| Playback.Admit | src/openai_realtime_webrtc/audio_output.py:162-170 | after `play_frame` the queue bound is kept, the new frame is the newest and is never lost, and at most one frame is lost |
| Playback.AdmitDropsOnlyOldest | src/openai_realtime_webrtc/audio_output.py:162-170 | the queue after `play_frame` is a suffix of the old queue plus the new frame, and a frame is lost exactly when the queue was non-empty and full |
| Playback.AdmitKeepsLatest | src/openai_realtime_webrtc/audio_output.py:162-170 | with a positive capacity one admission leaves exactly the newest `max_queue_size` frames |
| Playback.AdmitAllBounds | src/openai_realtime_webrtc/audio_output.py:151-173 | over any burst of `play_frame` calls, whatever the capacity, the bound is kept, the queue never shrinks, it grows by at most one frame per call, and the last frame offered is the newest queued |
| Playback.AdmitAllKeepsLatest | src/openai_realtime_webrtc/audio_output.py:151-173 | any burst of `play_frame` calls leaves exactly the newest `max_queue_size` frames of everything offered, in arrival order |
| Playback.CapacityThreeScenario | src/openai_realtime_webrtc/audio_output.py:162-170 | with capacity 3, offering A, B, C, D to an empty queue leaves B, C, D |
| Playback.AdmitZeroCapacity | src/openai_realtime_webrtc/audio_output.py:163-167 | with capacity 0 the failed eviction on an empty queue still lets one frame in, and each admission replaces it |
| Playback.MoveOne | src/openai_realtime_webrtc/audio_output.py:126-144 | one mover iteration keeps every pending frame in order, keeps the buffer bound, and moves one frame exactly when the buffer has room and a frame has arrived |
| Playback.Render | src/openai_realtime_webrtc/audio_output.py:109-121 | the output block always has the block length; it is the popped frame exactly when the frame has that length, otherwise all zeros, never partly filled |
| Playback.AudioOutput.constructor | src/openai_realtime_webrtc/audio_output.py:24-50 | a new output keeps its configuration, is not playing, holds no stream or task and has empty FIFOs; samples per frame is 960 |
| Playback.DefaultAudioOutput | src/openai_realtime_webrtc/webrtc_manager.py:32 | the output the manager builds with every default has 48 kHz, two channels, 960-sample blocks, room for 50 frames, the default device, and nothing queued or playing |
| Playback.AudioOutput.Start | src/openai_realtime_webrtc/audio_output.py:52-74 | a no-op while playing; otherwise it plays only when the stream opens and starts; a start failure leaves the created stream held and not playing; the FIFOs are untouched |
| Playback.AudioOutput.Stop | src/openai_realtime_webrtc/audio_output.py:76-102 | a no-op when not playing; otherwise it cancels the mover, releases the stream and empties both FIFOs |
| Playback.AudioOutput.PlayFrame | src/openai_realtime_webrtc/audio_output.py:151-173 | the arrival queue becomes `Admit` of the old queue; the buffer and the flags are unchanged |
| Playback.AudioOutput.MoveStep | src/openai_realtime_webrtc/audio_output.py:126-144 | while playing, one iteration is `MoveOne`; when not playing, nothing moves |
| Playback.AudioOutput.ProcessAudio | src/openai_realtime_webrtc/audio_output.py:123-149 | the mover loop keeps every pending frame in order and moves the smallest of the rounds run, the buffer's free room and the queued frames |
| Playback.AudioOutput.Callback | src/openai_realtime_webrtc/audio_output.py:104-121 | the callback pops the oldest buffered frame and renders it, or plays silence on an empty buffer; the arrival queue is untouched |
| Capture.Step | src/openai_realtime_webrtc/audio_handler.py:63-75 | one event only ever appends: a callback while not paused adds exactly one frame, stamped with the counter, which advances by its samples; otherwise no frame is added and the counter stays; pause and resume set and clear the flag |
| Capture.StepKeepsStamped | src/openai_realtime_webrtc/audio_handler.py:70-73 | one event keeps the callback's invariant: queued frames are contiguous and the counter sits just past the last one |
| Capture.ReplayExtends | src/openai_realtime_webrtc/audio_handler.py:63-75 | over any run of callbacks, pauses and resumes, queued frames are never altered or dropped, at most one is added per event, and the counter never goes back |
| Capture.ReplayKeepsStamped | src/openai_realtime_webrtc/audio_handler.py:63-75 | any run of events keeps the callback's invariant |
| Capture.Stamp | src/openai_realtime_webrtc/audio_handler.py:70-73 | an unpaused run emits one frame per callback, carrying that callback's sample count, the first stamped with the starting counter |
| Capture.StampContiguous | src/openai_realtime_webrtc/audio_handler.py:72-73 | each emitted frame's timestamp is the previous one's plus its sample count: no gap, no overlap |
| Capture.ReplayUnpaused | src/openai_realtime_webrtc/audio_handler.py:63-75 | unpaused callbacks queue exactly the stamped frames and advance the counter by the total sample count |
| Capture.ReplayPaused | src/openai_realtime_webrtc/audio_handler.py:66 | while paused, callbacks queue nothing and leave the counter unchanged |
| Capture.PauseResumeSeamless | src/openai_realtime_webrtc/audio_handler.py:96-100 | pause, any callbacks, then resume is invisible afterwards: later frames and their timestamps are as if no pause had happened |
| Capture.ContiguousIncreasing | src/openai_realtime_webrtc/audio_handler.py:72-73 | in contiguous frames that are none of them empty, a later frame has a larger timestamp |
| Capture.StampStrictlyIncreasing | src/openai_realtime_webrtc/audio_handler.py:72-73 | when every callback delivers samples, timestamps strictly increase along the queue |
| Capture.FiveCallbacksScenario | src/openai_realtime_webrtc/audio_handler.py:57-75 | five 960-sample callbacks after a start queue frames stamped 0, 960, 1920, 2880, 3840 |
| Capture.FrameQueue.constructor | src/openai_realtime_webrtc/audio_handler.py:21 | a new frame queue is empty |
| Capture.AudioHandler.constructor | src/openai_realtime_webrtc/audio_handler.py:36-48 | a new handler keeps its configuration, its frame size is the truncated quotient, and it is idle, unpaused, with the counter at 0 |
| Capture.DefaultAudioHandler | src/openai_realtime_webrtc/audio_handler.py:36-43 | a handler built with every default records 48 kHz mono in 20 ms frames of 960 samples, on the default devices, idle with the counter at 0 |
| Capture.AudioHandler.StartRecording | src/openai_realtime_webrtc/audio_handler.py:53-87 | a no-op while recording; otherwise recording, unpaused, counter 0 and routed to the given queue; if the stream cannot be opened or started the handler is stopped, releases the stream, and StreamError is raised |
| Capture.AudioHandler.Callback | src/openai_realtime_webrtc/audio_handler.py:63-75 | one callback is one `Step` of the recorder: unless paused it queues a frame stamped with the counter and advances the counter |
| Capture.AudioHandler.Stop | src/openai_realtime_webrtc/audio_handler.py:89-94 | recording ends and the stream is released, from any state; pause flag, counter and devices are unchanged |
| Capture.AudioHandler.Pause | src/openai_realtime_webrtc/audio_handler.py:96-97 | sets the pause flag only |
| Capture.AudioHandler.Resume | src/openai_realtime_webrtc/audio_handler.py:99-100 | clears the pause flag only |
| Capture.AudioHandler.SetInputDevice | src/openai_realtime_webrtc/audio_handler.py:102-107 | selects the input device and releases any open stream without reopening it; recording and pause flags are unchanged |
| Capture.AudioHandler.SetOutputDevice | src/openai_realtime_webrtc/audio_handler.py:109-114 | selects the output device and releases any open stream without reopening it; recording and pause flags are unchanged |
| Capture.AudioTrack.constructor | src/openai_realtime_webrtc/audio_handler.py:18-22 | a new track has its own empty queue and no recording task |
| Capture.AudioTrack.Recv | src/openai_realtime_webrtc/audio_handler.py:24-33 | the first call starts recording into the track's queue (unpaused, counter 0, stream held exactly when it opens), unless the handler already records, which it then leaves as it was; later calls leave the handler as it was; the devices are untouched; the oldest queued frame is returned and removed |
| Session.Teardown | src/openai_realtime_webrtc/webrtc_manager.py:67-75 | cleanup drops the playback output and, unless its close raises, the peer connection, then capture stops; a raising close leaves streaming and capture as they were |
| Session.Stopped | src/openai_realtime_webrtc/client.py:105-118 | a no-op when not streaming; from a live session it calls StopPlayback, ClosePeerConnection, StopCapture in that order and ends not streaming with everything released; a raising close stops after two calls, still streaming; it strands nothing |
| Session.Started | src/openai_realtime_webrtc/client.py:64-103 | a no-op while streaming; otherwise streaming and success exactly when every step succeeds, making exactly the calls attempted, in order; a failure raises the failing step's error; capture is untouched; once the peer connection is created, the manager's previous connection, if open, and its previous output, if playing, are stranded |
| Session.Progress | src/openai_realtime_webrtc/client.py:70-95 | after the first `k` steps succeed the calls are exactly those steps, in order, and capture and the streaming and pause flags are untouched |
| Session.Connect | src/openai_realtime_webrtc/client.py:70-95 | when the first `k` steps succeed and the next raises, the calls are exactly those attempted, in order; capture and the flags are untouched; past `create_connection` everything is up; a new peer connection strands an open previous one and a new output a playing previous one |
| Session.OpenFails | src/openai_realtime_webrtc/webrtc_manager.py:29 | a failing peer-connection creation leaves only its call |
| Session.PlaybackFails | src/openai_realtime_webrtc/webrtc_manager.py:29-33 | a failing playback start leaves the new peer connection held and a new output that does not play, the previous ones stranded |
| Session.ConnectionCreated | src/openai_realtime_webrtc/webrtc_manager.py:26-33 | once both steps succeed the output plays and the client stores its peer connection |
| Session.ProgressStep | src/openai_realtime_webrtc/client.py:74-95 | each later step only adds its call, whether it succeeds or raises |
| Session.StartCompletes | src/openai_realtime_webrtc/client.py:97 | after every step has succeeded, the start only sets `is_streaming` |
| Session.FailedStart | src/openai_realtime_webrtc/client.py:100-103 | a failed start leaves exactly the effect of the steps attempted and raises the failing step's error |
| Session.StartFailureSkipsTeardown | src/openai_realtime_webrtc/client.py:100-108 | a start failing after the playback output is up leaves it playing and the peer connection open, with no teardown call made |
| Session.StartCleanlyReleases | src/openai_realtime_webrtc/client.py:100-103 | with the intended teardown a failed start raises the step's error and leaves nothing streaming, playing, connected or recording, after the teardown calls |
| Session.StartCleanlyAgrees | src/openai_realtime_webrtc/client.py:64-103 | on success, or while already streaming, the intended start equals the start as written |
| Session.Paused | src/openai_realtime_webrtc/client.py:120-124 | pauses capture exactly when streaming and changes nothing else |
| Session.Resumed | src/openai_realtime_webrtc/client.py:126-130 | resumes capture exactly when streaming and changes nothing else |
| Session.SessionLifecycle | src/openai_realtime_webrtc/client.py:64-130 | start with every step succeeding, pause, resume, stop: live in between, then all seven start calls and the three teardown calls in order, with everything released; an output still playing or a connection still open beforehand is stranded |
| Session.RetryAfterFailedStartLeaks | src/openai_realtime_webrtc/webrtc_manager.py:26-33 | a start failing after playback is up, retried successfully and then stopped, ends with one output still playing and one connection still open that nothing references |
| Session.CleanRetryReleases | src/openai_realtime_webrtc/client.py:100-103 | with the intended teardown the same retry strands nothing |
| Session.Client.constructor | src/openai_realtime_webrtc/client.py:37-62 | a new client keeps its configuration, builds its capture handler from it, and is not streaming, holds nothing and has no transcription callback |
| Session.Client.Abort | src/openai_realtime_webrtc/client.py:100-103 | the error path calls `stop_streaming`, which changes nothing, then raises the failing step's error |
| Session.Client.CreateConnection | src/openai_realtime_webrtc/webrtc_manager.py:26-33 | the peer connection is created, then the playback output is built and started, then the client stores the peer connection; the step that raises, if any, is reported |
| Session.Client.OpenPeer | src/openai_realtime_webrtc/webrtc_manager.py:29 | creating the peer connection adds its call only |
| Session.Client.BuildOutput | src/openai_realtime_webrtc/webrtc_manager.py:29-33 | the new connection and a new, not yet playing output replace the previous ones, which are stranded when still open or playing |
| Session.Client.Attempt | src/openai_realtime_webrtc/client.py:74-95 | one later step is attempted and either succeeds or raises, adding its call either way |
| Session.Client.Negotiate | src/openai_realtime_webrtc/client.py:74-95 | the transceiver, offer, local description, signaling and remote description steps run in order up to the first that raises |
| Session.Client.Offer | src/openai_realtime_webrtc/client.py:78-80 | the offer is created, then set as the local description, up to the first that raises |
| Session.Client.Answer | src/openai_realtime_webrtc/client.py:82-95 | the offer is sent to the service, then its answer set as the remote description, up to the first that raises |
| Session.Client.StartStreaming | src/openai_realtime_webrtc/client.py:64-103 | the new state and result are `Started` of the old state; the capture handler is untouched |
| Session.Client.StopStreaming | src/openai_realtime_webrtc/client.py:105-118 | the new state and result are `Stopped` of the old state; when not streaming nothing changes |
| Session.Client.PauseStreaming | src/openai_realtime_webrtc/client.py:120-124 | the new state is `Paused` of the old state |
| Session.Client.ResumeStreaming | src/openai_realtime_webrtc/client.py:126-130 | the new state is `Resumed` of the old state |
| Session.Client.SetAudioInputDevice | src/openai_realtime_webrtc/client.py:132-133 | selects the input device on the handler, which releases its stream; the other device, the capture counter and the queue it feeds are unchanged, and nothing else changes |
| Session.Client.SetAudioOutputDevice | src/openai_realtime_webrtc/client.py:135-136 | selects the output device on the handler, which releases its stream; the other device, the capture counter and the queue it feeds are unchanged, and nothing else changes |
| Session.Client.SetTranscriptionCallback | src/openai_realtime_webrtc/client.py:62 | sets or clears `on_transcription`; nothing else changes |
| Session.Client.HandleTranscription | src/openai_realtime_webrtc/client.py:138-141 | the text reaches the callback unchanged, once, exactly when a callback is set |

## Left out

- HTTP signaling (`get_ephemeral_token`, `connect_to_openai`, webrtc_manager.py:77-148) is left out. It is network I/O. Its outcome is the success or failure of the ConnectToOpenAI step. The `system_message` default is a one-element tuple because of a trailing comma; it only matters to that signaling, so it is not modelled.
- The peer connection's `track`, `connectionstatechange` and `iceconnectionstatechange` handlers (webrtc_manager.py:35-63) are left out. They are callbacks driven by the transport library. Their effect on playback is that they call `play_frame` and `stop`, which are modelled.
- Sound-device streams, device queries (`get_default_audio_info`) and `create_audio_track` are left out as hardware or library calls. Streams become presence flags. Open and start outcomes become parameters.
- NumPy and PyAV conversions (`to_ndarray`, `astype`, `tobytes`, `reshape`) are left out. A playback frame is its sequence of samples. A captured frame is its timestamp and sample count; its sample rate field is not kept. A reshape succeeds exactly when the sample counts match.
- asyncio timing is left out: the 0.1 s `wait_for`, the sleeps, task cancellation and the cross-thread `run_coroutine_threadsafe`. The model runs each step to completion in sequence. A timed-out wait in the mover is an iteration in which nothing moves.
- Logging, the status warnings and the debug `print` in the output callback are left out; they have no effect on state.
- Playback.AudioOutput.ProcessAudio: runs a given number of iterations rather than until `stop`, because the source loop only ends on a flag set by another task.
- Capture.AudioTrack.Recv: returns `None` on an empty queue, where the source's `await` suspends until a frame arrives.
- Capture.AudioHandler.StartRecording: models the setup and the stream opening only. The wait loop and its `finally: stop()` run concurrently with everything else. The case where a stale recording task's `finally` stops a newer stream is not modelled.
- Capture.AudioHandler.Stop: sound-device errors from `stream.stop()` or `close()` are not modelled.
- Session.Teardown: only closing the peer connection can raise. `AudioOutput.stop` catches its own errors, and capture-stream errors are hardware errors that are left out.
- The client does not keep the `AudioTrack` it creates, so the model does not link the client's handler to a track.
- A negative `max_queue_size` is not modelled: the capacity is a `nat`.
- Samples are unbounded integers. The 16-bit sample range and the floating-point evaluation of the frame-size quotient for very large values are not modelled.

## Findings

| source | as written | input that shows it | evidently intended | confidence | as-written member | corrected member |
|---|---|---|---|---|---|---|
| src/openai_realtime_webrtc/client.py:100-108 | the error path of `start_streaming` calls `stop_streaming`, which returns at once because `is_streaming` is still false, so nothing built so far is released | a fresh client whose `setLocalDescription` raises (`succeeded` = 4): the playback output keeps playing and the peer connection stays open | a failed start tears down the playback output, the peer connection and capture | not executed; high | Session.StartFailureSkipsTeardown | Session.StartCleanlyReleases |
| src/openai_realtime_webrtc/webrtc_manager.py:26-33 | `create_connection` overwrites `peer_connection` and `audio_output` without closing or stopping the previous ones, which a failed start has left open and playing | a fresh client whose `setLocalDescription` raises once, then starts successfully and stops: one output keeps playing and one peer connection stays open, and nothing references them any more | a retry finds nothing left over, because the failed start released it | not executed; high | Session.RetryAfterFailedStartLeaks | Session.CleanRetryReleases |

The client class keeps the behaviour as written (`Session.Started`), because that is what
the code does. `Session.StartedCleanly` is the corrected definition. It reuses the same
teardown (`Session.Teardown`) that `stop_streaming` performs.
`Session.StartCleanlyAgrees` shows that the two definitions agree everywhere except on a
failed start. The model counts, rather than identifies, the outputs and peer connections
that `create_connection` drops (`strayOutputs`, `strayConnections`); the counters are ghost
state of the client and change nothing it does.
