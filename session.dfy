/**
 * Session flag machine of the client. `start_streaming` runs the connection steps in order
 * and sets `is_streaming` only after the last one; `stop_streaming` tears down playback,
 * the peer connection and capture in that order; pause and resume delegate to the capture
 * handler while streaming. Each external step is reduced to its outcome and to the flags
 * it changes, and every external call made is recorded, in order, in `calls`.
 */
module Session {
  import opened Results
  import Capture

  /** The external calls the session makes. */
  datatype Call =
    | OpenPeerConnection    // create_connection: a new RTCPeerConnection
    | StartPlayback         // create_connection: a new AudioOutput, then its start()
    | AddTransceiver        // the capture track is attached, send and receive
    | CreateOffer
    | SetLocalDescription
    | ConnectToOpenAI       // ephemeral token, then the offer/answer exchange
    | SetRemoteDescription
    | StopPlayback          // cleanup: audio_output.stop()
    | ClosePeerConnection   // cleanup: peer_connection.close()
    | StopCapture           // audio_handler.stop()

  /** The steps of `start_streaming`, in the order it attempts them. */
  const START_STEPS: seq<Call> :=
    [OpenPeerConnection, StartPlayback, AddTransceiver, CreateOffer,
     SetLocalDescription, ConnectToOpenAI, SetRemoteDescription]

  /** The calls of a complete `stop_streaming`, in order. */
  const TEARDOWN_STEPS: seq<Call> := [StopPlayback, ClosePeerConnection, StopCapture]

  /**
   * The client's flags, the manager's resources and the capture handler's flags.
   * `peerConnection` is the client's own reference, set once `create_connection` returns;
   * `hasOutput`/`outputPlaying` describe the manager's `AudioOutput`; `hasTransport` says the
   * manager holds a peer connection; `recording`, `paused` and `captureStream` mirror the
   * capture handler. `strayOutputs` and `strayConnections` count playback outputs left
   * playing and peer connections left open that nothing references any more: the manager
   * overwrites its references without releasing what they pointed to.
   */
  datatype SessionState = SessionState(
    isStreaming: bool,
    peerConnection: bool,
    hasOutput: bool,
    outputPlaying: bool,
    hasTransport: bool,
    recording: bool,
    paused: bool,
    captureStream: bool,
    calls: seq<Call>,
    strayOutputs: nat,
    strayConnections: nat)

  /**
   * Streaming implies the client has obtained its peer connection; only an existing
   * output can play; the capture stream is only held while recording.
   */
  ghost predicate Inv(s: SessionState) {
    && (s.isStreaming ==> s.peerConnection)
    && (s.outputPlaying ==> s.hasOutput)
    && (s.captureStream ==> s.recording)
  }

  /** The state a successful `start_streaming` leaves: every resource it builds is up. */
  ghost predicate Live(s: SessionState) {
    s.isStreaming && s.peerConnection && s.hasOutput && s.outputPlaying && s.hasTransport
  }

  /**
   * The state once the first `k` connection steps have succeeded, before the next one is
   * attempted. Creating the peer connection replaces the manager's previous one, which is
   * left open; starting the new output follows building it, which replaces the previous
   * output, left playing if it was; only then does the client store its peer connection.
   * The later steps change no flag.
   */
  function Progress(s: SessionState, k: nat): (r: SessionState)
    requires k <= |START_STEPS|
    ensures r.calls == s.calls + START_STEPS[..k]
    ensures r.isStreaming == s.isStreaming && r.recording == s.recording && r.paused == s.paused
    ensures r.captureStream == s.captureStream
  {
    s.(calls := s.calls + START_STEPS[..k],
       hasTransport := s.hasTransport || k >= 1,
       strayConnections := s.strayConnections + (if k >= 1 && s.hasTransport then 1 else 0),
       hasOutput := s.hasOutput || k >= 2,
       outputPlaying := if k >= 2 then true else s.outputPlaying,
       strayOutputs := s.strayOutputs + (if k >= 2 && s.outputPlaying then 1 else 0),
       peerConnection := s.peerConnection || k >= 2)
  }

  /**
   * The effect of the connection steps when the first `k` succeed and the next one, if any,
   * raises: the progress so far plus the failing step's call. Attempting to start the
   * playback output means it has already been built, so a failure there leaves a new
   * output that does not play.
   * The ensures say the calls are exactly those attempted, in order, capture is untouched,
   * everything is up once step 2 is reached, and a new output or peer connection leaves the
   * previous playing output or open connection stray.
   */
  function Connect(s: SessionState, k: nat): (r: SessionState)
    ensures r.calls == s.calls + START_STEPS[..if k < |START_STEPS| then k + 1 else |START_STEPS|]
    ensures r.isStreaming == s.isStreaming && r.recording == s.recording && r.paused == s.paused
    ensures r.captureStream == s.captureStream
    ensures k >= 2 ==> r.hasTransport && r.hasOutput && r.outputPlaying && r.peerConnection
    ensures r.peerConnection == (s.peerConnection || k >= 2)
    ensures r.strayOutputs == s.strayOutputs + (if k >= 1 && s.outputPlaying then 1 else 0)
    ensures r.strayConnections == s.strayConnections + (if k >= 1 && s.hasTransport then 1 else 0)
  {
    if k >= |START_STEPS| then Progress(s, |START_STEPS|)
    else
      var p := Progress(s, k);
      assert START_STEPS[..k + 1] == START_STEPS[..k] + [START_STEPS[k]];
      var t := p.(calls := p.calls + [START_STEPS[k]]);
      if k == 1 then
        t.(hasOutput := true, outputPlaying := false,
           strayOutputs := t.strayOutputs + (if t.outputPlaying then 1 else 0))
      else t
  }

  /**
   * A later step that raises leaves its call added to the progress so far; one that
   * succeeds leaves the progress of the next step.
   */
  lemma ProgressStep(s: SessionState, k: nat)
    requires 2 <= k < |START_STEPS|
    ensures Progress(s, k + 1) == Connect(s, k)
  {
    assert START_STEPS[..k + 1] == START_STEPS[..k] + [START_STEPS[k]];
  }

  /** The peer connection has been opened; nothing else yet. */
  function Opened(s: SessionState): SessionState {
    s.(calls := s.calls + [OpenPeerConnection])
  }

  /**
   * The peer connection has been created and the playback output built, not yet started;
   * the manager's previous ones are dropped unreleased.
   */
  function Built(s: SessionState): SessionState {
    s.(calls := s.calls + [OpenPeerConnection, StartPlayback], hasTransport := true,
               strayConnections := s.strayConnections + (if s.hasTransport then 1 else 0),
               hasOutput := true, outputPlaying := false,
               strayOutputs := s.strayOutputs + (if s.outputPlaying then 1 else 0))
  }

  /** A failure opening the peer connection leaves only its call. */
  lemma OpenFails(s: SessionState)
    ensures Connect(s, 0) == Opened(s)
  {
    assert START_STEPS[..1] == [OpenPeerConnection];
  }

  /** A failure starting the playback output leaves the peer connection and the output built. */
  lemma PlaybackFails(s: SessionState)
    ensures Connect(s, 1) == Built(s)
  {
    assert START_STEPS[..2] == [OpenPeerConnection, StartPlayback];
  }

  /**
   * Once both steps of `create_connection` succeed the output plays and the client stores
   * its peer connection.
   */
  lemma ConnectionCreated(s: SessionState)
    ensures Progress(s, 2) == Built(s).(outputPlaying := true, peerConnection := true)
  {
    assert START_STEPS[..2] == [OpenPeerConnection, StartPlayback];
  }

  /** Once every step has succeeded, `start_streaming` only has to set `is_streaming`. */
  lemma StartCompletes(s: SessionState, succeeded: nat)
    requires !s.isStreaming && succeeded >= |START_STEPS|
    ensures Started(s, succeeded) == (Progress(s, |START_STEPS|).(isStreaming := true), Done)
  {
  }

  /**
   * The body of `stop_streaming` after its guard: `cleanup` stops and drops the playback
   * output, then closes and drops the peer connection; then capture stops and
   * `is_streaming` is cleared. If closing the peer connection raises (`closeOk` false),
   * the error propagates before capture is stopped and `is_streaming` stays as it was.
   */
  function Teardown(s: SessionState, closeOk: bool): (r: (SessionState, Status<Call>))
    ensures r.0.peerConnection == s.peerConnection && r.0.paused == s.paused
    ensures !r.0.hasOutput && (Inv(s) ==> !r.0.outputPlaying)
    ensures r.1 == Done <==> closeOk || !s.hasTransport
    ensures r.1 == Done ==> !r.0.isStreaming && !r.0.hasTransport && !r.0.recording && !r.0.captureStream
    ensures r.1 != Done ==>
      r.1 == Raised(ClosePeerConnection) && r.0.isStreaming == s.isStreaming && r.0.hasTransport
      && r.0.recording == s.recording && r.0.captureStream == s.captureStream
    ensures r.0.strayOutputs == s.strayOutputs && r.0.strayConnections == s.strayConnections
  {
    var a := if s.hasOutput
      then s.(hasOutput := false, outputPlaying := false, calls := s.calls + [StopPlayback])
      else s;
    if a.hasTransport && !closeOk then
      (a.(calls := a.calls + [ClosePeerConnection]), Raised(ClosePeerConnection))
    else
      var b := if a.hasTransport then a.(hasTransport := false, calls := a.calls + [ClosePeerConnection]) else a;
      (b.(recording := false, captureStream := false, isStreaming := false, calls := b.calls + [StopCapture]), Done)
  }

  /**
   * `stop_streaming`: a no-op when not streaming. From a live session it makes exactly the
   * calls StopPlayback, ClosePeerConnection, StopCapture in that order and ends not
   * streaming; if the close raises, it stops after the first two and is still streaming.
   */
  function Stopped(s: SessionState, closeOk: bool): (r: (SessionState, Status<Call>))
    ensures !s.isStreaming ==> r == (s, Done)
    ensures Live(s) && closeOk ==>
      r.1 == Done && r.0.calls == s.calls + TEARDOWN_STEPS
      && !r.0.isStreaming && !r.0.outputPlaying && !r.0.hasTransport && !r.0.recording && !r.0.captureStream
    ensures Live(s) && !closeOk ==>
      r.1 == Raised(ClosePeerConnection) && r.0.calls == s.calls + TEARDOWN_STEPS[..2]
      && r.0.isStreaming && !r.0.outputPlaying && r.0.hasTransport && r.0.recording == s.recording
    ensures r.0.strayOutputs == s.strayOutputs && r.0.strayConnections == s.strayConnections
    ensures Inv(s) ==> Inv(r.0)
  {
    if !s.isStreaming then (s, Done) else Teardown(s, closeOk)
  }

  /**
   * `start_streaming` as written, where the first `succeeded` steps succeed. A no-op while
   * streaming. Otherwise the session is streaming exactly when every step succeeded; on a
   * failure the failing step's error is raised after the `stop_streaming` of the error
   * path, which does nothing because `is_streaming` is still false.
   */
  function Started(s: SessionState, succeeded: nat): (r: (SessionState, Status<Call>))
    ensures s.isStreaming ==> r == (s, Done)
    ensures !s.isStreaming ==> (r.0.isStreaming <==> succeeded >= |START_STEPS|)
    ensures !s.isStreaming ==> (r.1 == Done <==> succeeded >= |START_STEPS|)
    ensures !s.isStreaming && succeeded >= |START_STEPS| ==> Live(r.0) && r.0.calls == s.calls + START_STEPS
    ensures !s.isStreaming && succeeded < |START_STEPS| ==>
      r.1 == Raised(START_STEPS[succeeded]) && r.0.calls == s.calls + START_STEPS[..succeeded + 1]
    ensures r.0.recording == s.recording && r.0.paused == s.paused && r.0.captureStream == s.captureStream
    ensures !s.isStreaming && succeeded >= 1 ==>
      r.0.strayOutputs == s.strayOutputs + (if s.outputPlaying then 1 else 0)
      && r.0.strayConnections == s.strayConnections + (if s.hasTransport then 1 else 0)
    ensures Inv(s) ==> Inv(r.0)
  {
    if s.isStreaming then (s, Done)
    else if succeeded >= |START_STEPS| then (Connect(s, succeeded).(isStreaming := true), Done)
    else (Stopped(Connect(s, succeeded), true).0, Raised(START_STEPS[succeeded]))
  }

  /** A failed start leaves exactly the effect of the steps attempted so far. */
  lemma FailedStart(s: SessionState, k: nat)
    requires !s.isStreaming && k < |START_STEPS|
    ensures Started(s, k) == (Connect(s, k), Raised(START_STEPS[k]))
  {
  }

  /**
   * A start that fails after the playback output is up leaves it playing and the peer
   * connection open, without a single teardown call: the error path's `stop_streaming`
   * is guarded by `is_streaming`, which is still false.
   */
  lemma StartFailureSkipsTeardown(s: SessionState, succeeded: nat)
    requires !s.isStreaming && 2 <= succeeded < |START_STEPS|
    ensures Started(s, succeeded).1 == Raised(START_STEPS[succeeded])
    ensures !Started(s, succeeded).0.isStreaming
    ensures Started(s, succeeded).0.outputPlaying && Started(s, succeeded).0.hasTransport
    ensures forall c :: c in TEARDOWN_STEPS ==> c !in Started(s, succeeded).0.calls[|s.calls|..]
  {
    var t := Started(s, succeeded).0;
    assert t == Connect(s, succeeded);
    assert t.calls[|s.calls|..] == START_STEPS[..succeeded + 1];
  }

  /**
   * `start_streaming` as evidently intended: a failing step triggers the full teardown of
   * whatever was built, whatever the value of `is_streaming`.
   */
  function StartedCleanly(s: SessionState, succeeded: nat, closeOk: bool): (r: (SessionState, Status<Call>))
  {
    if s.isStreaming then (s, Done)
    else if succeeded >= |START_STEPS| then (Connect(s, succeeded).(isStreaming := true), Done)
    else (Teardown(Connect(s, succeeded), closeOk).0, Raised(START_STEPS[succeeded]))
  }

  /**
   * With the intended teardown, a failed start raises the failing step's error and leaves
   * the session not streaming with playback stopped, the peer connection closed and
   * capture stopped, after making the teardown calls for what had been built.
   */
  lemma StartCleanlyReleases(s: SessionState, succeeded: nat)
    requires Inv(s) && !s.isStreaming && succeeded < |START_STEPS|
    ensures StartedCleanly(s, succeeded, true).1 == Raised(START_STEPS[succeeded])
    ensures var t := StartedCleanly(s, succeeded, true).0;
      !t.isStreaming && !t.outputPlaying && !t.hasTransport && !t.recording && !t.captureStream
    ensures succeeded >= 1 ==>
      StartedCleanly(s, succeeded, true).0.calls == s.calls + START_STEPS[..succeeded + 1] + TEARDOWN_STEPS
    ensures StartedCleanly(s, succeeded, true).0.paused == s.paused
    ensures !s.hasOutput && !s.hasTransport ==>
      StartedCleanly(s, succeeded, true).0.strayOutputs == s.strayOutputs
      && StartedCleanly(s, succeeded, true).0.strayConnections == s.strayConnections
  {
    var c := Connect(s, succeeded);
    if succeeded >= 1 {
      assert c.hasOutput && c.hasTransport;
      assert Teardown(c, true).0.calls == c.calls + TEARDOWN_STEPS;
    }
  }

  /** On success, or while already streaming, the intended start agrees with the start as written. */
  lemma StartCleanlyAgrees(s: SessionState, succeeded: nat, closeOk: bool)
    requires s.isStreaming || succeeded >= |START_STEPS|
    ensures StartedCleanly(s, succeeded, closeOk) == Started(s, succeeded)
  {
  }

  /** `pause_streaming`: pauses capture while streaming; changes nothing else, ever. */
  function Paused(s: SessionState): (r: SessionState)
    ensures r.paused == (s.paused || s.isStreaming)
    ensures r.(paused := s.paused) == s
  {
    if s.isStreaming then s.(paused := true) else s
  }

  /** `resume_streaming`: resumes capture while streaming; changes nothing else, ever. */
  function Resumed(s: SessionState): (r: SessionState)
    ensures r.paused == (s.paused && !s.isStreaming)
    ensures r.(paused := s.paused) == s
  {
    if s.isStreaming then s.(paused := false) else s
  }

  /**
   * A full session: start with every step succeeding, pause, resume, stop. What the session
   * built is released; an output still playing or a peer connection still open from an
   * earlier failed start was replaced by the new one and stays stray.
   */
  lemma SessionLifecycle(s: SessionState)
    requires !s.isStreaming && !s.paused
    ensures var live := Started(s, |START_STEPS|).0;
      var resumed := Resumed(Paused(live));
      var (stopped, st) := Stopped(resumed, true);
      && Live(live) && resumed == live && st == Done
      && stopped.calls == s.calls + START_STEPS + TEARDOWN_STEPS
      && !stopped.isStreaming && !stopped.outputPlaying && !stopped.hasTransport && !stopped.recording
      && stopped.strayOutputs == s.strayOutputs + (if s.outputPlaying then 1 else 0)
      && stopped.strayConnections == s.strayConnections + (if s.hasTransport then 1 else 0)
  {
    var live := Started(s, |START_STEPS|).0;
    assert Resumed(Paused(live)) == live;
    assert s.calls + START_STEPS + TEARDOWN_STEPS == live.calls + TEARDOWN_STEPS;
  }

  /**
   * Retrying after a start that failed once playback was up: the retry replaces the
   * playing output and the open peer connection, and the final stop releases only the new
   * ones, so one output keeps playing and one connection stays open for good.
   */
  lemma RetryAfterFailedStartLeaks(s: SessionState, k: nat)
    requires Inv(s) && !s.isStreaming && !s.paused && !s.hasOutput && !s.hasTransport && !s.outputPlaying
    requires 2 <= k < |START_STEPS|
    ensures var failed := Started(s, k).0;
      var (stopped, st) := Stopped(Started(failed, |START_STEPS|).0, true);
      && st == Done && !stopped.isStreaming && !stopped.outputPlaying && !stopped.hasTransport
      && stopped.strayOutputs == s.strayOutputs + 1
      && stopped.strayConnections == s.strayConnections + 1
  {
    var failed := Started(s, k).0;
    StartFailureSkipsTeardown(s, k);
    SessionLifecycle(failed);
  }

  /**
   * With the intended teardown, the same retry leaves nothing stray: the failed start
   * released what it built before the retry built anew.
   */
  lemma CleanRetryReleases(s: SessionState, k: nat)
    requires Inv(s) && !s.isStreaming && !s.paused && !s.hasOutput && !s.hasTransport && !s.outputPlaying
    requires k < |START_STEPS|
    ensures var failed := StartedCleanly(s, k, true).0;
      var (stopped, st) := Stopped(Started(failed, |START_STEPS|).0, true);
      && st == Done && !stopped.isStreaming && !stopped.outputPlaying && !stopped.hasTransport
      && stopped.strayOutputs == s.strayOutputs
      && stopped.strayConnections == s.strayConnections
  {
    var failed := StartedCleanly(s, k, true).0;
    StartCleanlyReleases(s, k);
    assert !failed.paused;
    SessionLifecycle(failed);
  }

  /** The client object: its own flags, the manager's resources it drives, and its capture handler. */
  class Client {
    const apiKey: string
    const model: string
    const systemMessage: string
    const handler: Capture.AudioHandler
    var isStreaming: bool
    var peerConnection: bool
    var hasOutput: bool
    var outputPlaying: bool
    var hasTransport: bool
    var calls: seq<Call>
    /** `on_transcription` is set. */
    var hasTranscriptionCallback: bool
    /** The texts passed to `on_transcription`, in order. */
    var transcripts: seq<string>
    /** Playback outputs and peer connections the manager dropped without releasing them. */
    ghost var strayOutputs: nat
    ghost var strayConnections: nat

    ghost function View(): SessionState
      reads this, handler
    {
      SessionState(isStreaming, peerConnection, hasOutput, outputPlaying, hasTransport,
                   handler.isRecording, handler.isPaused, handler.hasStream, calls,
                   strayOutputs, strayConnections)
    }

    ghost predicate Valid()
      reads this, handler
    {
      handler.Valid() && Inv(View())
    }

    constructor (apiKey: string, model: string, sampleRate: nat, channels: nat,
                 frameDuration: nat, systemMessage: string)
      ensures Valid() && fresh(handler)
      ensures this.apiKey == apiKey && this.model == model && this.systemMessage == systemMessage
      ensures handler.sampleRate == sampleRate && handler.channels == channels
      ensures handler.frameDuration == frameDuration
      ensures View() == SessionState(false, false, false, false, false, false, false, false, [], 0, 0)
      ensures !hasTranscriptionCallback && transcripts == []
    {
      this.apiKey := apiKey;
      this.model := model;
      this.systemMessage := systemMessage;
      handler := new Capture.AudioHandler(sampleRate, channels, frameDuration, None, None);
      isStreaming, peerConnection := false, false;
      hasOutput, outputPlaying, hasTransport := false, false, false;
      calls := [];
      strayOutputs, strayConnections := 0, 0;
      hasTranscriptionCallback := false;
      transcripts := [];
    }

    /**
     * The `except` branch of `start_streaming` once step `k` has raised: call
     * `stop_streaming`, then re-raise. `s0` is the state before the start.
     */
    method Abort(ghost s0: SessionState, k: nat) returns (r: Status<Call>)
      requires Valid() && !s0.isStreaming && k < |START_STEPS|
      requires View() == Connect(s0, k)
      modifies this, handler
      ensures Valid() && (View(), r) == Started(s0, k)
      ensures unchanged(this) && unchanged(handler)
    {
      var _ := StopStreaming(true);
      r := Raised(START_STEPS[k]);
      FailedStart(s0, k);
    }

    /**
     * `webrtc_manager.create_connection` within `start_streaming`: the peer connection is
     * created, then the playback output is built and started; the client then stores its
     * peer connection. Returns the error of the step that raised, if any.
     */
    method CreateConnection(ghost s0: SessionState, succeeded: nat) returns (r: Status<Call>)
      requires View() == s0
      modifies this
      ensures (View(), r) ==
        if succeeded < 2 then (Connect(s0, succeeded), Raised(START_STEPS[succeeded]))
        else (Progress(s0, 2), Done)
      ensures hasTranscriptionCallback == old(hasTranscriptionCallback) && transcripts == old(transcripts)
    {
      OpenPeer(s0);
      if succeeded == 0 {
        OpenFails(s0);
        return Raised(OpenPeerConnection);
      }
      BuildOutput(s0);
      if succeeded == 1 {
        PlaybackFails(s0);
        return Raised(StartPlayback);
      }
      outputPlaying, peerConnection := true, true;
      ConnectionCreated(s0);
      r := Done;
    }

    /** The manager creates its peer connection. */
    method OpenPeer(ghost s0: SessionState)
      requires View() == s0
      modifies this
      ensures View() == Opened(s0)
      ensures hasTranscriptionCallback == old(hasTranscriptionCallback) && transcripts == old(transcripts)
    {
      calls := calls + [OpenPeerConnection];
    }

    /**
     * The manager stores the new peer connection and builds its playback output, dropping
     * the previous connection and output, if any, unreleased; then it starts the output.
     */
    method BuildOutput(ghost s0: SessionState)
      requires View() == Opened(s0)
      modifies this
      ensures View() == Built(s0)
      ensures hasTranscriptionCallback == old(hasTranscriptionCallback) && transcripts == old(transcripts)
    {
      assert calls + [StartPlayback] == s0.calls + [OpenPeerConnection, StartPlayback];
      calls, hasTransport, hasOutput, outputPlaying, strayConnections, strayOutputs :=
        calls + [StartPlayback], true, true, false,
        strayConnections + (if hasTransport then 1 else 0), strayOutputs + (if outputPlaying then 1 else 0);
    }

    /**
     * One of the later connection steps, `step`, the `k`th: it is attempted and either
     * succeeds or raises.
     */
    method Attempt(ghost s0: SessionState, k: nat, step: Call, succeeded: nat) returns (r: Status<Call>)
      requires 2 <= k < |START_STEPS| && step == START_STEPS[k]
      requires k <= succeeded && View() == Progress(s0, k)
      modifies this
      ensures r == Done <==> k < succeeded
      ensures r == Done ==> View() == Progress(s0, k + 1)
      ensures r != Done ==> r == Raised(step) && View() == Connect(s0, k)
      ensures hasTranscriptionCallback == old(hasTranscriptionCallback) && transcripts == old(transcripts)
    {
      calls := calls + [step];
      ProgressStep(s0, k);
      r := if succeeded == k then Raised(step) else Done;
    }

    /**
     * The steps of `start_streaming` after `create_connection`: the capture track is
     * attached, then the offer/answer exchange. Returns the error of the step that raised, if any.
     */
    method Negotiate(ghost s0: SessionState, succeeded: nat) returns (r: Status<Call>)
      requires 2 <= succeeded && View() == Progress(s0, 2)
      modifies this
      ensures (View(), r) ==
        if succeeded < |START_STEPS| then (Connect(s0, succeeded), Raised(START_STEPS[succeeded]))
        else (Progress(s0, |START_STEPS|), Done)
      ensures hasTranscriptionCallback == old(hasTranscriptionCallback) && transcripts == old(transcripts)
    {
      r := Attempt(s0, 2, AddTransceiver, succeeded);
      if r != Done { return; }
      r := Offer(s0, succeeded);
      if r != Done { return; }
      r := Answer(s0, succeeded);
    }

    /** The local offer is created and set as the local description. */
    method Offer(ghost s0: SessionState, succeeded: nat) returns (r: Status<Call>)
      requires 3 <= succeeded && View() == Progress(s0, 3)
      modifies this
      ensures (View(), r) ==
        if succeeded < 5 then (Connect(s0, succeeded), Raised(START_STEPS[succeeded]))
        else (Progress(s0, 5), Done)
      ensures hasTranscriptionCallback == old(hasTranscriptionCallback) && transcripts == old(transcripts)
    {
      r := Attempt(s0, 3, CreateOffer, succeeded);
      if r != Done { return; }
      r := Attempt(s0, 4, SetLocalDescription, succeeded);
    }

    /** The offer is sent to the service and its answer set as the remote description. */
    method Answer(ghost s0: SessionState, succeeded: nat) returns (r: Status<Call>)
      requires 5 <= succeeded && View() == Progress(s0, 5)
      modifies this
      ensures (View(), r) ==
        if succeeded < |START_STEPS| then (Connect(s0, succeeded), Raised(START_STEPS[succeeded]))
        else (Progress(s0, |START_STEPS|), Done)
      ensures hasTranscriptionCallback == old(hasTranscriptionCallback) && transcripts == old(transcripts)
    {
      r := Attempt(s0, 5, ConnectToOpenAI, succeeded);
      if r != Done { return; }
      r := Attempt(s0, 6, SetRemoteDescription, succeeded);
    }

    /** `start_streaming`, where the first `succeeded` external steps succeed. */
    method StartStreaming(succeeded: nat) returns (r: Status<Call>)
      requires Valid()
      modifies this, handler
      ensures Valid()
      ensures (View(), r) == Started(old(View()), succeeded)
      ensures unchanged(handler)
      ensures hasTranscriptionCallback == old(hasTranscriptionCallback) && transcripts == old(transcripts)
    {
      if isStreaming {
        return Done;
      }
      ghost var s0 := View();
      r := CreateConnection(s0, succeeded);
      if r == Done {
        r := Negotiate(s0, succeeded);
      }
      if r == Done {
        StartCompletes(s0, succeeded);
        isStreaming := true;
      } else {
        r := Abort(s0, succeeded);
      }
    }

    /** `stop_streaming`; `closeOk` says whether closing the peer connection succeeds. */
    method StopStreaming(closeOk: bool) returns (r: Status<Call>)
      requires Valid()
      modifies this, handler
      ensures Valid()
      ensures (View(), r) == Stopped(old(View()), closeOk)
      ensures !old(isStreaming) ==> unchanged(this) && unchanged(handler)
      ensures handler.pts == old(handler.pts) && handler.sink == old(handler.sink)
      ensures handler.inputDevice == old(handler.inputDevice) && handler.outputDevice == old(handler.outputDevice)
      ensures hasTranscriptionCallback == old(hasTranscriptionCallback) && transcripts == old(transcripts)
    {
      if !isStreaming {
        return Done;
      }
      // webrtc_manager.cleanup
      if hasOutput {
        calls := calls + [StopPlayback];
        hasOutput, outputPlaying := false, false;
      }
      if hasTransport {
        calls := calls + [ClosePeerConnection];
        if !closeOk {
          return Raised(ClosePeerConnection);
        }
        hasTransport := false;
      }
      // audio_handler.stop
      calls := calls + [StopCapture];
      handler.Stop();
      isStreaming := false;
      r := Done;
    }

    method PauseStreaming()
      requires Valid()
      modifies this, handler
      ensures Valid()
      ensures View() == Paused(old(View()))
      ensures handler.pts == old(handler.pts) && handler.sink == old(handler.sink)
      ensures handler.inputDevice == old(handler.inputDevice) && handler.outputDevice == old(handler.outputDevice)
      ensures hasTranscriptionCallback == old(hasTranscriptionCallback) && transcripts == old(transcripts)
    {
      if !isStreaming {
        return;
      }
      handler.Pause();
    }

    method ResumeStreaming()
      requires Valid()
      modifies this, handler
      ensures Valid()
      ensures View() == Resumed(old(View()))
      ensures handler.pts == old(handler.pts) && handler.sink == old(handler.sink)
      ensures handler.inputDevice == old(handler.inputDevice) && handler.outputDevice == old(handler.outputDevice)
      ensures hasTranscriptionCallback == old(hasTranscriptionCallback) && transcripts == old(transcripts)
    {
      if !isStreaming {
        return;
      }
      handler.Resume();
    }

    /** `set_audio_input_device`: delegates to the handler, which releases its stream. */
    method SetAudioInputDevice(index: int)
      requires Valid()
      modifies handler
      ensures Valid()
      ensures View() == old(View()).(captureStream := false)
      ensures handler.inputDevice == Some(index) && handler.outputDevice == old(handler.outputDevice)
      ensures handler.pts == old(handler.pts) && handler.sink == old(handler.sink)
    {
      handler.SetInputDevice(index);
    }

    /** `set_audio_output_device`: delegates to the handler, which releases its stream. */
    method SetAudioOutputDevice(index: int)
      requires Valid()
      modifies handler
      ensures Valid()
      ensures View() == old(View()).(captureStream := false)
      ensures handler.outputDevice == Some(index) && handler.inputDevice == old(handler.inputDevice)
      ensures handler.pts == old(handler.pts) && handler.sink == old(handler.sink)
    {
      handler.SetOutputDevice(index);
    }

    /** Assigns (`present`) or clears the `on_transcription` attribute. */
    method SetTranscriptionCallback(present: bool)
      modifies this
      ensures hasTranscriptionCallback == present && transcripts == old(transcripts)
      ensures View() == old(View())
    {
      hasTranscriptionCallback := present;
    }

    /** `_handle_transcription`: passes `text` unchanged to the callback when one is set. */
    method HandleTranscription(text: string)
      modifies this
      ensures transcripts == old(transcripts) + (if hasTranscriptionCallback then [text] else [])
      ensures hasTranscriptionCallback == old(hasTranscriptionCallback)
      ensures View() == old(View())
    {
      if hasTranscriptionCallback {
        transcripts := transcripts + [text];
      }
    }
  }
}
