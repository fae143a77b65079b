/** The session controller of the heart-rate engine (src/hooks/useRppg.ts):
    the paired sample buffers with throttled, capped FIFO insertion, the
    published state, and the start/stop resets. The camera, the canvas and
    the frame scheduler are outside: each callback of a running frame chain
    is a call of ProcessFrame, with the clock reading and the region's RGBA
    bytes, or of SkipFrame when the video is not ready. Streams and chains
    are counted, since a second start overwrites the references to them. */
module RppgSession {
  import opened Wrappers
  import opened RppgSignal

  /** The state the presentation layer reads. */
  datatype RppgState = RppgState(heartRate: Option<int>, signalQuality: real, isProcessing: bool, error: Option<string>)

  const IdleState := RppgState(None, 0.0, false, None)

  /** What acquiring the camera stream and starting playback came to:
      both succeeded; the stream was obtained and stored but playback
      threw; or the request itself threw. A failure may carry the thrown
      error's message. */
  datatype CameraOutcome = Granted | PlayRejected(message: Option<string>) | Denied(message: Option<string>)

  const CameraFailureMessage := "Failed to access camera"

  /** Milliseconds that must pass between two accepted frames. */
  function FrameInterval(cfg: Config): real
    requires cfg.sampleRate > 0
  {
    1000.0 / cfg.sampleRate as real
  }

  /** Capacity of the sample buffers. */
  function MaxSamples(cfg: Config): int {
    cfg.sampleRate * cfg.windowSize
  }

  /** Samples needed before an estimate is published. */
  function PublishThreshold(cfg: Config): int {
    cfg.sampleRate * 3
  }

  /** One insertion into a capped buffer: `push`, then one `shift` when the
      length exceeds the capacity. */
  function PushCapped<T>(buf: seq<T>, x: T, cap: int): seq<T> {
    var b := buf + [x];
    if |b| > cap then b[1..] else b
  }

  /** Successive insertions into a capped buffer. */
  function PushAll<T>(buf: seq<T>, xs: seq<T>, cap: int): seq<T>
    decreases |xs|
  {
    if xs == [] then buf else PushAll(PushCapped(buf, xs[0], cap), xs[1..], cap)
  }

  /** One insertion keeps the buffer within capacity and keeps the newest
      elements of old contents plus the new one, in order. */
  lemma PushCappedKeepsNewest<T>(buf: seq<T>, x: T, cap: int)
    requires 1 <= cap && |buf| <= cap
    ensures var r := PushCapped(buf, x, cap);
      |r| == Min(|buf| + 1, cap) && r == (buf + [x])[|buf| + 1 - |r|..]
  {
  }

  /** FIFO eviction over any number of insertions: the buffer ends up
      holding the last `cap` elements of everything inserted (or all of them
      when fewer), in insertion order. */
  lemma {:induction false} PushAllKeepsNewest<T>(buf: seq<T>, xs: seq<T>, cap: int)
    requires 1 <= cap && |buf| <= cap
    ensures var all := buf + xs;
      PushAll(buf, xs, cap) == all[|all| - Min(|all|, cap)..]
    decreases |xs|
  {
    if xs != [] {
      var b := PushCapped(buf, xs[0], cap);
      PushAllKeepsNewest(b, xs[1..], cap);
      var all := buf + xs;
      var all' := b + xs[1..];
      PushCappedSuffix(buf, xs[0], xs[1..], cap);
      assert buf + [xs[0]] + xs[1..] == all;
      SuffixOfSuffix(all, |all| - |all'|, Min(|all|, cap));
    }
  }

  /** After one capped insertion, the elements still to come follow a
      suffix of everything so far, and the capacity bound is unchanged. */
  lemma PushCappedSuffix<T>(buf: seq<T>, x: T, rest: seq<T>, cap: int)
    requires 1 <= cap && |buf| <= cap
    ensures var all := buf + [x] + rest;
      var all' := PushCapped(buf, x, cap) + rest;
      && |PushCapped(buf, x, cap)| <= cap
      && |all'| <= |all| && all' == all[|all| - |all'|..]
      && Min(|all'|, cap) == Min(|all|, cap)
  {
    PushCappedKeepsNewest(buf, x, cap);
    var b := PushCapped(buf, x, cap);
    var all := buf + [x] + rest;
    assert all == (buf + [x]) + rest;
  }

  /** The last `m` elements of a suffix are the last `m` of the whole. */
  lemma SuffixOfSuffix<T>(s: seq<T>, d: nat, m: nat)
    requires d <= |s| && m <= |s| - d
    ensures s[d..][|s| - d - m..] == s[|s| - m..]
  {
  }

  /** Inserting five more samples than the capacity into an empty buffer
      leaves exactly `cap` samples, the sixth-oldest first. */
  lemma FifoAfterOverflow<T>(xs: seq<T>, cap: int)
    requires 1 <= cap && |xs| == cap + 5
    ensures |PushAll([], xs, cap)| == cap && PushAll([], xs, cap)[0] == xs[5]
  {
    PushAllKeepsNewest([], xs, cap);
    assert [] + xs == xs;
  }

  predicate StrictlyIncreasing(ts: seq<real>) {
    forall i, j :: 0 <= i < j < |ts| ==> ts[i] < ts[j]
  }

  /** The engine's buffers: parallel, within capacity, every sample a
      skin-pixel mean, and timestamps strictly increasing and no later than
      the last accepted frame. */
  predicate BuffersOk(signal: seq<real>, timestamps: seq<real>, last: real, cap: int) {
    && |signal| == |timestamps| <= cap
    && (forall i :: 0 <= i < |signal| ==> 40.0 < signal[i] <= 255.0)
    && StrictlyIncreasing(timestamps)
    && (forall i :: 0 <= i < |timestamps| ==> timestamps[i] <= last)
  }

  /** Such buffers can be handed to the estimator. */
  lemma BuffersAreEstimable(signal: seq<real>, timestamps: seq<real>, last: real, cap: int)
    requires BuffersOk(signal, timestamps, last, cap)
    ensures EstimableBuffers(signal, timestamps)
  {
  }

  /** Accepting a sample at a time later than every buffered one keeps the
      buffers well-formed, with that time as the last accepted frame. */
  lemma PushKeepsBuffersOk(signal: seq<real>, timestamps: seq<real>, last: real, cap: int, value: real, now: real)
    requires BuffersOk(signal, timestamps, last, cap) && cap >= 1
    requires 40.0 < value <= 255.0 && last < now
    ensures BuffersOk(PushCapped(signal, value, cap), PushCapped(timestamps, now, cap), now, cap)
  {
    var t := timestamps + [now];
    assert StrictlyIncreasing(t);
    assert StrictlyIncreasing(t[1..]);
  }

  /** Moving the clock forward keeps the buffers well-formed. */
  lemma LaterClockKeepsBuffersOk(signal: seq<real>, timestamps: seq<real>, last: real, now: real, cap: int)
    requires BuffersOk(signal, timestamps, last, cap) && last <= now
    ensures BuffersOk(signal, timestamps, now, cap)
  {
  }

  /** The published range: quality in [0, 100]; a heart rate within the
      configured bounds, or 0 when the publish threshold is below the
      estimator's 64-sample minimum. */
  predicate PublishedInRange(st: RppgState, cfg: Config) {
    0.0 <= st.signalQuality <= 100.0 &&
    (st.heartRate.Some? ==>
      (cfg.minHeartRate <= st.heartRate.value <= cfg.maxHeartRate) ||
      (st.heartRate.value == 0 && PublishThreshold(cfg) < 64))
  }

  /** Every estimate the engine can publish is in range: the buffers handed
      to the estimator hold at least the publish threshold. */
  lemma {:induction false} PublishedEstimateInRange(signal: seq<real>, timestamps: seq<real>, cfg: Config, sqrt: real -> real, prev: RppgState)
    requires ValidConfig(cfg) && EstimableBuffers(signal, timestamps)
    requires |signal| >= PublishThreshold(cfg)
    ensures var e := EstimateOf(signal, timestamps, cfg, sqrt);
      PublishedInRange(prev.(heartRate := Some(e.hr), signalQuality := e.quality), cfg)
  {
    EstimateInRange(signal, timestamps, cfg, sqrt);
  }

  /** The default configuration, the one the monitor page runs with: it is
      valid, an estimate is published only from 90 samples, which is above
      the estimator's 64-sample floor, and the buffers hold 300. So every
      heart rate it publishes lies in [40, 180] and is never 0. */
  lemma DefaultConfigPublishesInRange(st: RppgState)
    requires PublishedInRange(st, DefaultConfig)
    ensures ValidConfig(DefaultConfig)
    ensures PublishThreshold(DefaultConfig) == 90 >= 64 && MaxSamples(DefaultConfig) == 300
    ensures st.heartRate.Some? ==> 40 <= st.heartRate.value <= 180
  {
  }

  class RppgEngine {
    const config: Config
    /** Math.sqrt, left uninterpreted. */
    const sqrt: real -> real
    var greenChannelBuffer: seq<real>
    var timestampBuffer: seq<real>
    var lastProcessTime: real
    var state: RppgState
    /** Number of times the camera stream has been requested. */
    var cameraRequests: nat
    /** Camera streams obtained whose tracks have not been stopped. */
    var liveStreams: nat
    /** The stream reference holds one of those streams. Storing a new
        stream overwrites it without stopping the old one. */
    var streamRefHeld: bool
    /** Self-rescheduling frame-callback chains still running. */
    var frameLoops: nat
    /** The frame reference holds the pending callback id of one of those
        chains (the one that scheduled last). */
    var frameRefHeld: bool

    /** The engine's invariant: parallel buffers within capacity, every
        sample a skin-pixel mean, timestamps strictly increasing and no later
        than the last accepted frame, and the published state in range. */
    ghost predicate Valid()
      reads this
    {
      && ValidConfig(config)
      && BuffersOk(greenChannelBuffer, timestampBuffer, lastProcessTime, MaxSamples(config))
      && PublishedInRange(state, config)
      && (streamRefHeld ==> liveStreams > 0)
      && (frameRefHeld ==> frameLoops > 0)
    }

    constructor (config: Config, sqrt: real -> real)
      requires ValidConfig(config)
      ensures Valid()
      ensures this.config == config && this.sqrt == sqrt
      ensures greenChannelBuffer == [] && timestampBuffer == [] && lastProcessTime == 0.0
      ensures state == IdleState && cameraRequests == 0
      ensures liveStreams == 0 && !streamRefHeld && frameLoops == 0 && !frameRefHeld
    {
      this.config := config;
      this.sqrt := sqrt;
      greenChannelBuffer := [];
      timestampBuffer := [];
      lastProcessTime := 0.0;
      state := IdleState;
      cameraRequests := 0;
      liveStreams, streamRefHeld := 0, false;
      frameLoops, frameRefHeld := 0, false;
    }

    /** `processFrame` once the video and canvas are ready: throttle to the
        sample rate, extract the region's mean skin green, append it with
        its timestamp when positive, evict the oldest pair when over
        capacity, and publish a new estimate once the buffer reaches three
        seconds of samples; then schedule the chain's next callback. It runs
        only as a callback of a running chain. */
    method ProcessFrame(now: real, roiPixels: seq<Byte>)
      requires Valid() && frameLoops > 0
      modifies this
      ensures Valid()
      ensures cameraRequests == old(cameraRequests)
      ensures liveStreams == old(liveStreams) && streamRefHeld == old(streamRefHeld)
      ensures frameLoops == old(frameLoops) && frameRefHeld
      ensures var accepted := now - old(lastProcessTime) >= FrameInterval(config);
        var value := MeanSkinGreen(roiPixels);
        var pushed := accepted && value > 0.0;
        && lastProcessTime == (if accepted then now else old(lastProcessTime))
        && greenChannelBuffer == (if pushed then PushCapped(old(greenChannelBuffer), value, MaxSamples(config)) else old(greenChannelBuffer))
        && timestampBuffer == (if pushed then PushCapped(old(timestampBuffer), now, MaxSamples(config)) else old(timestampBuffer))
        && state == (if pushed && |greenChannelBuffer| >= PublishThreshold(config)
                     then var e := EstimateOf(greenChannelBuffer, timestampBuffer, config, sqrt);
                          old(state).(heartRate := Some(e.hr), signalQuality := e.quality)
                     else old(state))
    {
      var frameInterval := 1000.0 / config.sampleRate as real;
      if now - lastProcessTime >= frameInterval {
        ghost var cap := MaxSamples(config);
        ghost var signal0, timestamps0, last0 := greenChannelBuffer, timestampBuffer, lastProcessTime;
        LaterClockKeepsBuffersOk(signal0, timestamps0, last0, now, cap);
        lastProcessTime := now;
        var greenValue := ExtractGreenChannel(roiPixels);
        if greenValue > 0.0 {
          MeanSkinGreenRange(roiPixels);
          PushKeepsBuffersOk(signal0, timestamps0, last0, cap, greenValue, now);
          greenChannelBuffer := greenChannelBuffer + [greenValue];
          timestampBuffer := timestampBuffer + [now];
          var maxSamples := config.sampleRate * config.windowSize;
          if |greenChannelBuffer| > maxSamples {
            greenChannelBuffer := greenChannelBuffer[1..];
            timestampBuffer := timestampBuffer[1..];
          }
          assert greenChannelBuffer == PushCapped(signal0, greenValue, cap);
          assert timestampBuffer == PushCapped(timestamps0, now, cap);
          if |greenChannelBuffer| >= config.sampleRate * 3 {
            BuffersAreEstimable(greenChannelBuffer, timestampBuffer, now, cap);
            var e := EstimateHeartRate(greenChannelBuffer, timestampBuffer, config, sqrt);
            PublishedEstimateInRange(greenChannelBuffer, timestampBuffer, config, sqrt, state);
            state := state.(heartRate := Some(e.hr), signalQuality := e.quality);
          }
        }
      }
      frameRefHeld := true;
    }

    /** `processFrame` while the video or the canvas is not ready: only
        schedule the chain's next callback. */
    method SkipFrame()
      requires Valid() && frameLoops > 0
      modifies this`frameRefHeld
      ensures Valid() && frameRefHeld
    {
      frameRefHeld := true;
    }

    /** `startCamera`: mark processing and clear the error, request the
        stream (there is no guard against a second request while one is
        held), and store the stream it yields over any stream already held.
        Once playback starts, empty both buffers, zero the throttle clock and
        start a new frame-callback chain, overwriting the reference to any
        chain already running. A failure leaves the buffers and the chains
        as they were and publishes the error; when only playback failed the
        new stream stays held. */
    method StartCamera(outcome: CameraOutcome)
      requires Valid()
      modifies this
      ensures Valid()
      ensures cameraRequests == old(cameraRequests) + 1
      ensures outcome.Granted? ==>
        && greenChannelBuffer == [] && timestampBuffer == [] && lastProcessTime == 0.0
        && state == old(state).(isProcessing := true, error := None)
        && frameLoops == old(frameLoops) + 1 && frameRefHeld
      ensures !outcome.Granted? ==>
        && greenChannelBuffer == old(greenChannelBuffer) && timestampBuffer == old(timestampBuffer)
        && lastProcessTime == old(lastProcessTime)
        && frameLoops == old(frameLoops) && frameRefHeld == old(frameRefHeld)
        && state == old(state).(isProcessing := false, error := Some(outcome.message.GetOr(CameraFailureMessage)))
      ensures outcome.Denied? ==> liveStreams == old(liveStreams) && streamRefHeld == old(streamRefHeld)
      ensures !outcome.Denied? ==> liveStreams == old(liveStreams) + 1 && streamRefHeld
    {
      state := state.(isProcessing := true, error := None);
      cameraRequests := cameraRequests + 1;
      match outcome {
        case Granted =>
          liveStreams, streamRefHeld := liveStreams + 1, true;
          greenChannelBuffer := [];
          timestampBuffer := [];
          lastProcessTime := 0.0;
          frameLoops, frameRefHeld := frameLoops + 1, true;
        case PlayRejected(message) =>
          liveStreams, streamRefHeld := liveStreams + 1, true;
          state := state.(isProcessing := false, error := Some(message.GetOr(CameraFailureMessage)));
        case Denied(message) =>
          state := state.(isProcessing := false, error := Some(message.GetOr(CameraFailureMessage)));
      }
    }

    /** `stopCamera`: cancel the one callback the frame reference holds,
        which ends that chain only; stop the tracks of the one stream the
        stream reference holds, which releases that stream only; clear both
        references, empty both buffers and reset the published state. The
        throttle clock is left as it is. */
    method StopCamera()
      requires Valid()
      modifies this
      ensures Valid()
      ensures greenChannelBuffer == [] && timestampBuffer == []
      ensures state == IdleState
      ensures frameLoops == (if old(frameRefHeld) then old(frameLoops) - 1 else old(frameLoops)) && !frameRefHeld
      ensures liveStreams == (if old(streamRefHeld) then old(liveStreams) - 1 else old(liveStreams)) && !streamRefHeld
      ensures lastProcessTime == old(lastProcessTime) && cameraRequests == old(cameraRequests)
    {
      if frameRefHeld {
        frameLoops, frameRefHeld := frameLoops - 1, false;
      }
      if streamRefHeld {
        liveStreams, streamRefHeld := liveStreams - 1, false;
      }
      greenChannelBuffer := [];
      timestampBuffer := [];
      state := IdleState;
    }
  }

  /** Starting the camera twice and stopping it once leaves one chain
      running and one stream live. The surviving chain keeps firing, and a
      second stop ends it; the first stream's reference was overwritten, so
      no stop ever releases it. */
  method DoubleStartLeaksStream(e: RppgEngine)
    requires e.Valid() && e.liveStreams == 0 && e.frameLoops == 0
    modifies e
    ensures e.Valid() && !e.streamRefHeld && !e.frameRefHeld
    ensures e.liveStreams == 1 && e.frameLoops == 0
  {
    e.StartCamera(Granted);
    e.StartCamera(Granted);
    e.StopCamera();
    assert e.frameLoops == 1 && e.liveStreams == 1;
    e.SkipFrame();
    e.StopCamera();
  }
}
