/**
 * VideoCapture (Assets/_Project/VideoRecorder/VideoCapture.cs): a capture
 * session that, once started, samples the game camera at a fixed cadence
 * and feeds each sampled frame to an FFmpegVideoEncoder.
 *
 * The cadence is a time accumulator: every LateUpdate adds the frame's
 * delta time, and when a whole capture interval has accumulated one frame
 * is captured and one interval is subtracted. The pure functions below
 * state one tick and a run of ticks; the class ties its LateUpdate to them.
 */
module Capture {
  import opened Base
  import opened DotNetPath
  import opened Encoding
  import opened UnityMath

  /** The accumulator after a tick, and whether the tick captured a frame. */
  datatype Tick = Tick(accumulator: real, captured: bool)

  /** One active LateUpdate: add delta, capture at most once, carry the surplus over. */
  function ClockTick(accumulator: real, delta: real, interval: real): (t: Tick)
    ensures t.accumulator + (if t.captured then interval else 0.0) == accumulator + delta
    ensures t.captured <==> accumulator + delta >= interval
  {
    var acc := accumulator + delta;
    if acc >= interval then Tick(acc - interval, true) else Tick(acc, false)
  }

  /** The result of a run of active ticks: the final accumulator and the captured frame count. */
  datatype Run = Run(accumulator: real, captures: nat)

  function RunClock(accumulator: real, deltas: seq<real>, interval: real): (r: Run)
    ensures r.captures <= |deltas|
    decreases |deltas|
  {
    if deltas == [] then Run(accumulator, 0)
    else
      var before := RunClock(accumulator, deltas[..|deltas| - 1], interval);
      var t := ClockTick(before.accumulator, deltas[|deltas| - 1], interval);
      Run(t.accumulator, before.captures + if t.captured then 1 else 0)
  }

  /** Time is conserved: all elapsed active time is either captured intervals or still accumulated. */
  lemma {:induction false} ClockConservation(accumulator: real, deltas: seq<real>, interval: real)
    ensures var r := RunClock(accumulator, deltas, interval);
      accumulator + Sum(deltas) == r.captures as real * interval + r.accumulator
    decreases |deltas|
  {
    if deltas != [] {
      ClockConservation(accumulator, deltas[..|deltas| - 1], interval);
    }
  }

  /** With non-negative deltas the accumulator never goes negative. */
  lemma {:induction false} AccumulatorNonNegative(accumulator: real, deltas: seq<real>, interval: real)
    requires accumulator >= 0.0
    requires forall i :: 0 <= i < |deltas| ==> deltas[i] >= 0.0
    ensures RunClock(accumulator, deltas, interval).accumulator >= 0.0
    decreases |deltas|
  {
    if deltas != [] {
      AccumulatorNonNegative(accumulator, deltas[..|deltas| - 1], interval);
    }
  }

  /** A tick that starts below one interval and lasts at most one interval ends below one interval. */
  lemma TickStaysBelowInterval(accumulator: real, delta: real, interval: real)
    requires 0.0 <= accumulator < interval && 0.0 <= delta <= interval
    ensures 0.0 <= ClockTick(accumulator, delta, interval).accumulator < interval
  {
  }

  /** When no frame takes longer than one interval, the accumulator stays below one interval. */
  lemma {:induction false} AccumulatorBelowInterval(accumulator: real, deltas: seq<real>, interval: real)
    requires 0.0 <= accumulator < interval
    requires forall i :: 0 <= i < |deltas| ==> 0.0 <= deltas[i] <= interval
    ensures 0.0 <= RunClock(accumulator, deltas, interval).accumulator < interval
    decreases |deltas|
  {
    if deltas != [] {
      var front := deltas[..|deltas| - 1];
      assert forall i :: 0 <= i < |front| ==> front[i] == deltas[i];
      AccumulatorBelowInterval(accumulator, front, interval);
      var before := RunClock(accumulator, front, interval);
      TickStaysBelowInterval(before.accumulator, deltas[|deltas| - 1], interval);
    }
  }

  /**
   * When no frame takes longer than one interval, the capture count is the
   * elapsed time divided by the interval, rounded down.
   */
  lemma ClockKeepsUp(accumulator: real, deltas: seq<real>, interval: real)
    requires 0.0 <= accumulator < interval
    requires forall i :: 0 <= i < |deltas| ==> 0.0 <= deltas[i] <= interval
    ensures var r := RunClock(accumulator, deltas, interval);
      r.captures as real * interval <= accumulator + Sum(deltas)
      && accumulator + Sum(deltas) < (r.captures + 1) as real * interval
  {
    var r := RunClock(accumulator, deltas, interval);
    AccumulatorBelowInterval(accumulator, deltas, interval);
    ClockConservation(accumulator, deltas, interval);
    var c := r.captures as real * interval;
    assert (r.captures + 1) as real * interval == c + interval;
  }

  /** A frame larger than two intervals still captures only once: the clock falls behind. */
  lemma OneCapturePerTick(accumulator: real, delta: real, interval: real)
    requires interval > 0.0 && accumulator >= 0.0 && delta >= 2.0 * interval
    ensures ClockTick(accumulator, delta, interval).captured
    ensures ClockTick(accumulator, delta, interval).accumulator >= interval
  {
  }

  /** The capture interval for a frame rate: one over the rate, in seconds. */
  function Interval(targetFramerate: int): (interval: real)
    requires targetFramerate > 0
    ensures interval > 0.0
  {
    1.0 / targetFramerate as real
  }

  /** The interval is one frame's share of a second: targetFramerate intervals make one second. */
  lemma IntervalIsOneFrame(targetFramerate: int)
    requires targetFramerate > 0
    ensures Interval(targetFramerate) * targetFramerate as real == 1.0
  {
    DivMulCancel(1.0, targetFramerate as real);
  }

  /** The name of the file the encoder writes. */
  const ReviewFileName: string := "Review.mp4"

  /** The file the encoder writes: outputPath combined with "Review.mp4" (outputFileName is not used). */
  function OutputFile(outputPath: string): string
  {
    Combine(outputPath, ReviewFileName)
  }

  /** Whatever the output directory, the encoder's file is named Review.mp4. */
  lemma OutputFileName(outputPath: string)
    ensures GetFileName(OutputFile(outputPath)) == "Review.mp4"
  {
    CombineFileName(outputPath, "Review.mp4");
  }

  class VideoCapture {
    var width: int
    var height: int
    var targetFramerate: int
    var outputPath: string
    const ffmpegPath: string

    var isCapturing: bool
    var isPaused: bool
    var captureDeltaTime: real
    var timeSinceLastFrame: real
    var currentVideoTime: real
    var encoder: FFmpegVideoEncoder?
    /** Messages passed to Debug.LogWarning. */
    var warnings: seq<string>

    /** Frames captured since the session started. */
    ghost var captures: nat
    /** Sum of the deltas of the active ticks since the session started. */
    ghost var activeTime: real

    /** The session's encoder and its frame count agree with the video time. */
    ghost predicate SessionValid()
      reads this, encoder
    {
      && (isCapturing <==> encoder != null)
      && (isCapturing ==> encoder.Valid() && |encoder.enqueued| == captures && !encoder.stopRequested)
      && currentVideoTime == captures as real * captureDeltaTime
    }

    /** SessionValid, and the active time is conserved by the clock. */
    ghost predicate Valid()
      reads this, encoder
    {
      SessionValid() && activeTime == captures as real * captureDeltaTime + timeSinceLastFrame
    }

    /** A component with the inspector defaults 1280x720 at 30 fps, not capturing. */
    constructor (outputPath: string, ffmpegPath: string)
      ensures Valid() && fresh(this)
      ensures width == 1280 && height == 720 && targetFramerate == 30
      ensures this.outputPath == outputPath && this.ffmpegPath == ffmpegPath
      ensures !isCapturing && !isPaused && currentVideoTime == 0.0 && warnings == []
    {
      width := 1280;
      height := 720;
      targetFramerate := 30;
      this.outputPath := outputPath;
      this.ffmpegPath := ffmpegPath;
      isCapturing := false;
      isPaused := false;
      captureDeltaTime := 0.0;
      timeSinceLastFrame := 0.0;
      currentVideoTime := 0.0;
      encoder := null;
      warnings := [];
      captures := 0;
      activeTime := 0.0;
    }

    /**
     * StartCapture: while capturing only warns. Otherwise the interval is one
     * over the frame rate, the clock and the video time restart at 0 and a new
     * encoder writes to OutputFile(outputPath).
     */
    method StartCapture()
      requires Valid() && (isCapturing || targetFramerate > 0)
      modifies this
      ensures Valid()
      ensures isPaused == old(isPaused) && width == old(width) && height == old(height)
      ensures targetFramerate == old(targetFramerate) && outputPath == old(outputPath)
      ensures old(isCapturing) ==>
        warnings == old(warnings) + ["Already capturing!"] && encoder == old(encoder)
        && captureDeltaTime == old(captureDeltaTime) && timeSinceLastFrame == old(timeSinceLastFrame)
        && currentVideoTime == old(currentVideoTime) && captures == old(captures) && isCapturing
      ensures !old(isCapturing) ==>
        isCapturing && warnings == old(warnings) && fresh(encoder)
        && captureDeltaTime == Interval(targetFramerate)
        && timeSinceLastFrame == 0.0 && currentVideoTime == 0.0 && captures == 0
        && encoder.outputPath == OutputFile(outputPath)
        && encoder.width == width && encoder.height == height && encoder.framerate == targetFramerate
        && encoder.queue == [] && encoder.stdin == []
    {
      if isCapturing {
        warnings := warnings + ["Already capturing!"];
        return;
      }
      OpenSession();
    }

    /** StartCapture's work once it knows no capture is running. */
    method OpenSession()
      requires Valid() && !isCapturing && targetFramerate > 0
      modifies this
      ensures Valid()
      ensures isPaused == old(isPaused) && width == old(width) && height == old(height)
      ensures targetFramerate == old(targetFramerate) && outputPath == old(outputPath)
      ensures isCapturing && warnings == old(warnings) && fresh(encoder)
        && captureDeltaTime == Interval(targetFramerate)
        && timeSinceLastFrame == 0.0 && currentVideoTime == 0.0 && captures == 0
        && encoder.outputPath == OutputFile(outputPath)
        && encoder.width == width && encoder.height == height && encoder.framerate == targetFramerate
        && encoder.queue == [] && encoder.stdin == []
    {
      var outFilePath := OutputFile(outputPath);
      var e := new FFmpegVideoEncoder(width, height, targetFramerate, outFilePath, ffmpegPath);
      captureDeltaTime := Interval(targetFramerate);
      timeSinceLastFrame := 0.0;
      currentVideoTime := 0.0;
      captures := 0;
      activeTime := 0.0;
      assert 0 as real * captureDeltaTime == 0.0;
      encoder := e;
      isCapturing := true;
    }

    /**
     * StopCapture: when not capturing only warns. Otherwise capturing ends and
     * the encoder is disposed (stop, join, dispose the process) and dropped.
     */
    method StopCapture()
      requires Valid()
      modifies this, encoder
      ensures Valid() && !isCapturing && encoder == null
      ensures !old(isCapturing) ==> warnings == old(warnings) + ["Not currently capturing!"]
      ensures old(isCapturing) ==>
        warnings == old(warnings)
        && old(encoder).stopRequested && old(encoder).loopExited && old(encoder).stdinClosed
        && old(encoder).processDisposed
        && old(encoder).queue == old(encoder.queue) && old(encoder).written == old(encoder.written)
      ensures captureDeltaTime == old(captureDeltaTime) && timeSinceLastFrame == old(timeSinceLastFrame)
      ensures currentVideoTime == old(currentVideoTime) && isPaused == old(isPaused)
      ensures captures == old(captures) && activeTime == old(activeTime)
      ensures width == old(width) && height == old(height) && targetFramerate == old(targetFramerate) && outputPath == old(outputPath)
    {
      if !isCapturing {
        warnings := warnings + ["Not currently capturing!"];
        return;
      }
      isCapturing := false;
      encoder.Dispose();
      encoder := null;
    }

    /** CaptureFrame: one frame to the encoder and one interval onto the video time. */
    method CaptureFrame(frame: Frame)
      requires SessionValid() && isCapturing
      modifies encoder, `currentVideoTime, `captures
      ensures SessionValid()
      ensures encoder.queue == old(encoder.queue) + [frame]
      ensures encoder.enqueued == old(encoder.enqueued) + [frame]
      ensures encoder.written == old(encoder.written)
      ensures captures == old(captures) + 1
      ensures currentVideoTime == old(currentVideoTime) + captureDeltaTime
    {
      encoder.EnqueueFrame(frame);
      currentVideoTime := currentVideoTime + captureDeltaTime;
      captures := captures + 1;
      assert captures as real * captureDeltaTime == old(captures) as real * captureDeltaTime + captureDeltaTime;
    }

    /**
     * LateUpdate with this frame's delta time; `frame` is the image the
     * capture camera would render. Inactive or paused sessions are untouched;
     * an active one advances as ClockTick says and captures when it fires.
     */
    method LateUpdate(delta: real, frame: Frame)
      requires Valid()
      modifies this, encoder
      ensures Valid()
      ensures isCapturing == old(isCapturing) && isPaused == old(isPaused) && encoder == old(encoder)
      ensures captureDeltaTime == old(captureDeltaTime) && warnings == old(warnings)
      ensures width == old(width) && height == old(height) && targetFramerate == old(targetFramerate) && outputPath == old(outputPath)
      ensures !old(isCapturing) || old(isPaused) ==>
        timeSinceLastFrame == old(timeSinceLastFrame) && currentVideoTime == old(currentVideoTime)
        && captures == old(captures) && activeTime == old(activeTime)
        && (encoder != null ==> encoder.queue == old(encoder.queue) && encoder.enqueued == old(encoder.enqueued))
      ensures old(isCapturing) && !old(isPaused) ==>
        var t := ClockTick(old(timeSinceLastFrame), delta, captureDeltaTime);
        timeSinceLastFrame == t.accumulator
        && activeTime == old(activeTime) + delta
        && captures == old(captures) + (if t.captured then 1 else 0)
        && encoder.enqueued == old(encoder.enqueued) + (if t.captured then [frame] else [])
        && encoder.queue == old(encoder.queue) + (if t.captured then [frame] else [])
        && encoder.written == old(encoder.written)
    {
      if isCapturing && !isPaused {
        timeSinceLastFrame := timeSinceLastFrame + delta;
        activeTime := activeTime + delta;
        if timeSinceLastFrame >= captureDeltaTime {
          timeSinceLastFrame := timeSinceLastFrame - captureDeltaTime;
          CaptureFrame(frame);
          assert captures as real * captureDeltaTime == old(captures) as real * captureDeltaTime + captureDeltaTime;
        }
      }
    }

    /** OnApplicationPause: records the pause state and nothing else. */
    method OnApplicationPause(paused: bool)
      modifies `isPaused
      ensures isPaused == paused
    {
      isPaused := paused;
    }

    /** OnApplicationQuit: a running session is stopped. */
    method OnApplicationQuit()
      requires Valid()
      modifies this, encoder
      ensures Valid() && !isCapturing && encoder == null
      ensures warnings == old(warnings)
      ensures old(isCapturing) ==>
        old(encoder).stopRequested && old(encoder).loopExited && old(encoder).stdinClosed
        && old(encoder).processDisposed
        && old(encoder).queue == old(encoder.queue) && old(encoder).written == old(encoder.written)
      ensures captureDeltaTime == old(captureDeltaTime) && timeSinceLastFrame == old(timeSinceLastFrame)
      ensures currentVideoTime == old(currentVideoTime) && isPaused == old(isPaused)
      ensures captures == old(captures) && activeTime == old(activeTime)
      ensures width == old(width) && height == old(height) && targetFramerate == old(targetFramerate) && outputPath == old(outputPath)
    {
      if isCapturing {
        StopCapture();
      }
    }
  }
}
