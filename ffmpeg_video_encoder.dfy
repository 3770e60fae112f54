/**
 * FFmpegVideoEncoder (Assets/_Project/VideoRecorder/FFmpegVideoEnconder.cs):
 * raw RGB24 frames are queued by the capture component and a background
 * worker writes them, in order, to the standard input of an ffmpeg process.
 *
 * The worker thread is modelled as a sequence of calls to WorkerStep, each
 * one iteration of EncodeLoop, interleaved arbitrarily with EnqueueFrame;
 * the ffmpeg process is reduced to the bytes it has read on standard input
 * and two flags (exited, disposed).
 */
module Encoding {
  import opened Base
  import opened Text
  import opened TextLemmas

  /** The raw bytes of one frame; their content is never inspected. */
  type Frame = seq<byte>

  const ArgsHead: string := "-y -f rawvideo -pix_fmt rgb24 -s "
  /** What follows the frame rate: read frames from stdin, flip them, encode with libx264. */
  const ArgsMiddle: string := " " + ArgsEncode
  const ArgsEncode: string := "-i - -vf vflip -c:v libx264 -preset ultrafast -pix_fmt yuv420p \""

  /** The ffmpeg command line: raw rgb24 frames of the given size and rate on stdin, H.264 into outputPath. */
  function EncoderArguments(width: int, height: int, framerate: int, outputPath: string): string
  {
    ArgsHead + (IntToString(width) + ("x" + (IntToString(height) + (" -r " + (IntToString(framerate)
    + (ArgsMiddle + (outputPath + "\"")))))))
  }

  /** The command line determines the size, the rate and the output file it was built from. */
  lemma EncoderArgumentsInjective(w: int, h: int, f: int, o: string, w2: int, h2: int, f2: int, o2: string)
    requires EncoderArguments(w, h, f, o) == EncoderArguments(w2, h2, f2, o2)
    ensures w == w2 && h == h2 && f == f2 && o == o2
  {
    var W, H, F := IntToString(w), IntToString(h), IntToString(f);
    var W2, H2, F2 := IntToString(w2), IntToString(h2), IntToString(f2);
    IntToStringChars(w); IntToStringChars(h); IntToStringChars(f);
    IntToStringChars(w2); IntToStringChars(h2); IntToStringChars(f2);
    var R3, R3' := ArgsEncode + (o + "\""), ArgsEncode + (o2 + "\"");
    var R2, R2' := F + ([' '] + R3), F2 + ([' '] + R3');
    var R1, R1' := H + ([' '] + ("-r " + R2)), H2 + ([' '] + ("-r " + R2'));
    assert ArgsMiddle + (o + "\"") == [' '] + R3;
    assert ArgsMiddle + (o2 + "\"") == [' '] + R3';
    assert " -r " + R2 == [' '] + ("-r " + R2);
    assert " -r " + R2' == [' '] + ("-r " + R2');
    CancelPrefix(ArgsHead, W + (['x'] + R1), W2 + (['x'] + R1'));
    SplitAtFirst(W, R1, W2, R1', 'x');
    SplitAtFirst(H, "-r " + R2, H2, "-r " + R2', ' ');
    CancelPrefix("-r ", R2, R2');
    SplitAtFirst(F, R3, F2, R3', ' ');
    CancelPrefix(ArgsEncode, o + "\"", o2 + "\"");
    CancelSuffix(o, o2, "\"");
    IntToStringInjective(w, w2);
    IntToStringInjective(h, h2);
    IntToStringInjective(f, f2);
  }

  /** The bytes already written are a prefix of all enqueued bytes, in enqueue order. */
  lemma WrittenIsPrefixOfEnqueued(written: seq<Frame>, queue: seq<Frame>, enqueued: seq<Frame>)
    requires written + queue == enqueued
    ensures Flatten(written) <= Flatten(enqueued)
    ensures Flatten(enqueued) == Flatten(written) + Flatten(queue)
  {
    FlattenAppend(written, queue);
  }

  class FFmpegVideoEncoder {
    const width: int
    const height: int
    const framerate: int
    const outputPath: string
    const ffmpegPath: string

    /** The frames waiting in the concurrent queue, front first. */
    var queue: seq<Frame>
    /** The frames the worker has written, in the order it wrote them. */
    var written: seq<Frame>
    /** Every byte written to ffmpeg's standard input. */
    var stdin: seq<byte>
    var stopRequested: bool
    /** The worker has left its loop (the thread has finished). */
    var loopExited: bool
    var stdinClosed: bool
    var processExited: bool
    var processDisposed: bool

    /** Every frame ever passed to EnqueueFrame, in call order. */
    ghost var enqueued: seq<Frame>

    /** The arguments StartFFmpeg passes to the ffmpeg process. */
    function Arguments(): string
    {
      EncoderArguments(width, height, framerate, outputPath)
    }

    ghost predicate Valid()
      reads this
    {
      && written + queue == enqueued
      && stdin == Flatten(written)
      && (stdinClosed <==> loopExited)
      && (loopExited ==> stopRequested && processExited)
      && (processDisposed ==> loopExited)
    }

    /** Starts ffmpeg with EncoderArguments and the worker thread. */
    constructor (width: int, height: int, framerate: int, outputPath: string, ffmpegPath: string)
      ensures Valid()
      ensures this.width == width && this.height == height && this.framerate == framerate
      ensures this.outputPath == outputPath && this.ffmpegPath == ffmpegPath
      ensures queue == [] && written == [] && stdin == [] && enqueued == []
      ensures !stopRequested && !loopExited && !stdinClosed && !processExited && !processDisposed
    {
      this.width := width;
      this.height := height;
      this.framerate := framerate;
      this.outputPath := outputPath;
      this.ffmpegPath := ffmpegPath;
      queue := [];
      written := [];
      stdin := [];
      enqueued := [];
      stopRequested := false;
      loopExited := false;
      stdinClosed := false;
      processExited := false;
      processDisposed := false;
    }

    /** EnqueueFrame: the frame goes to the back of the queue; nothing is dropped and nothing blocks. */
    method EnqueueFrame(frame: Frame)
      requires Valid()
      modifies this
      ensures Valid()
      ensures queue == old(queue) + [frame] && enqueued == old(enqueued) + [frame]
      ensures written == old(written) && stdin == old(stdin)
      ensures stopRequested == old(stopRequested) && loopExited == old(loopExited)
      ensures stdinClosed == old(stdinClosed) && processExited == old(processExited)
      ensures processDisposed == old(processDisposed)
    {
      queue := queue + [frame];
      enqueued := enqueued + [frame];
    }

    /**
     * One iteration of EncodeLoop. With stop requested the loop is left: stdin
     * is closed, the process is waited for, and the frames still queued are
     * never written. Otherwise the front frame, if any, is written in full;
     * an empty queue only sleeps.
     */
    method WorkerStep() returns (running: bool)
      requires Valid() && !loopExited
      modifies this
      ensures Valid()
      ensures running == !old(stopRequested)
      ensures enqueued == old(enqueued) && stopRequested == old(stopRequested)
      ensures processDisposed == old(processDisposed)
      ensures old(stopRequested) ==>
        queue == old(queue) && written == old(written) && stdin == old(stdin)
        && loopExited && stdinClosed && processExited
      ensures !old(stopRequested) && old(queue) != [] ==>
        queue == old(queue)[1..] && written == old(written) + [old(queue)[0]]
        && stdin == old(stdin) + old(queue)[0]
      ensures !old(stopRequested) && old(queue) == [] ==>
        queue == [] && written == old(written) && stdin == old(stdin)
      ensures !old(stopRequested) ==>
        !loopExited && !stdinClosed && processExited == old(processExited)
    {
      if stopRequested {
        stdinClosed := true;
        processExited := true;
        loopExited := true;
        running := false;
      } else {
        if queue != [] {
          var frame := queue[0];
          assert written + [frame] + queue[1..] == written + queue;
          stdin := stdin + frame;
          written := written + [frame];
          queue := queue[1..];
        }
        running := true;
      }
    }

    /**
     * Dispose: raise the stop flag, join the worker, dispose the process.
     * The worker's next loop test sees the flag, so the queue is abandoned.
     */
    method Dispose()
      requires Valid()
      modifies this
      ensures Valid()
      ensures stopRequested && loopExited && stdinClosed && processExited && processDisposed
      ensures queue == old(queue) && written == old(written) && stdin == old(stdin)
      ensures enqueued == old(enqueued)
    {
      stopRequested := true;
      while !loopExited
        invariant Valid() && stopRequested
        invariant queue == old(queue) && written == old(written) && stdin == old(stdin)
        invariant enqueued == old(enqueued)
        decreases if loopExited then 0 else 1
      {
        var _ := WorkerStep();
      }
      processDisposed := true;
    }
  }
}
