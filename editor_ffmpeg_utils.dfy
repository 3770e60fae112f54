/**
 * The editor-side FFmpegUtils component (Assets/_Project/Editor/FFmpegUtils.cs):
 * one coroutine extracts one frame named after an ID and raises
 * FrameFromVideoReady only when ffmpeg exits with code 0. Unlike the static
 * helpers it does not create the frame folder.
 */
module EditorFFmpeg {
  import opened Base
  import opened Text
  import opened FrameExtraction

  /** What one run of the coroutine does: the command, the event raised, the warnings logged. */
  datatype CoroutineRun = CoroutineRun(arguments: string, readyEvent: Option<string>, warnings: seq<string>)

  function ExtractFrameFromVideoCoroutine(videoPath: string, seconds: real, id: string, frameOutputPath: string,
                                          ffmpeg: FFmpeg): (run: CoroutineRun)
    ensures run.arguments == ExtractionArguments(SeekTimeArg(seconds), videoPath, FramePath(frameOutputPath, id))
    ensures run.readyEvent.Some? <==> ffmpeg(run.arguments).exitCode == 0
    ensures run.readyEvent.Some? ==> run.readyEvent.value == FramePath(frameOutputPath, id) && run.warnings == []
    ensures run.readyEvent.None? ==>
      run.warnings == ["FFmpeg exited with error code " + IntToString(ffmpeg(run.arguments).exitCode),
                       ffmpeg(run.arguments).stderr]
  {
    var outFilePath := FramePath(frameOutputPath, id);
    var args := ExtractionArguments(SeekTimeArg(seconds), videoPath, outFilePath);
    var result := ffmpeg(args);
    if result.exitCode == 0 then CoroutineRun(args, Some(outFilePath), [])
    else CoroutineRun(args, None, ["FFmpeg exited with error code " + IntToString(result.exitCode), result.stderr])
  }

  /** The editor coroutine and the static helper agree on the command and on success. */
  lemma CoroutineAgreesWithStaticHelper(videoPath: string, seconds: real, id: string, frameOutputPath: string,
                                        directories: set<string>, ffmpeg: FFmpeg)
    ensures var run := ExtractFrameFromVideoCoroutine(videoPath, seconds, id, frameOutputPath, ffmpeg);
      var e := ExtractFrameAsync(videoPath, seconds, id, frameOutputPath, directories, ffmpeg);
      run.readyEvent == e.readyEvent
  {
  }
}
