/**
 * The static frame-extraction helpers (Assets/_Project/Utility/FFmpegUtils.cs):
 * ffmpeg is asked to decode one frame at a time offset into a PNG file;
 * a batch names its files "{prefix}_{i}" and keeps the successful results
 * in index order; DeleteAllFrames empties the frame folder of PNGs.
 *
 * The ffmpeg process is an oracle from the argument string to an exit code
 * and the text it wrote to standard error. The file system is a value: a
 * set of existing directories and a set of (directory, file name) entries.
 */
module FrameExtraction {
  import opened Base
  import opened Text
  import opened TextLemmas
  import opened UnityMath
  import opened DotNetPath

  /** What running ffmpeg to completion yields. */
  datatype ProcessResult = ProcessResult(exitCode: int, stderr: string)

  /** ffmpeg: from its argument string to its result. */
  type FFmpeg = string -> ProcessResult

  /**
   * TimeSpan.FromSeconds keeps whole milliseconds, rounding halves away
   * from zero (the Mono / .NET Framework rule).
   */
  function Milliseconds(seconds: real): (ms: int)
    ensures seconds * 1000.0 - 0.5 <= ms as real <= seconds * 1000.0 + 0.5
  {
    RoundHalfAwayFromZero(seconds * 1000.0)
  }

  /** The components a custom TimeSpan format prints: no sign, days dropped. */
  datatype ClockTime = ClockTime(hours: nat, minutes: nat, seconds: nat, millis: nat)

  predicate WellFormedClock(c: ClockTime)
  {
    c.hours < 24 && c.minutes < 60 && c.seconds < 60 && c.millis < 1000
  }

  function ClockOf(ms: int): (c: ClockTime)
    ensures WellFormedClock(c)
    ensures var a := if ms < 0 then -ms else ms;
      c.hours * 3600000 + c.minutes * 60000 + c.seconds * 1000 + c.millis == a % 86400000
  {
    var time := (if ms < 0 then -ms else ms) % 86400000;
    var belowHour := time % 3600000;
    var belowMinute := belowHour % 60000;
    ClockTime(time / 3600000, belowHour / 60000, belowMinute / 1000, belowMinute % 1000)
  }

  /** The format hh\:mm\:ss\.fff. */
  function FormatClock(c: ClockTime): string
  {
    PadDigits(c.hours, 2) + ":" + PadDigits(c.minutes, 2) + ":" + PadDigits(c.seconds, 2)
    + "." + PadDigits(c.millis, 3)
  }

  /** The -ss argument for a time in seconds. */
  function SeekTimeArg(seconds: real): string
  {
    FormatClock(ClockOf(Milliseconds(seconds)))
  }

  lemma NatToStringShort(n: nat, width: nat)
    requires width >= 1 && n < Pow10(width)
    ensures |NatToString(n)| <= width
    decreases width
  {
    if n >= 10 {
      NatToStringShort(n / 10, width - 1);
    }
  }

  function Pow10(k: nat): (p: nat)
    ensures p >= 1
  {
    if k == 0 then 1 else 10 * Pow10(k - 1)
  }

  lemma PadDigitsExact(n: nat, width: nat)
    requires width >= 1 && n < Pow10(width)
    ensures |PadDigits(n, width)| == width && DigitsValue(PadDigits(n, width)) == n
  {
    NatToStringShort(n, width);
    PadDigitsRoundTrip(n, width);
  }

  /** ffmpeg's reading of hh:mm:ss.fff, by fixed positions. */
  function ParseClock(s: string): Option<ClockTime>
  {
    if |s| == 12 && s[2] == ':' && s[5] == ':' && s[8] == '.'
      && AllDigits(s[0..2]) && AllDigits(s[3..5]) && AllDigits(s[6..8]) && AllDigits(s[9..12])
    then Some(ClockTime(DigitsValue(s[0..2]), DigitsValue(s[3..5]), DigitsValue(s[6..8]), DigitsValue(s[9..12])))
    else None
  }

  /** A formatted clock is twelve characters and reads back as the same clock. */
  lemma FormatClockRoundTrip(c: ClockTime)
    requires WellFormedClock(c)
    ensures |FormatClock(c)| == 12
    ensures ParseClock(FormatClock(c)) == Some(c)
  {
    var h, m, sec, f := PadDigits(c.hours, 2), PadDigits(c.minutes, 2), PadDigits(c.seconds, 2), PadDigits(c.millis, 3);
    PadDigitsExact(c.hours, 2);
    PadDigitsExact(c.minutes, 2);
    PadDigitsExact(c.seconds, 2);
    PadDigitsExact(c.millis, 3);
    var s := FormatClock(c);
    assert s == h + ":" + m + ":" + sec + "." + f;
    assert s[0..2] == h && s[3..5] == m && s[6..8] == sec && s[9..12] == f;
  }

  /**
   * The seek argument names the requested time to the millisecond: read back,
   * it is the time of day (hours wrap at 24) within half a millisecond of
   * the request.
   */
  lemma SeekTimeArgMeaning(seconds: real)
    requires 0.0 <= seconds
    ensures var c := ClockOf(Milliseconds(seconds));
      ParseClock(SeekTimeArg(seconds)) == Some(c)
      && (c.hours * 3600000 + c.minutes * 60000 + c.seconds * 1000 + c.millis) == Milliseconds(seconds) % 86400000
  {
    FormatClockRoundTrip(ClockOf(Milliseconds(seconds)));
  }

  /** Below one day, the seek time read back is the request rounded to the millisecond. */
  lemma SeekTimeWithinHalfMillisecond(seconds: real)
    requires 0.0 <= seconds && seconds * 1000.0 < 86399999.5
    ensures var c := ClockOf(Milliseconds(seconds));
      var total := (c.hours * 3600000 + c.minutes * 60000 + c.seconds * 1000 + c.millis) as real / 1000.0;
      seconds - 0.0005 <= total <= seconds + 0.0005
  {
    var ms := Milliseconds(seconds);
    assert 0 <= ms < 86400000;
    assert ms % 86400000 == ms;
  }

  /** A time that rounds to a whole day is printed as 00:00:00.000: the hours wrap at 24. */
  lemma SeekTimeWrapsAtOneDay()
    ensures SeekTimeArg(86400.0) == SeekTimeArg(0.0)
  {
    assert Milliseconds(86400.0) == 86400000;
    assert Milliseconds(0.0) == 0;
  }

  /** The arguments that extract the frame at timeArg into outputPath. */
  function ExtractionArguments(timeArg: string, videoPath: string, outputPath: string): string
  {
    "-y -ss " + timeArg + " -i \"" + videoPath + "\" -frames:v 1 \"" + outputPath + "\""
  }

  /** ffmpeg finds the seek time at a fixed position of the command line. */
  lemma ExtractionArgumentsSeek(seconds: real, videoPath: string, outputPath: string)
    ensures var args := ExtractionArguments(SeekTimeArg(seconds), videoPath, outputPath);
      |args| >= 19 && args[..7] == "-y -ss " && ParseClock(args[7..19]) == Some(ClockOf(Milliseconds(seconds)))
  {
    var t := SeekTimeArg(seconds);
    FormatClockRoundTrip(ClockOf(Milliseconds(seconds)));
    var args := ExtractionArguments(t, videoPath, outputPath);
    assert args == "-y -ss " + t + (" -i \"" + videoPath + "\" -frames:v 1 \"" + outputPath + "\"");
    assert args[7..19] == t;
  }

  /** The outcome of ExtractFrameInternal: success, and the warning logged on failure. */
  datatype Attempt = Attempt(arguments: string, success: bool, warning: Option<string>)

  /** ExtractFrameInternal: run ffmpeg once; a zero exit code is success, anything else a warning. */
  function ExtractFrameInternal(videoPath: string, seconds: real, outputPath: string, ffmpeg: FFmpeg): (a: Attempt)
    ensures a.arguments == ExtractionArguments(SeekTimeArg(seconds), videoPath, outputPath)
    ensures a.success <==> ffmpeg(a.arguments).exitCode == 0
    ensures a.warning.Some? <==> !a.success
    ensures !a.success ==>
      a.warning.value == "FFmpeg exited with code " + IntToString(ffmpeg(a.arguments).exitCode) + ": " + ffmpeg(a.arguments).stderr
  {
    var args := ExtractionArguments(SeekTimeArg(seconds), videoPath, outputPath);
    var result := ffmpeg(args);
    if result.exitCode != 0 then
      Attempt(args, false, Some("FFmpeg exited with code " + IntToString(result.exitCode) + ": " + result.stderr))
    else
      Attempt(args, true, None)
  }

  /** ExtractFrame: the blocking variant, which discards the success flag. */
  function ExtractFrame(videoPath: string, seconds: real, outputPath: string, ffmpeg: FFmpeg): (warning: Option<string>)
    ensures warning.None? <==> ffmpeg(ExtractionArguments(SeekTimeArg(seconds), videoPath, outputPath)).exitCode == 0
  {
    ExtractFrameInternal(videoPath, seconds, outputPath, ffmpeg).warning
  }

  function FrameFileName(id: string): string
  {
    "ExtractedFrame_" + id + ".png"
  }

  /** The PNG file a frame with this id is written to. */
  function FramePath(frameOutputPath: string, id: string): string
  {
    Combine(frameOutputPath, FrameFileName(id))
  }

  /** The path ExtractFrameAsync returns: the frame file when ffmpeg succeeded, null otherwise. */
  function ExtractedPath(videoPath: string, seconds: real, id: string, frameOutputPath: string, ffmpeg: FFmpeg): Option<string>
  {
    if ExtractFrameInternal(videoPath, seconds, FramePath(frameOutputPath, id), ffmpeg).success
    then Some(FramePath(frameOutputPath, id)) else None
  }

  /** The result of ExtractFrameAsync: folders afterwards, the path or null, and the event raised. */
  datatype Extraction = Extraction(directories: set<string>, path: Option<string>, readyEvent: Option<string>)

  /**
   * ExtractFrameAsync: the frame folder is created when missing, the frame is
   * extracted to FramePath; on success FrameFromVideoReady fires with that
   * path and the path is returned, on failure null and no event.
   */
  function ExtractFrameAsync(videoPath: string, seconds: real, id: string, frameOutputPath: string,
                             directories: set<string>, ffmpeg: FFmpeg): (e: Extraction)
    ensures e.directories == directories + {frameOutputPath}
    ensures e.path.Some? <==> ExtractFrameInternal(videoPath, seconds, FramePath(frameOutputPath, id), ffmpeg).success
    ensures e.path.Some? ==> e.path.value == FramePath(frameOutputPath, id)
    ensures e.path == ExtractedPath(videoPath, seconds, id, frameOutputPath, ffmpeg)
    ensures e.readyEvent == e.path
  {
    var outFilePath := FramePath(frameOutputPath, id);
    var dirs := if frameOutputPath !in directories then directories + {frameOutputPath} else directories;
    var attempt := ExtractFrameInternal(videoPath, seconds, outFilePath, ffmpeg);
    if !attempt.success then Extraction(dirs, None, None)
    else Extraction(dirs, Some(outFilePath), Some(outFilePath))
  }

  /** The id of the i-th frame of a batch. */
  function BatchFrameId(idPrefix: string, i: nat): string
  {
    idPrefix + "_" + NatToString(i)
  }

  const DefaultBatchPrefix: string := "Batch"

  /** Within one batch, distinct indices write distinct files. */
  lemma BatchPathsDistinct(frameOutputPath: string, idPrefix: string, i: nat, j: nat)
    requires i != j
    ensures FramePath(frameOutputPath, BatchFrameId(idPrefix, i)) != FramePath(frameOutputPath, BatchFrameId(idPrefix, j))
  {
    var ni, nj := FrameFileName(BatchFrameId(idPrefix, i)), FrameFileName(BatchFrameId(idPrefix, j));
    var pre := "ExtractedFrame_" + idPrefix + "_";
    assert ni == pre + (NatToString(i) + ".png");
    assert nj == pre + (NatToString(j) + ".png");
    assert ni[0] == 'E' && ni[1] == 'x' && nj[0] == 'E' && nj[1] == 'x';
    if FramePath(frameOutputPath, BatchFrameId(idPrefix, i)) == FramePath(frameOutputPath, BatchFrameId(idPrefix, j)) {
      CombineSameDirectory(frameOutputPath, ni, nj);
      CancelPrefix(pre, NatToString(i) + ".png", NatToString(j) + ".png");
      CancelSuffix(NatToString(i), NatToString(j), ".png");
      NatToStringInjective(i, j);
    }
  }

  /** For one directory, Combine with relative names is injective in the name. */
  lemma CombineSameDirectory(dir: string, a: string, b: string)
    requires a != "" && b != "" && !IsRooted(a) && !IsRooted(b)
    requires Combine(dir, a) == Combine(dir, b)
    ensures a == b
  {
    if dir != "" {
      if IsDirectoryEnd(dir[|dir| - 1]) {
        CancelPrefix(dir, a, b);
      } else {
        CancelPrefix(dir + "\\", a, b);
      }
    }
  }

  /** The per-index results of a batch, in index order (what Task.WhenAll returns): result i extracts time i into the file of id "{idPrefix}_{i}". */
  function BatchResults(videoPath: string, times: seq<real>, idPrefix: string, frameOutputPath: string,
                        ffmpeg: FFmpeg): (r: seq<Option<string>>)
    ensures |r| == |times|
  {
    seq(|times|, i requires 0 <= i < |times| => ExtractedPath(videoPath, times[i], BatchFrameId(idPrefix, i), frameOutputPath, ffmpeg))
  }

  /** The results that are neither null nor empty, in order. */
  function Present(results: seq<Option<string>>): (r: seq<string>)
    ensures |r| <= |results|
    ensures forall j :: 0 <= j < |r| ==> r[j] != "" && Some(r[j]) in results
    decreases |results|
  {
    if results == [] then []
    else
      var front := Present(results[..|results| - 1]);
      var last := results[|results| - 1];
      assert forall x :: x in results[..|results| - 1] ==> x in results;
      if last.Some? && last.value != "" then front + [last.value] else front
  }

  /** The indices whose result is kept, in increasing order, with what they contribute. */
  function KeptIndices(results: seq<Option<string>>): (k: seq<nat>)
    ensures |k| == |Present(results)|
    ensures forall j :: 0 <= j < |k| ==> k[j] < |results| && results[k[j]] == Some(Present(results)[j])
    ensures forall j, l :: 0 <= j < l < |k| ==> k[j] < k[l]
    decreases |results|
  {
    if results == [] then []
    else
      var n := |results| - 1;
      var front := KeptIndices(results[..n]);
      var last := results[n];
      if last.Some? && last.value != "" then front + [n] else front
  }

  /** No non-empty result is dropped: every such index is among the kept ones. */
  lemma {:induction false} KeptIndicesComplete(results: seq<Option<string>>, i: nat)
    requires i < |results| && results[i].Some? && results[i].value != ""
    ensures i in KeptIndices(results)
    decreases |results|
  {
    var n := |results| - 1;
    if i < n {
      assert results[..n][i] == results[i];
      KeptIndicesComplete(results[..n], i);
    }
  }

  /**
   * ExtractBatchFramesAsync with the tasks run one after another: one
   * extraction per time with id "{idPrefix}_{i}", then the non-empty results
   * in index order. `events` lists the FrameFromVideoReady payloads.
   */
  method ExtractBatchFrames(videoPath: string, times: seq<real>, idPrefix: string, frameOutputPath: string,
                            directories: set<string>, ffmpeg: FFmpeg)
    returns (extractedPaths: seq<string>, events: seq<string>, directoriesAfter: set<string>)
    ensures extractedPaths == Present(BatchResults(videoPath, times, idPrefix, frameOutputPath, ffmpeg))
    ensures events == extractedPaths
    ensures directoriesAfter == if times == [] then directories else directories + {frameOutputPath}
  {
    ghost var all := BatchResults(videoPath, times, idPrefix, frameOutputPath, ffmpeg);
    var results: seq<Option<string>> := [];
    events := [];
    directoriesAfter := directories;
    var i := 0;
    while i < |times|
      invariant 0 <= i <= |times|
      invariant results == all[..i]
      invariant events == Present(results)
      invariant directoriesAfter == if i == 0 then directories else directories + {frameOutputPath}
    {
      var e := ExtractFrameAsync(videoPath, times[i], BatchFrameId(idPrefix, i), frameOutputPath, directoriesAfter, ffmpeg);
      var p := e.path;
      assert p == all[i];
      PrefixSnoc(all, i);
      var extended := results + [p];
      assert extended[..i] == results;
      results := extended;
      if e.readyEvent.Some? && e.readyEvent.value != "" {
        events := events + [e.readyEvent.value];
      }
      directoriesAfter := e.directories;
      i := i + 1;
    }
    assert results == all;
    extractedPaths := KeepPresent(results);
  }

  /** The filtering loop of ExtractBatchFramesAsync: results neither null nor empty, in order. */
  method KeepPresent(results: seq<Option<string>>) returns (extractedPaths: seq<string>)
    ensures extractedPaths == Present(results)
  {
    extractedPaths := [];
    var j := 0;
    while j < |results|
      invariant 0 <= j <= |results|
      invariant extractedPaths == Present(results[..j])
    {
      assert results[..j + 1][..j] == results[..j];
      if results[j].Some? && results[j].value != "" {
        extractedPaths := extractedPaths + [results[j].value];
      }
      j := j + 1;
    }
    assert results[..j] == results;
  }

  /** A batch never returns more paths than times, and each is the file of a distinct index. */
  lemma BatchResultShape(videoPath: string, times: seq<real>, idPrefix: string, frameOutputPath: string,
                         directories: set<string>, ffmpeg: FFmpeg)
    ensures var results := BatchResults(videoPath, times, idPrefix, frameOutputPath, ffmpeg);
      var paths := Present(results);
      var k := KeptIndices(results);
      |paths| <= |times|
      && (forall j :: 0 <= j < |paths| ==> k[j] < |times| && paths[j] == FramePath(frameOutputPath, BatchFrameId(idPrefix, k[j])))
      && (forall j, l :: 0 <= j < l < |paths| ==> paths[j] != paths[l])
  {
    var results := BatchResults(videoPath, times, idPrefix, frameOutputPath, ffmpeg);
    var paths := Present(results);
    var k := KeptIndices(results);
    forall j | 0 <= j < |paths|
      ensures k[j] < |times| && paths[j] == FramePath(frameOutputPath, BatchFrameId(idPrefix, k[j]))
    {
    }
    forall j, l | 0 <= j < l < |paths|
      ensures paths[j] != paths[l]
    {
      BatchPathsDistinct(frameOutputPath, idPrefix, k[j], k[l]);
    }
  }

  /** A file entry: the directory it lies in and its name there. */
  datatype Entry = Entry(directory: string, name: string)

  /** An ASCII capital folded to lower case; every other character is kept. */
  function ToLowerAscii(c: char): char
  {
    if 'A' <= c <= 'Z' then (c as int + 32) as char else c
  }

  /**
   * The name ends in ".png" in any mix of cases (".png", ".PNG", ".Png", …):
   * the search pattern "*.png" on the editor's Windows file system ignores case.
   */
  predicate HasPngExtension(name: string)
  {
    |name| >= 4 && name[|name| - 4] == '.'
    && ToLowerAscii(name[|name| - 3]) == 'p' && ToLowerAscii(name[|name| - 2]) == 'n'
    && ToLowerAscii(name[|name| - 1]) == 'g'
  }

  /**
   * The match ignores case, needs the whole extension, and never takes the
   * ".meta" file Unity keeps beside a PNG.
   */
  lemma PngMatchIgnoresCase(stem: string)
    ensures HasPngExtension(stem + ".png") && HasPngExtension(stem + ".PNG") && HasPngExtension(stem + ".Png")
    ensures !HasPngExtension(stem + ".pn") && !HasPngExtension(stem + ".jpg")
    ensures !HasPngExtension(stem + ".png.meta")
    ensures forall name :: EndsWith(name, ".png") ==> HasPngExtension(name)
  {
    forall name | EndsWith(name, ".png")
      ensures HasPngExtension(name)
    {
      assert name[|name| - 4..] == ".png";
      assert name[|name| - 4] == name[|name| - 4..][0];
      assert name[|name| - 3] == name[|name| - 4..][1];
      assert name[|name| - 2] == name[|name| - 4..][2];
      assert name[|name| - 1] == name[|name| - 4..][3];
    }
  }

  predicate IsPng(e: Entry, dir: string)
  {
    e.directory == dir && HasPngExtension(e.name)
  }

  /** The entries DeleteAllFrames removes from dir: each PNG and the ".meta" file beside it. */
  ghost function FrameEntries(dir: string, files: set<Entry>): set<Entry>
  {
    set e | e in files && (IsPng(e, dir) || (e.directory == dir && exists p :: p in files && IsPng(p, dir) && e.name == p.name + ".meta"))
  }

  /**
   * DeleteAllFrames over the folder `frameOutputPath`: a missing folder only
   * warns; otherwise every PNG in it and the ".meta" file of each is deleted.
   */
  method DeleteAllFrames(frameOutputPath: string, directories: set<string>, files: set<Entry>)
    returns (remaining: set<Entry>, warning: Option<string>)
    ensures frameOutputPath !in directories ==>
      remaining == files && warning == Some("Frame output directory does not exist: " + frameOutputPath)
    ensures frameOutputPath in directories ==> warning.None? && remaining == files - FrameEntries(frameOutputPath, files)
  {
    if frameOutputPath !in directories {
      return files, Some("Frame output directory does not exist: " + frameOutputPath);
    }
    warning := None;
    var frameFiles := set e | e in files && IsPng(e, frameOutputPath);
    remaining := files;
    var done: set<Entry> := {};
    while frameFiles != {}
      invariant frameFiles + done == set e | e in files && IsPng(e, frameOutputPath)
      invariant frameFiles !! done
      invariant remaining == files - done - (set e | e in files && exists p :: p in done && e == Entry(frameOutputPath, p.name + ".meta"))
      decreases frameFiles
    {
      var file :| file in frameFiles;
      var meta := Entry(frameOutputPath, file.name + ".meta");
      remaining := remaining - {file};
      if meta in remaining {
        remaining := remaining - {meta};
      }
      frameFiles := frameFiles - {file};
      done := done + {file};
    }
    assert remaining == files - FrameEntries(frameOutputPath, files);
  }

  /** After DeleteAllFrames no PNG is left in the folder, and no file outside what it removes is touched. */
  lemma DeleteAllFramesEffect(dir: string, files: set<Entry>)
    ensures forall e :: e in files - FrameEntries(dir, files) ==> !IsPng(e, dir)
    ensures forall e :: e in files && e.directory != dir ==> e in files - FrameEntries(dir, files)
    ensures forall e :: e in files && e.directory == dir && !HasPngExtension(e.name) && !EndsWith(e.name, ".meta") ==>
      e in files - FrameEntries(dir, files)
  {
  }
}
