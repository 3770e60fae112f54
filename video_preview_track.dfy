/**
 * VideoPreviewTrack (Assets/_Project/EditorScripts/Track/VideoPreviewTrack.cs):
 * a timeline row of thumbnails. After a resize it lays out one blank
 * preview per 80 pixels, waits until the timeline is set up and half a
 * second has passed, then extracts one frame per preview in a single
 * batch and loads each result into its preview, deleting the file.
 *
 * This file is written against an older UITrack with a
 * `_resizeDebounceDuration` field, which it sets to 2 seconds; the
 * debounce itself is the one of the Timeline module. The await in
 * RefreshPreviewsBatch splits it in two: TrackUpdate starts the refresh
 * and records the requested times, and CompleteRefresh applies the frame
 * paths the batch returned. Files are a map from path to contents.
 */
module PreviewTrack {
  import opened Base
  import opened UnityMath
  import opened Timeline
  import opened FrameExtraction

  const PixelWidth: int := 80
  const PixelHeight: int := 55
  const RefreshDelay: real := 0.5
  /** The debounce duration this row sets in its Initialization. */
  const PreviewDebounceDuration: real := 2.0

  /** A preview box: black until a frame's texture is loaded into it. */
  datatype Preview = Preview(image: Option<seq<byte>>)

  /** How many previews Resized lays out: the whole pixels of the width, divided by 80 (none for a negative width). */
  function PreviewCount(width: real): (n: nat)
    ensures 0.0 <= width ==> n as real * 80.0 <= width < (n + 1) as real * 80.0
    ensures width < 80.0 ==> n == 0
  {
    var amount := CsDiv(TruncateToInt(width), PixelWidth);
    if amount < 0 then 0 else amount
  }

  function Blank(n: nat): (p: seq<Preview>)
    ensures |p| == n && forall i :: 0 <= i < n ==> p[i] == Preview(None)
  {
    seq(n, i => Preview(None))
  }

  /** The refresh scheduler's flags and timer. */
  datatype Scheduler = Scheduler(inNeedOfImages: bool, awaitingRefresh: bool, timeSinceLastRequest: real, isRefreshing: bool)

  /** A wait in progress never overlaps a refresh and has not yet reached the delay. */
  predicate SchedulerValid(s: Scheduler)
  {
    s.awaitingRefresh ==> !s.isRefreshing && s.timeSinceLastRequest < RefreshDelay
  }

  datatype SchedulerStep = SchedulerStep(state: Scheduler, started: bool)

  /** The part of TrackUpdate after the base debounce: arm the wait, count it, start the refresh. */
  function SchedulerUpdate(s: Scheduler, delta: real, setupComplete: bool): (r: SchedulerStep)
    ensures SchedulerValid(s) ==> SchedulerValid(r.state)
  {
    var arm := s.inNeedOfImages && setupComplete && !s.isRefreshing;
    var s1 := if arm then s.(awaitingRefresh := true, timeSinceLastRequest := 0.0, inNeedOfImages := false) else s;
    if !s1.awaitingRefresh then SchedulerStep(s1, false)
    else
      var t := s1.timeSinceLastRequest + delta;
      if t >= RefreshDelay then SchedulerStep(s1.(awaitingRefresh := false, timeSinceLastRequest := t, isRefreshing := true), true)
      else SchedulerStep(s1.(timeSinceLastRequest := t), false)
  }

  /** While a refresh is in flight nothing is armed or started, and a pending need waits. */
  lemma RefreshingBlocksArming(s: Scheduler, delta: real, setupComplete: bool)
    requires SchedulerValid(s) && s.isRefreshing
    ensures SchedulerUpdate(s, delta, setupComplete) == SchedulerStep(s, false)
  {
  }

  /** A need is armed only once the timeline is set up and no refresh is running. */
  lemma ArmingNeedsSetup(s: Scheduler, delta: real, setupComplete: bool)
    requires SchedulerValid(s) && s.inNeedOfImages && !s.awaitingRefresh
    ensures var r := SchedulerUpdate(s, delta, setupComplete);
      (setupComplete && !s.isRefreshing ==> !r.state.inNeedOfImages && (r.started <==> delta >= RefreshDelay))
      && (!setupComplete || s.isRefreshing ==> r == SchedulerStep(s, false))
  {
  }

  datatype SchedulerRun = SchedulerRun(state: Scheduler, started: nat)

  function RunScheduler(s: Scheduler, deltas: seq<real>, setupComplete: bool): SchedulerRun
    decreases |deltas|
  {
    if deltas == [] then SchedulerRun(s, 0)
    else
      var front := RunScheduler(s, deltas[..|deltas| - 1], setupComplete);
      var step := SchedulerUpdate(front.state, deltas[|deltas| - 1], setupComplete);
      SchedulerRun(step.state, front.started + if step.started then 1 else 0)
  }

  /**
   * Once the wait is armed and no new resize arrives, updates with
   * non-negative deltas start exactly one refresh, as soon as the waited
   * time reaches half a second, and none before.
   */
  lemma {:induction false} OneRefreshPerWait(s: Scheduler, deltas: seq<real>, setupComplete: bool)
    requires SchedulerValid(s) && s.awaitingRefresh && !s.inNeedOfImages
    requires forall k :: 0 <= k < |deltas| ==> deltas[k] >= 0.0
    ensures var r := RunScheduler(s, deltas, setupComplete);
      var waited := s.timeSinceLastRequest + Sum(deltas);
      SchedulerValid(r.state) && !r.state.inNeedOfImages
      && r.started == (if waited >= RefreshDelay then 1 else 0)
      && (waited < RefreshDelay ==> r.state == s.(timeSinceLastRequest := waited))
      && (waited >= RefreshDelay ==> r.state.isRefreshing && !r.state.awaitingRefresh)
    decreases |deltas|
  {
    if deltas != [] {
      var front := deltas[..|deltas| - 1];
      assert Sum(deltas) == Sum(front) + deltas[|deltas| - 1];
      OneRefreshPerWait(s, front, setupComplete);
    }
  }

  /** What applying the batch's paths has done so far; `faulted` when a path had no preview left to go to. */
  datatype Applied = Applied(previews: seq<Preview>, files: map<string, seq<byte>>, faulted: bool)

  /**
   * One iteration of RefreshPreviewsBatch's result loop: skip an empty or
   * missing file, else load it into preview i and delete it. Indexing a
   * preview that Resized has since removed throws, ending the loop.
   */
  function ApplyStep(a: Applied, i: nat, path: string): Applied
  {
    if a.faulted || path == "" || path !in a.files then a
    else if i >= |a.previews| then a.(faulted := true)
    else Applied(a.previews[i := Preview(Some(a.files[path]))], a.files - {path}, false)
  }

  function ApplyResults(previews: seq<Preview>, files: map<string, seq<byte>>, paths: seq<string>): (a: Applied)
    ensures |a.previews| == |previews|
    decreases |paths|
  {
    if paths == [] then Applied(previews, files, false)
    else ApplyStep(ApplyResults(previews, files, paths[..|paths| - 1]), |paths| - 1, paths[|paths| - 1])
  }

  /**
   * With at least as many previews as paths, the loop never faults; result
   * i lands on preview i when its file exists, and every other preview is
   * left as it was.
   */
  lemma {:induction false} ApplyResultsPreviews(previews: seq<Preview>, files: map<string, seq<byte>>, paths: seq<string>)
    requires |paths| <= |previews|
    requires forall j :: 0 <= j < |paths| ==> paths[j] != ""
    requires forall j, l :: 0 <= j < l < |paths| ==> paths[j] != paths[l]
    ensures var a := ApplyResults(previews, files, paths);
      !a.faulted
      && (forall i :: 0 <= i < |paths| ==>
            a.previews[i] == if paths[i] in files then Preview(Some(files[paths[i]])) else previews[i])
      && (forall i :: |paths| <= i < |previews| ==> a.previews[i] == previews[i])
    decreases |paths|
  {
    if paths != [] {
      var n := |paths| - 1;
      var front := paths[..n];
      assert forall j :: 0 <= j < n ==> front[j] == paths[j];
      ApplyResultsPreviews(previews, files, front);
      ApplyResultsFiles(previews, files, front);
      var a' := ApplyResults(previews, files, front);
      assert paths[n] !in front;
      assert paths[n] in a'.files <==> paths[n] in files;
    }
  }

  /** With distinct paths and enough previews, exactly the loaded files are deleted. */
  lemma {:induction false} ApplyResultsFiles(previews: seq<Preview>, files: map<string, seq<byte>>, paths: seq<string>)
    requires |paths| <= |previews|
    requires forall j :: 0 <= j < |paths| ==> paths[j] != ""
    requires forall j, l :: 0 <= j < l < |paths| ==> paths[j] != paths[l]
    ensures ApplyResults(previews, files, paths).files == files - (set p | p in paths)
    decreases |paths|
  {
    if paths != [] {
      var n := |paths| - 1;
      var front := paths[..n];
      assert forall j :: 0 <= j < n ==> front[j] == paths[j];
      ApplyResultsPreviews(previews, files, front);
      ApplyResultsFiles(previews, files, front);
      var a' := ApplyResults(previews, files, front);
      assert (set p | p in paths) == (set p | p in front) + {paths[n]};
      assert paths[n] !in front;
      assert paths[n] in a'.files <==> paths[n] in files;
    }
  }

  /**
   * With distinct paths and at least as many previews as paths, result i
   * lands on preview i when its file exists, every other preview is left
   * as it was, and exactly the loaded files are deleted.
   */
  lemma ApplyResultsMeaning(previews: seq<Preview>, files: map<string, seq<byte>>, paths: seq<string>)
    requires |paths| <= |previews|
    requires forall j :: 0 <= j < |paths| ==> paths[j] != ""
    requires forall j, l :: 0 <= j < l < |paths| ==> paths[j] != paths[l]
    ensures var a := ApplyResults(previews, files, paths);
      !a.faulted
      && (forall i :: 0 <= i < |paths| ==>
            a.previews[i] == if paths[i] in files then Preview(Some(files[paths[i]])) else previews[i])
      && (forall i :: |paths| <= i < |previews| ==> a.previews[i] == previews[i])
      && a.files == files - (set p | p in paths)
  {
    ApplyResultsPreviews(previews, files, paths);
    ApplyResultsFiles(previews, files, paths);
  }

  /**
   * A refresh right after Resized: on the blank layout, preview i shows the
   * frame file of result i when that file exists, and every other preview
   * stays black.
   */
  lemma BlankLayoutShowsOnlyResults(width: real, files: map<string, seq<byte>>, paths: seq<string>)
    requires |paths| <= PreviewCount(width)
    requires forall j :: 0 <= j < |paths| ==> paths[j] != ""
    requires forall j, l :: 0 <= j < l < |paths| ==> paths[j] != paths[l]
    ensures var a := ApplyResults(Blank(PreviewCount(width)), files, paths);
      !a.faulted && |a.previews| == PreviewCount(width)
      && (forall i :: 0 <= i < |a.previews| ==>
            a.previews[i] == if i < |paths| && paths[i] in files then Preview(Some(files[paths[i]])) else Preview(None))
  {
    ApplyResultsMeaning(Blank(PreviewCount(width)), files, paths);
  }

  predicate Kept(result: Option<string>)
  {
    result.Some? && result.value != ""
  }

  lemma {:induction false} KeptIndicesAtLeast(results: seq<Option<string>>)
    ensures forall j :: 0 <= j < |KeptIndices(results)| ==> j <= KeptIndices(results)[j]
    decreases |results|
  {
    if results != [] {
      KeptIndicesAtLeast(results[..|results| - 1]);
    }
  }

  /** Each result adds one kept index exactly when it is kept. */
  lemma KeptCountStep(results: seq<Option<string>>)
    requires results != []
    ensures |KeptIndices(results)| == |KeptIndices(results[..|results| - 1])| + if Kept(results[|results| - 1]) then 1 else 0
    ensures |KeptIndices(results[..|results| - 1])| <= |results| - 1
  {
  }

  /** When every result is kept, every index is. */
  lemma {:induction false} KeptAllWhenAllKept(results: seq<Option<string>>)
    requires forall i :: 0 <= i < |results| ==> Kept(results[i])
    ensures |KeptIndices(results)| == |results|
    decreases |results|
  {
    if results != [] {
      var n := |results| - 1;
      var front := results[..n];
      forall i | 0 <= i < n
        ensures Kept(front[i])
      {
        assert front[i] == results[i];
      }
      KeptAllWhenAllKept(front);
      KeptCountStep(results);
    }
  }

  /** One dropped result leaves fewer kept indices than results. */
  lemma {:induction false} KeptFewerWhenDropped(results: seq<Option<string>>, i: nat)
    requires i < |results| && !Kept(results[i])
    ensures |KeptIndices(results)| < |results|
    decreases |results|
  {
    var n := |results| - 1;
    var front := results[..n];
    KeptCountStep(results);
    if i < n {
      assert front[i] == results[i];
      KeptFewerWhenDropped(front, i);
    }
  }

  /** Every index is kept exactly when every result is. */
  lemma KeptAll(results: seq<Option<string>>)
    ensures |KeptIndices(results)| == |results| <==> forall i :: 0 <= i < |results| ==> Kept(results[i])
  {
    if forall i :: 0 <= i < |results| ==> Kept(results[i]) {
      KeptAllWhenAllKept(results);
    } else {
      var i :| 0 <= i < |results| && !Kept(results[i]);
      KeptFewerWhenDropped(results, i);
    }
  }

  /** Dropping the last results never adds kept indices. */
  lemma {:induction false} KeptCountMonotone(results: seq<Option<string>>, m: nat)
    requires m <= |results|
    ensures |KeptIndices(results[..m])| <= |KeptIndices(results)|
    decreases |results|
  {
    if m < |results| {
      var front := results[..|results| - 1];
      assert results[..m] == front[..m];
      KeptCountMonotone(front, m);
    } else {
      assert results[..m] == results;
    }
  }

  /**
   * The batch drops failures and the loop assigns by position, so preview
   * j shows the frame requested for its own time exactly when no
   * extraction up to j failed; after a failure every later frame lands one
   * or more previews too early.
   */
  lemma {:induction false} PreviewShowsOwnFrame(results: seq<Option<string>>, j: nat)
    requires j < |KeptIndices(results)|
    ensures j <= KeptIndices(results)[j]
    ensures KeptIndices(results)[j] == j <==> forall i :: 0 <= i <= j ==> Kept(results[i])
    decreases |results|
  {
    KeptIndicesAtLeast(results);
    var n := |results| - 1;
    var front := results[..n];
    var k' := KeptIndices(front);
    assert forall i :: 0 <= i < |front| ==> front[i] == results[i];
    if j < |k'| {
      PreviewShowsOwnFrame(front, j);
      assert KeptIndices(results)[j] == k'[j];
    } else {
      assert KeptIndices(results)[j] == n && Kept(results[n]);
      KeptAll(front);
      if j < n && forall i :: 0 <= i <= j ==> Kept(results[i]) {
        var head := front[..j + 1];
        assert forall i :: 0 <= i < |head| ==> head[i] == results[i];
        KeptAll(head);
        KeptCountMonotone(front, j + 1);
        assert false;
      }
    }
  }

  class VideoPreviewTrack {
    var shouldStartResizeTimer: bool
    var resizeDebounceTimer: real
    var resizeDebounceDuration: real
    var previews: seq<Preview>
    var inNeedOfImages: bool
    var isRefreshing: bool
    var awaitingRefresh: bool
    var timeSinceLastRequest: real
    /**
     * The times of each batch refresh started, in order. A request is
     * abstracted to its times: the video path and the "previewBatch" id
     * prefix passed along with them are not recorded.
     */
    var requests: seq<seq<real>>

    function Debounce(): Debounce
      reads this
    {
      Timeline.Debounce(shouldStartResizeTimer, resizeDebounceTimer)
    }

    function Schedule(): Scheduler
      reads this
    {
      Scheduler(inNeedOfImages, awaitingRefresh, timeSinceLastRequest, isRefreshing)
    }

    predicate Valid()
      reads this
    {
      DebounceValid(Debounce()) && SchedulerValid(Schedule()) && resizeDebounceDuration > 0.0
    }

    constructor ()
      ensures Valid()
      ensures Debounce() == Timeline.Debounce(false, 0.0) && resizeDebounceDuration == PreviewDebounceDuration
      ensures Schedule() == Scheduler(false, false, 0.0, false) && previews == [] && requests == []
    {
      shouldStartResizeTimer := false;
      resizeDebounceTimer := 0.0;
      resizeDebounceDuration := PreviewDebounceDuration;
      previews := [];
      inNeedOfImages := false;
      isRefreshing := false;
      awaitingRefresh := false;
      timeSinceLastRequest := 0.0;
      requests := [];
    }

    /** The base ElementResized: restart the debounce from the full duration. */
    method ElementResized()
      requires Valid()
      modifies this
      ensures Valid()
      ensures Debounce() == Timeline.Debounce(true, resizeDebounceDuration)
      ensures resizeDebounceDuration == old(resizeDebounceDuration)
      ensures Schedule() == old(Schedule()) && previews == old(previews) && requests == old(requests)
    {
      shouldStartResizeTimer := true;
      resizeDebounceTimer := resizeDebounceDuration;
    }

    /** Resized: replace the previews by one blank box per 80 pixels of width, and ask for images. */
    method Resized(width: real)
      requires Valid()
      modifies this
      ensures Valid()
      ensures previews == Blank(PreviewCount(width)) && inNeedOfImages
      ensures Debounce() == old(Debounce()) && resizeDebounceDuration == old(resizeDebounceDuration)
      ensures awaitingRefresh == old(awaitingRefresh) && isRefreshing == old(isRefreshing)
      ensures timeSinceLastRequest == old(timeSinceLastRequest) && requests == old(requests)
    {
      var amountOfPreviews := PreviewCount(width);
      var boxes := [];
      var i := 0;
      while i < amountOfPreviews
        invariant 0 <= i <= amountOfPreviews
        invariant boxes == Blank(i)
      {
        boxes := boxes + [Preview(None)];
        i := i + 1;
      }
      previews := boxes;
      inNeedOfImages := true;
    }

    /**
     * TrackUpdate: the base debounce (whose OnResize runs Resized), then
     * the scheduler; a started refresh requests one time per preview.
     */
    method TrackUpdate(delta: real, width: real, setupComplete: bool, worldX: nat -> real, timeFromLeft: real -> real)
      returns (started: bool)
      requires Valid()
      modifies this
      ensures Valid()
      ensures var step := DebounceUpdate(old(Debounce()), delta);
        Debounce() == step.state
        && previews == (if step.fired then Blank(PreviewCount(width)) else old(previews))
        && SchedulerUpdate(old(Schedule()).(inNeedOfImages := step.fired || old(inNeedOfImages)), delta, setupComplete)
           == SchedulerStep(Schedule(), started)
      ensures resizeDebounceDuration == old(resizeDebounceDuration)
      ensures requests == old(requests) + if started then [PreviewTimes(|previews|, worldX, timeFromLeft)] else []
    {
      var fired := BaseTrackUpdate(delta, width);
      started := RefreshTick(delta, setupComplete, worldX, timeFromLeft);
    }

    /** UITrack's TrackUpdate, with Resized as the OnResize handler. */
    method BaseTrackUpdate(delta: real, width: real) returns (fired: bool)
      requires Valid()
      modifies this
      ensures Valid()
      ensures DebounceUpdate(old(Debounce()), delta) == DebounceStep(Debounce(), fired)
      ensures previews == (if fired then Blank(PreviewCount(width)) else old(previews))
      ensures Schedule() == old(Schedule()).(inNeedOfImages := fired || old(inNeedOfImages))
      ensures resizeDebounceDuration == old(resizeDebounceDuration) && requests == old(requests)
    {
      fired := false;
      if shouldStartResizeTimer {
        resizeDebounceTimer := resizeDebounceTimer - delta;
        if resizeDebounceTimer <= 0.0 {
          resizeDebounceTimer := 0.0;
          shouldStartResizeTimer := false;
          Resized(width);
          fired := true;
        }
      }
    }

    /** The scheduler part of TrackUpdate; starting a refresh records the preview times it requests. */
    method RefreshTick(delta: real, setupComplete: bool, worldX: nat -> real, timeFromLeft: real -> real) returns (started: bool)
      requires Valid()
      modifies this
      ensures Valid()
      ensures SchedulerUpdate(old(Schedule()), delta, setupComplete) == SchedulerStep(Schedule(), started)
      ensures Debounce() == old(Debounce()) && previews == old(previews)
      ensures resizeDebounceDuration == old(resizeDebounceDuration)
      ensures requests == old(requests) + if started then [PreviewTimes(|previews|, worldX, timeFromLeft)] else []
    {
      started := false;
      if inNeedOfImages && setupComplete && !isRefreshing {
        awaitingRefresh := true;
        timeSinceLastRequest := 0.0;
        inNeedOfImages := false;
      }
      if awaitingRefresh {
        timeSinceLastRequest := timeSinceLastRequest + delta;
        if timeSinceLastRequest >= RefreshDelay {
          awaitingRefresh := false;
          isRefreshing := true;
          var times := GatherTimes(|previews|, worldX, timeFromLeft);
          requests := requests + [times];
          started := true;
        }
      }
    }

    /**
     * The rest of RefreshPreviewsBatch, once the batch has returned its
     * frame paths: load them into the previews, delete the files, and
     * clear the refreshing flag unless the loop threw.
     */
    method CompleteRefresh(framePaths: seq<string>, files: map<string, seq<byte>>) returns (filesAfter: map<string, seq<byte>>)
      requires Valid() && isRefreshing
      modifies this
      ensures Valid()
      ensures var a := ApplyResults(old(previews), files, framePaths);
        previews == a.previews && filesAfter == a.files && isRefreshing == a.faulted
      ensures Debounce() == old(Debounce()) && resizeDebounceDuration == old(resizeDebounceDuration)
      ensures inNeedOfImages == old(inNeedOfImages) && awaitingRefresh == old(awaitingRefresh)
      ensures timeSinceLastRequest == old(timeSinceLastRequest) && requests == old(requests)
    {
      var a := ApplyFramePaths(previews, files, framePaths);
      previews := a.previews;
      filesAfter := a.files;
      isRefreshing := a.faulted;
    }
  }

  /** The times requested for the previews: the time under each preview's left edge, in preview order. */
  function PreviewTimes(n: nat, worldX: nat -> real, timeFromLeft: real -> real): seq<real>
  {
    seq(n, i requires 0 <= i < n => timeFromLeft(worldX(i)))
  }

  /** RefreshPreviewsBatch's first loop: one time per preview, in order. */
  method GatherTimes(n: nat, worldX: nat -> real, timeFromLeft: real -> real) returns (times: seq<real>)
    ensures |times| == n && forall i :: 0 <= i < n ==> times[i] == timeFromLeft(worldX(i))
    ensures times == PreviewTimes(n, worldX, timeFromLeft)
  {
    times := [];
    var i := 0;
    while i < n
      invariant 0 <= i <= n
      invariant |times| == i && forall j :: 0 <= j < i ==> times[j] == timeFromLeft(worldX(j))
    {
      times := times + [timeFromLeft(worldX(i))];
      i := i + 1;
    }
  }

  /** RefreshPreviewsBatch's result loop. */
  method ApplyFramePaths(previews: seq<Preview>, files: map<string, seq<byte>>, framePaths: seq<string>) returns (a: Applied)
    ensures a == ApplyResults(previews, files, framePaths)
  {
    var current := previews;
    var remaining := files;
    var i := 0;
    while i < |framePaths|
      invariant 0 <= i <= |framePaths|
      invariant ApplyResults(previews, files, framePaths[..i]) == Applied(current, remaining, false)
    {
      assert framePaths[..i + 1][..i] == framePaths[..i];
      var filePath := framePaths[i];
      if filePath == "" || filePath !in remaining {
        i := i + 1;
        continue;
      }
      if i >= |current| {
        assert ApplyResults(previews, files, framePaths[..i + 1]) == Applied(current, remaining, true);
        a := Applied(current, remaining, true);
        FaultStays(previews, files, framePaths, i + 1);
        return;
      }
      current := current[i := Preview(Some(remaining[filePath]))];
      remaining := remaining - {filePath};
      i := i + 1;
    }
    assert framePaths[..i] == framePaths;
    a := Applied(current, remaining, false);
  }

  /** Once the loop has thrown, the remaining paths change nothing. */
  lemma {:induction false} FaultStays(previews: seq<Preview>, files: map<string, seq<byte>>, paths: seq<string>, m: nat)
    requires m <= |paths|
    requires ApplyResults(previews, files, paths[..m]).faulted
    ensures ApplyResults(previews, files, paths) == ApplyResults(previews, files, paths[..m])
    decreases |paths| - m
  {
    if m == |paths| {
      assert paths[..m] == paths;
    } else {
      assert paths[..m + 1][..m] == paths[..m];
      FaultStays(previews, files, paths, m + 1);
    }
  }
}
