# PlaytestingReviewer core in Dafny

PlaytestingReviewer is a Unity tool for reviewing play tests. A game session is recorded as a
video: frames are captured at a fixed rate and piped to an ffmpeg encoder, while metric tracks
record timestamped events. The tracks are series of key/value instances, such as mouse presses
or tracked properties. A reviewer then opens the review in a timeline window. There, time
indicators, zoom, metric markers, preview thumbnails from ffmpeg and a video player with its
controller let them seek through the recording.

This project models that core, one Dafny module per source file:

- Recording
  - `Capture` models VideoRecorder/VideoCapture.cs.
  - `Encoding` models VideoRecorder/FFmpegVideoEnconder.cs.
  - `MouseRecording` models Tracks/MouseInputRecorder.cs.
  - `Collecting` models MetricRecorder/TrackCollector.cs.
  - `MetricRecording` models the instance that MetricRecorder.LogEvent builds.
  - `KeyValueStore` models Tracks/SerializableDictionary.cs.
  - `Tracks` models the track records.
- Frame extraction
  - `FrameExtraction` models Utility/FFmpegUtils.cs.
  - `EditorFFmpeg` models Editor/FFmpegUtils.cs.
- The timeline
  - `Timeline` models EditorScripts/Track/UITrack.cs.
  - `PreviewTrack` models EditorScripts/Track/VideoPreviewTrack.cs.
  - `ScriptsMetricTrack` and `EditorMetricTrackView` model the two UIMetricTrack.cs revisions.
  - `EditorMetricBoxes` models Editor/Track/MetricTrack.cs.
  - `ScriptsTimeIndicators` and `EditorTimeIndicators` model the two TimeIndicatorController.cs revisions.
  - `ScriptsZoom` and `EditorZoom` model the two ZoomUpdater.cs revisions.
- Playback
  - `ScriptsVideoPlayer` and `EditorVideoPlayer` model the two UIVideoPlayer.cs revisions.
  - `ScriptsVideoController`, `EditorUtilsVideoController` and `EditorVideoController` model the three VideoController.cs revisions.
- Review management
  - `ReviewLoading` models ReviewLoaderUI.cs.
  - `ReviewImporting` models ReviewImporter.cs.
  - `Singletons` models Utility/PersistentSingletone.cs.
- The test game
  - `LineSwitching` models TestGameFiles/LineSwitcher.cs.
- Shared library modules
  - `Base` holds Option, the byte type, Flatten and TotalLength over byte buffers, and the lemmas PrefixSnoc, FlattenAppend and FlattenLength.
  - `Text` holds decimal rendering, padding, splitting and joining.
  - `TextLemmas` holds facts about `Text`.
  - `DotNetPath` holds System.IO.Path with the Windows rules.
  - `UnityMath` holds Mathf's Lerp and Clamp01, C# integer division and remainder, and the two rounding rules.

How the source's forms carry over:

- Components whose fields the source updates are classes. Their methods carry `modifies` and
  say what the new state is.
- String formatting, argument building and layout arithmetic are functions. Lemmas state their
  properties: round trips, ranges, order, and which inputs give which branch.
- Loops that only compute are methods with loop invariants. Each is proved equal to a
  specification function.

What is outside the model enters as a parameter:

- the exit code an ffmpeg run returns;
- `float.TryParse`, as a partial function on strings;
- rendered float text;
- the layout positions (`worldBound.x`) of the time indicators;
- the editor's delta times;
- the file system, as sets and maps of paths;
- the values the file dialogs return.

C# `float` is modelled as `real`. `int` division and remainder truncate toward zero, as in C#.
`Mathf.Round` rounds half to even, and `ToString("0")` rounds half away from zero.

## Model

| member | source | states |
|---|---|---|
| KeyValueStore.LastValue | Assets/_Project/Tracks/SerializableDictionary.cs:19-28 | the value a key ends up with is absent exactly when no pair has the key, and otherwise is the value of a pair with that key |
| KeyValueStore.PutKeys | Assets/_Project/Tracks/SerializableDictionary.cs:24 | `dictionary[key] = value` adds the key to the key set and keeps keys distinct |
| KeyValueStore.FindPut | Assets/_Project/Tracks/SerializableDictionary.cs:24 | after `dictionary[key] = value` the key maps to the new value and every other key's lookup is unchanged |
| KeyValueStore.CollapseKeys | Assets/_Project/Tracks/SerializableDictionary.cs:19-28 | ToDictionary has exactly the keys of the pair list, each once |
| KeyValueStore.CollapseLastWins | Assets/_Project/Tracks/SerializableDictionary.cs:19-28 | looking a key up in ToDictionary gives the value of the last pair with that key |
| KeyValueStore.SerializableDictionary.constructor | Assets/_Project/Tracks/SerializableDictionary.cs:8 | a new dictionary holds no pairs |
| KeyValueStore.SerializableDictionary.Add | Assets/_Project/Tracks/SerializableDictionary.cs:10-17 | Add appends exactly one pair at the end; duplicates are kept |
| KeyValueStore.SerializableDictionary.ToDictionary | Assets/_Project/Tracks/SerializableDictionary.cs:19-28 | the loop builds the collapsed dictionary: distinct keys, the same key set, last pair wins for every key |
| Collecting.TrackCollector.constructor | Assets/_Project/MetricRecorder/TrackCollector.cs:12 | the collector starts with no tracks |
| Collecting.TrackCollector.AddTrack | Assets/_Project/MetricRecorder/TrackCollector.cs:14-17 | AddTrack appends the track at the end |
| Collecting.TrackCollector.GetTracks | Assets/_Project/MetricRecorder/TrackCollector.cs:19-27 | GetTracks returns a fresh array holding the tracks in insertion order |
| MetricRecording.LogEventAsWritten | Assets/_Project/MetricRecorder/MetricRecorder.cs:163-175 | the instance LogEvent builds as written: the time under the key "Time: ", then the tracked properties in order |
| MetricRecording.LogEvent | Assets/_Project/MetricRecorder/MetricRecorder.cs:163-175 | the corrected instance: the time under the key "time", then the tracked properties in order |
| MetricRecording.LastValueAppendAbsent | Assets/_Project/Tracks/SerializableDictionary.cs:19-28 | pairs appended after the last one with a key do not change that key's value |
| MetricRecording.RecordedEventHasNoTime | Assets/_Project/MetricRecorder/MetricRecorder.cs:166 | an event logged as written carries no "time" entry, so the metric rows find no time in it |
| MetricRecording.RecordedTrackGetsNoMarkers | Assets/_Project/MetricRecorder/MetricRecorder.cs:163-175 | a track filled by LogEvent as written gets no marker from UIMetricTrack and no box from MetricTrack |
| MetricRecording.LoggedEventGetsMarker | Assets/_Project/MetricRecorder/MetricRecorder.cs:163-175 | with the corrected key an event whose time parses gets exactly one marker at that time |
| MouseRecording.ClickInstanceLookup | Assets/_Project/Tracks/MouseInputRecorder.cs:26-29 | a recorded press has exactly the keys time, button and position, with the values given |
| MouseRecording.MouseInputRecorder.constructor | Assets/_Project/Tracks/MouseInputRecorder.cs:9 | no track exists before Start |
| MouseRecording.MouseInputRecorder.Start | Assets/_Project/Tracks/MouseInputRecorder.cs:11-20 | Start creates an empty Metric track named "Mouse Input Track" with icon "Mouse.png" |
| MouseRecording.MouseInputRecorder.RecordPress | Assets/_Project/Tracks/MouseInputRecorder.cs:26-31 | one press appends exactly one instance to the track and changes nothing else of it |
| MouseRecording.MouseInputRecorder.Update | Assets/_Project/Tracks/MouseInputRecorder.cs:22-43 | a left press appends a "Left" instance, then a right press a "Right" one; no press leaves the track unchanged |
| MouseRecording.MouseInputRecorder.OnDestroy | Assets/_Project/Tracks/MouseInputRecorder.cs:45-49 | the one-track array is written to VideoOutputPath + "/Mouse.json" |
| FrameExtraction.Milliseconds | Assets/_Project/Utility/FFmpegUtils.cs:27 | TimeSpan.FromSeconds keeps the number of whole milliseconds within half a millisecond of the request |
| FrameExtraction.ClockOf | Assets/_Project/Utility/FFmpegUtils.cs:27 | the hh, mm, ss and fff components are in range and add up to the magnitude of the milliseconds modulo one day |
| FrameExtraction.PadDigitsExact | Assets/_Project/Utility/FFmpegUtils.cs:27 | a component below 10^width is printed with exactly width digits and reads back as itself |
| FrameExtraction.FormatClockRoundTrip | Assets/_Project/Utility/FFmpegUtils.cs:27 | the format hh\:mm\:ss\.fff is twelve characters and reads back as the same clock |
| FrameExtraction.SeekTimeArgMeaning | Assets/_Project/Utility/FFmpegUtils.cs:27 | the -ss argument reads back as the requested time of day, to the millisecond, with hours wrapping at 24 |
| FrameExtraction.SeekTimeWithinHalfMillisecond | Assets/_Project/Utility/FFmpegUtils.cs:27 | below one day the seek time read back is within half a millisecond of the request |
| FrameExtraction.SeekTimeWrapsAtOneDay | Assets/_Project/Utility/FFmpegUtils.cs:27 | a request of one whole day prints the same seek argument as time 0 |
| FrameExtraction.ExtractionArgumentsSeek | Assets/_Project/Utility/FFmpegUtils.cs:29 | the command line starts with "-y -ss " followed by the twelve-character seek time |
| FrameExtraction.ExtractFrameInternal | Assets/_Project/Utility/FFmpegUtils.cs:24-56 | ffmpeg runs with the extraction arguments; success exactly when the exit code is 0; otherwise the warning names the exit code and the error output |
| FrameExtraction.ExtractFrame | Assets/_Project/Utility/FFmpegUtils.cs:129-132 | the blocking call warns exactly when ffmpeg exits with a non-zero code |
| FrameExtraction.ExtractFrameAsync | Assets/_Project/Utility/FFmpegUtils.cs:67-84 | the frame folder exists afterwards; the path ExtractedFrame_{id}.png is returned and announced exactly when the extraction succeeded, null and no event otherwise |
| FrameExtraction.BatchPathsDistinct | Assets/_Project/Utility/FFmpegUtils.cs:103-108 | distinct indices of one batch write distinct files |
| FrameExtraction.CombineSameDirectory | Assets/_Project/Utility/FFmpegUtils.cs:70 | for one directory, Path.Combine with relative names is injective in the name |
| FrameExtraction.BatchResults | Assets/_Project/Utility/FFmpegUtils.cs:103-110 | one result per requested time, in index order |
| FrameExtraction.Present | Assets/_Project/Utility/FFmpegUtils.cs:113-117 | the kept paths are never empty, each is one of the results, and there are no more of them than results |
| FrameExtraction.KeptIndices | Assets/_Project/Utility/FFmpegUtils.cs:113-117 | the kept paths come from strictly increasing result indices, each holding that path |
| FrameExtraction.KeptIndicesComplete | Assets/_Project/Utility/FFmpegUtils.cs:113-117 | no result that is neither null nor empty is dropped |
| FrameExtraction.ExtractBatchFrames | Assets/_Project/Utility/FFmpegUtils.cs:94-120 | the batch returns the non-empty results in index order, raises one event per returned path, and creates the frame folder when there is at least one time |
| FrameExtraction.KeepPresent | Assets/_Project/Utility/FFmpegUtils.cs:113-117 | the filtering loop keeps exactly the results that are neither null nor empty, in order |
| FrameExtraction.BatchResultShape | Assets/_Project/Utility/FFmpegUtils.cs:94-120 | each returned path is the file of a distinct requested index, so no two returned paths are equal |
| FrameExtraction.DeleteAllFrames | Assets/_Project/Utility/FFmpegUtils.cs:137-173 | a missing folder only warns; otherwise exactly the folder's PNG files, matched on ".png" in any case, and the ".meta" file beside each are deleted |
| FrameExtraction.PngMatchIgnoresCase | Assets/_Project/Utility/FFmpegUtils.cs:149 | the "*.png" match accepts ".png", ".PNG" and ".Png", needs the whole extension, never takes a ".png.meta" file, and includes every exact ".png" name |
| FrameExtraction.DeleteAllFramesEffect | Assets/_Project/Utility/FFmpegUtils.cs:147-162 | afterwards no PNG, in any case of ".png", is left in the folder, files elsewhere are untouched, and so are the folder's other files |
| EditorFFmpeg.ExtractFrameFromVideoCoroutine | Assets/_Project/Editor/FFmpegUtils.cs:25-71 | the coroutine runs the same command as the static helper; the event carries the frame path exactly when the exit code is 0, otherwise two warnings (exit code, then error output) are logged |
| EditorFFmpeg.CoroutineAgreesWithStaticHelper | Assets/_Project/Editor/FFmpegUtils.cs:25-71 | the editor coroutine and ExtractFrameAsync raise the same event for the same ffmpeg outcome |
| Encoding.EncoderArgumentsInjective | Assets/_Project/VideoRecorder/FFmpegVideoEnconder.cs:38-39 | the ffmpeg command line determines the width, height, frame rate and output file it was built from |
| Encoding.WrittenIsPrefixOfEnqueued | Assets/_Project/VideoRecorder/FFmpegVideoEnconder.cs:68-95 | the bytes on ffmpeg's stdin are a prefix of all enqueued frames in enqueue order, and the rest is the queue |
| Encoding.FFmpegVideoEncoder.constructor | Assets/_Project/VideoRecorder/FFmpegVideoEnconder.cs:24-66 | the encoder keeps its settings, starts ffmpeg and the worker, and nothing is queued or written yet |
| Encoding.FFmpegVideoEncoder.EnqueueFrame | Assets/_Project/VideoRecorder/FFmpegVideoEnconder.cs:92-95 | a frame goes to the back of the queue; nothing is written, dropped or stopped |
| Encoding.FFmpegVideoEncoder.WorkerStep | Assets/_Project/VideoRecorder/FFmpegVideoEnconder.cs:68-90 | with stop requested the loop exits, closes stdin and waits for ffmpeg, abandoning the queue; otherwise the front frame is written in full, or an empty queue only sleeps |
| Encoding.FFmpegVideoEncoder.Dispose | Assets/_Project/VideoRecorder/FFmpegVideoEnconder.cs:97-103 | Dispose stops and joins the worker and disposes the process; frames still queued are never written |
| Capture.ClockTick | Assets/_Project/VideoRecorder/VideoCapture.cs:119-125 | a tick captures exactly when the accumulated time reaches the interval, and the accumulated time is conserved |
| Capture.RunClock | Assets/_Project/VideoRecorder/VideoCapture.cs:114-127 | a run of LateUpdate ticks captures at most once per tick |
| Capture.ClockConservation | Assets/_Project/VideoRecorder/VideoCapture.cs:114-127 | over any run, the elapsed active time is the captured intervals plus what is still accumulated |
| Capture.AccumulatorNonNegative | Assets/_Project/VideoRecorder/VideoCapture.cs:119-125 | with non-negative frame times the accumulator never goes negative |
| Capture.TickStaysBelowInterval | Assets/_Project/VideoRecorder/VideoCapture.cs:119-125 | a tick no longer than one interval, from below one interval, ends below one interval |
| Capture.AccumulatorBelowInterval | Assets/_Project/VideoRecorder/VideoCapture.cs:114-127 | when no frame takes longer than one interval the accumulator stays below one interval |
| Capture.ClockKeepsUp | Assets/_Project/VideoRecorder/VideoCapture.cs:114-127 | when no frame takes longer than one interval, the number of captures is the elapsed time divided by the interval, rounded down |
| Capture.OneCapturePerTick | Assets/_Project/VideoRecorder/VideoCapture.cs:121-125 | a frame longer than two intervals still captures once, so the clock falls behind |
| Capture.Interval | Assets/_Project/VideoRecorder/VideoCapture.cs:70 | the capture interval is positive |
| Capture.IntervalIsOneFrame | Assets/_Project/VideoRecorder/VideoCapture.cs:70 | targetFramerate intervals make one second |
| Capture.OutputFileName | Assets/_Project/VideoRecorder/VideoCapture.cs:74-75 | whatever the output directory, the video file is named Review.mp4 |
| Capture.VideoCapture.constructor | Assets/_Project/VideoRecorder/VideoCapture.cs:15-41 | the inspector defaults 1280x720 at 30 fps, not capturing, not paused, video time 0 |
| Capture.VideoCapture.StartCapture | Assets/_Project/VideoRecorder/VideoCapture.cs:58-81 | while capturing only warns "Already capturing!"; otherwise the interval is one over the frame rate, the clock and video time restart at 0, and a new encoder writes OutputFile(outputPath) at the component's size and rate |
| Capture.VideoCapture.OpenSession | Assets/_Project/VideoRecorder/VideoCapture.cs:66-80 | the part of StartCapture past the guard: the new session's state and encoder |
| Capture.VideoCapture.StopCapture | Assets/_Project/VideoRecorder/VideoCapture.cs:83-112 | when not capturing only warns "Not currently capturing!"; otherwise capturing ends and the encoder is disposed and dropped, its queue abandoned; the size, frame rate, output path, clock, video time and pause flag are kept |
| Capture.VideoCapture.CaptureFrame | Assets/_Project/VideoRecorder/VideoCapture.cs:145-173 | one frame is enqueued on the encoder and the video time grows by one interval |
| Capture.VideoCapture.LateUpdate | Assets/_Project/VideoRecorder/VideoCapture.cs:114-127 | an inactive or paused session is untouched; an active one advances as ClockTick says and enqueues exactly one frame when it fires; the size, frame rate and output path are always kept |
| Capture.VideoCapture.OnApplicationPause | Assets/_Project/VideoRecorder/VideoCapture.cs:175-178 | only the pause flag changes |
| Capture.VideoCapture.OnApplicationQuit | Assets/_Project/VideoRecorder/VideoCapture.cs:52-56 | a running session is stopped as StopCapture does, its encoder disposed and its queue abandoned; afterwards nothing is capturing, and the settings, clock, video time and pause flag are kept |
| LineSwitching.LeftOf | Assets/_Project/TestGameFiles/LineSwitcher.cs:96 | from a valid line, GoLeft's index is the next line, wrapping from the last to the first |
| LineSwitching.RightOf | Assets/_Project/TestGameFiles/LineSwitcher.cs:81 | from a valid line, GoRight's index is the previous line, wrapping from the first to the last |
| LineSwitching.NextColorOf | Assets/_Project/TestGameFiles/LineSwitcher.cs:111 | from a valid colour, the next colour index, wrapping from the last to the first |
| LineSwitching.LeftRightInverse | Assets/_Project/TestGameFiles/LineSwitcher.cs:77-105 | GoLeft and GoRight undo each other |
| LineSwitching.ColorAfterWraps | Assets/_Project/TestGameFiles/LineSwitcher.cs:107-115 | within one lap, k presses of Space advance the colour by k, wrapping once past the end |
| LineSwitching.FullColorCycle | Assets/_Project/TestGameFiles/LineSwitcher.cs:107-115 | as many presses as there are colours come back to the starting colour |
| LineSwitching.ActionIsHighestPriorityPressed | Assets/_Project/TestGameFiles/LineSwitcher.cs:59-75 | ActionOf picks an action exactly when some key is pressed; the action picked has its key pressed and ranks above every other pressed key (Left, then Right, then Space) |
| LineSwitching.AwakeError | Assets/_Project/TestGameFiles/LineSwitcher.cs:21-50 | Awake fails exactly when the target, its renderer, the colours or the lines are missing; the first failing check's message is kept |
| LineSwitching.LineSwitcher.constructor | Assets/_Project/TestGameFiles/LineSwitcher.cs:12-19 | both indices start at 0 and the component is enabled |
| LineSwitching.LineSwitcher.Awake | Assets/_Project/TestGameFiles/LineSwitcher.cs:21-57 | a failed check logs its error and disables the component; otherwise the sprite takes the current colour and the switcher moves onto the current line |
| LineSwitching.LineSwitcher.GoRight | Assets/_Project/TestGameFiles/LineSwitcher.cs:77-90 | with lines, the index steps back with wrap-around, the switcher follows the line if it exists, and OnRight fires; without lines nothing happens |
| LineSwitching.LineSwitcher.GoLeft | Assets/_Project/TestGameFiles/LineSwitcher.cs:92-105 | with lines, the index steps forward with wrap-around, the switcher follows the line if it exists, and OnLeft fires; without lines nothing happens |
| LineSwitching.LineSwitcher.NextColor | Assets/_Project/TestGameFiles/LineSwitcher.cs:107-115 | with colours, the colour index steps forward with wrap-around, the sprite is recoloured and OnChangeColor fires |
| LineSwitching.LineSwitcher.Update | Assets/_Project/TestGameFiles/LineSwitcher.cs:59-75 | a disabled component, or a frame with no key, changes nothing; otherwise the one action ActionOf picks has the full effect of GoLeft, GoRight or NextColor on the index, the parent, the renderer colour and the events, and is a no-op on an empty list |
| Singletons.OnDestroyOf | Assets/_Project/Utility/PersistentSingletone.cs:69-73 | OnDestroy removes the id's entry exactly when it names this very instance, and leaves the registry alone otherwise |
| Singletons.AwakeKeepsRegistered | Assets/_Project/Utility/PersistentSingletone.cs:46-67 | Awake keeps the registry well formed; a blank or duplicate newcomer is destroyed and leaves the registry as it was; a new id registers the newcomer |
| Singletons.DestroyKeepsRegistered | Assets/_Project/Utility/PersistentSingletone.cs:69-73 | destroying any instance keeps the registry well formed; destroying a non-keeper leaves the registry unchanged |
| Singletons.FirstExists | Assets/_Project/Utility/PersistentSingletone.cs:46-67 | every instance with a non-blank id has a first instance with that id at or before it |
| Singletons.FirstOfIdPrefix | Assets/_Project/Utility/PersistentSingletone.cs:46-67 | whether an instance is the first with its id depends only on the instances before it |
| Singletons.AwakeAllKeepsFirst | Assets/_Project/Utility/PersistentSingletone.cs:46-67 | when instances wake in order on an empty registry, exactly the first instance of each non-blank id survives and is its id's keeper, the registry holds exactly those ids, and bystanders live on |
| Singletons.AwakeStep | Assets/_Project/Utility/PersistentSingletone.cs:46-67 | one more instance waking keeps that property |
| Singletons.AwakeStepDecides | Assets/_Project/Utility/PersistentSingletone.cs:55-66 | the newcomer claims its id exactly when it is the first with that id; a registered id belongs to an earlier instance |
| Singletons.AwakeStepAlive | Assets/_Project/Utility/PersistentSingletone.cs:46-67 | after the newcomer wakes, the survivors are still exactly the first instances and the bystanders |
| Singletons.AwakeStepRegistry | Assets/_Project/Utility/PersistentSingletone.cs:55-66 | after the newcomer wakes, the registry still holds exactly the first instances' ids, each kept by its first instance |
| Singletons.CleanupKeepsFirst | Assets/_Project/Utility/PersistentSingletone.cs:24-44 | PreloadCleanup makes exactly the first instance per non-blank id persistent, destroys exactly the later ones, skips blank ids, and sees every non-blank id |
| Singletons.PrefixFacts | Assets/_Project/Utility/PersistentSingletone.cs:30-43 | the instances before the last are those of the prefix, none is the last, and each is first in both or in neither |
| Singletons.CleanupStepLast | Assets/_Project/Utility/PersistentSingletone.cs:30-43 | the instance examined next is not persistent yet and is still alive |
| Singletons.CleanupStepDecides | Assets/_Project/Utility/PersistentSingletone.cs:35 | the instance examined next is kept exactly when its id is not blank and not seen yet |
| Singletons.CleanupStepPersistent | Assets/_Project/Utility/PersistentSingletone.cs:35-38 | one more step keeps "only first instances are made persistent" |
| Singletons.CleanupStepAlive | Assets/_Project/Utility/PersistentSingletone.cs:39-42 | one more step keeps "only later duplicates are destroyed" |
| Singletons.CleanupStepSeen | Assets/_Project/Utility/PersistentSingletone.cs:35 | one more step keeps "the ids seen are those of the instances kept" |
| Singletons.CleanupCanOrphanAnId | Assets/_Project/Utility/PersistentSingletone.cs:27-44 | an inactive instance found before the keeper of its id survives while the keeper is destroyed and the id's entry removed |
| Singletons.PersistentSingletons.constructor | Assets/_Project/Utility/PersistentSingletone.cs:19-20 | the static registry starts empty over the scene's instances |
| Singletons.PersistentSingletons.OnDestroy | Assets/_Project/Utility/PersistentSingletone.cs:69-73 | the registry becomes OnDestroyOf of the old one; nothing else changes |
| Singletons.PersistentSingletons.DestroyImmediate | Assets/_Project/Utility/PersistentSingletone.cs:51 | the instance dies and its OnDestroy runs at once |
| Singletons.PersistentSingletons.Awake | Assets/_Project/Utility/PersistentSingletone.cs:46-67 | the state becomes AwakeOf of the old one; a blank id logs "… has a blank persistenceID — destroying immediately." |
| Singletons.PersistentSingletons.PreloadCleanup | Assets/_Project/Utility/PersistentSingletone.cs:24-44 | the loop leaves the world and the persistent set that CleanupAll describes, and logs nothing |
| Singletons.PersistentSingletons.GetObject | Assets/_Project/Utility/PersistentSingletone.cs:75-76 | the keeper registered under the id, or null when there is none; a keeper is alive and carries that id |
| Singletons.PersistentSingletons.GetComponent | Assets/_Project/Utility/PersistentSingletone.cs:78-79 | null exactly when GetObject finds no keeper or the keeper lacks the component; a component found is the one of the object GetObject returns, a live keeper carrying the id |
| ReviewLoading.ItemOf | Assets/_Project/ReviewLoaderUI.cs:81-86 | a directory's item takes its track and video from what the searches found in that directory |
| ReviewLoading.ItemNameIsDirectoryName | Assets/_Project/ReviewLoaderUI.cs:83 | the item's name is the last component of the directory path: a suffix with no separator in it |
| ReviewLoading.Listed | Assets/_Project/ReviewLoaderUI.cs:71-87 | the listed directories are no more than the directories, and each holds at least one .json and one .mp4 |
| ReviewLoading.ItemsOf | Assets/_Project/ReviewLoaderUI.cs:71-87 | one item per listed directory, in directory order |
| ReviewLoading.ListedAppend | Assets/_Project/ReviewLoaderUI.cs:71-87 | the listing of two runs of directories is the first run's listing followed by the second's |
| ReviewLoading.ListedMembers | Assets/_Project/ReviewLoaderUI.cs:78-79 | a directory is listed exactly when it is one of the directories and has both a track and a video |
| ReviewLoading.ItemsOfMembers | Assets/_Project/ReviewLoaderUI.cs:71-87 | an item is listed exactly when some qualifying directory produces it |
| ReviewLoading.AllListedIffAllQualify | Assets/_Project/ReviewLoaderUI.cs:71-87 | every directory yields an item exactly when all of them have a track and a video |
| ReviewLoading.ItemsOfStep | Assets/_Project/ReviewLoaderUI.cs:71-87 | examining one more directory appends its item exactly when it qualifies |
| ReviewLoading.LoadsOfAppend | Assets/_Project/ReviewLoaderUI.cs:95-100 | the LoadReview calls of a pass over a + b are those for a followed by those for b, so each pass loads the selection in order |
| ReviewLoading.MessagesOfAppend | Assets/_Project/ReviewLoaderUI.cs:95-100 | the log lines of a pass over a + b are those for a followed by those for b |
| ReviewLoading.LoadAndMessageAgree | Assets/_Project/ReviewLoaderUI.cs:97-99 | call k loads the track and video of selected item k, and log line k names that item between the fixed prefix and the closing quote |
| ReviewLoading.LoadsComeFromListedDirectories | Assets/_Project/ReviewLoaderUI.cs:95-100 | a selection from the list PopulateList built loads only a track file and a video that the searches found in one qualifying directory |
| ReviewLoading.SingleSelectionLoadsTwice | Assets/_Project/ReviewLoaderUI.cs:53 | a single selection, the list's only mode, loads the same review twice in a row |
| ReviewLoading.ReviewLoaderUI.constructor | Assets/_Project/ReviewLoaderUI.cs:21 | the list starts empty, nothing loaded or logged |
| ReviewLoading.ReviewLoaderUI.PopulateList | Assets/_Project/ReviewLoaderUI.cs:64-91 | the list is cleared; with a null or empty root it stays empty and the view is not rebuilt; otherwise it holds ItemsOf the directories and the view is rebuilt once |
| ReviewLoading.ReviewLoaderUI.OnSelection | Assets/_Project/ReviewLoaderUI.cs:93-108 | two identical passes over the selection, each loading and logging every selected review |
| ReviewImporting.ReviewFolderOf | Assets/_Project/ReviewImporter.cs:32-33 | the review folder lies inside ReviewOutputPath from Assets/_Project/Utility/PathManager.cs:12; it is that path itself when the video's name is empty, and otherwise the name under it after a '\\' |
| ReviewImporting.ReviewAssetPathOf | Assets/_Project/ReviewImporter.cs:47-48 | the Review asset is the folder's own name plus ".asset", inside the review folder |
| ReviewImporting.ProjectRoot | Assets/_Project/ReviewImporter.cs:66 | the project root is dataPath with its last six characters cut off, a prefix of dataPath; it gives dataPath back with "Assets" appended when dataPath ends in "Assets" |
| ReviewImporting.CopyKeepsFileName | Assets/_Project/ReviewImporter.cs:64-73 | the file written by File.Copy has the source file's own name |
| ReviewImporting.AssetPathOf | Assets/_Project/ReviewImporter.cs:75-78 | the returned asset path holds no '\\' |
| ReviewImporting.AssetPathKeepsFileName | Assets/_Project/ReviewImporter.cs:75-78 | the returned asset path still ends in the source's file name |
| ReviewImporting.AssetPathKeepsOtherCharacters | Assets/_Project/ReviewImporter.cs:78 | Replace turns each '\\' into '/' and leaves every other character of the joined path where it was |
| ReviewImporting.FolderPrefixGrows | Assets/_Project/ReviewImporter.cs:86-93 | each folder prefix the loop builds is longer than every earlier one, so no prefix is visited twice |
| ReviewImporting.FolderPrefixIsJoin | Assets/_Project/ReviewImporter.cs:86-92 | the prefix after i pieces is the '/'-join of the first i + 1 pieces |
| ReviewImporting.LastFolderPrefixIsPath | Assets/_Project/ReviewImporter.cs:85-93 | the last prefix the loop builds is the whole path it split |
| ReviewImporting.VisitedPrefixes | Assets/_Project/ReviewImporter.cs:87-93 | every prefix the loop has built before it reaches piece i is among the visited ones |
| ReviewImporting.MissingCalls | Assets/_Project/ReviewImporter.cs:87-93 | the loop makes fewer CreateFolder calls than the pieces it has visited |
| ReviewImporting.EnsureStep | Assets/_Project/ReviewImporter.cs:87-93 | one more loop turn visits exactly one new prefix and calls CreateFolder for it exactly when it is not a valid folder |
| ReviewImporting.MissingCallsAreMissing | Assets/_Project/ReviewImporter.cs:90-91 | every CreateFolder call is for a visited prefix that was not a valid folder |
| ReviewImporting.MissingGetCalls | Assets/_Project/ReviewImporter.cs:90-91 | every visited prefix that was not a valid folder gets its CreateFolder(parent prefix, piece) call |
| ReviewImporting.NoSlashNoPrefixes | Assets/_Project/ReviewImporter.cs:85-87 | a path without '/' splits into one piece, so the loop body never runs |
| ReviewImporting.SplitAtSeparator | Assets/_Project/ReviewImporter.cs:85 | splitting at a first separator yields the piece before it followed by the pieces of the rest |
| ReviewImporting.SplitFourPieces | Assets/_Project/ReviewImporter.cs:85 | four separator-free pieces joined by '/' split back into exactly those four pieces |
| ReviewImporting.ReviewFolderPieces | Assets/_Project/ReviewImporter.cs:33-35 | the review folder splits into "Assets", "_Project", an empty piece and the rest, because ReviewOutputPath holds "//"; the loop visits "Assets/_Project" and then "Assets/_Project/" |
| ReviewImporting.EnsuredOf | Assets/_Project/ReviewImporter.cs:81-94 | EnsureFolderExists only adds valid folders and changes nothing but the folders and the CreateFolder calls |
| ReviewImporting.EnsuredFolderExists | Assets/_Project/ReviewImporter.cs:81-94 | a path with a '/' is a valid folder afterwards, and ensuring it a second time changes nothing |
| ReviewImporting.EnsuredNeedsSlash | Assets/_Project/ReviewImporter.cs:83-87 | a path without '/' that is not a valid folder stays missing and no folder is created |
| ReviewImporting.CopyOf | Assets/_Project/ReviewImporter.cs:62-79 | CopyIntoFolder touches only the directories, the files and the imported assets, and loses no file |
| ReviewImporting.CopyOverwrites | Assets/_Project/ReviewImporter.cs:69-73 | the copy holds the source's contents whether or not the destination existed; the destination is the one new file; every other file is unchanged; the destination root is a directory afterwards |
| ReviewImporting.CancelledImportChangesNothing | Assets/_Project/ReviewImporter.cs:16-30 | cancelling either file dialog leaves the whole state unchanged |
| ReviewImporting.ImportCreatesReview | Assets/_Project/ReviewImporter.cs:32-50 | a completed import leaves the review folder valid and a Review asset at ReviewAssetPathOf whose two paths are the copies' asset paths, use '/' only and end in the copied files' own names |
| ReviewImporting.Editor.constructor | Assets/_Project/ReviewImporter.cs:10 | the editor starts from the given folders, directories and files, with nothing created, imported, logged or shown |
| ReviewImporting.Editor.CreateFolder | Assets/_Project/ReviewImporter.cs:91 | AssetDatabase.CreateFolder adds parent/name to the valid folders and records the call |
| ReviewImporting.Editor.DebugLog | Assets/_Project/ReviewImporter.cs:40-41 | Debug.Log appends one line to the log and changes nothing else |
| ReviewImporting.Editor.CreateAsset | Assets/_Project/ReviewImporter.cs:50 | AssetDatabase.CreateAsset stores the Review under its path and changes nothing else |
| ReviewImporting.Editor.DisplayDialog | Assets/_Project/ReviewImporter.cs:54-58 | the dialog message is recorded and nothing else changes |
| ReviewImporting.Editor.EnsureFolderExists | Assets/_Project/ReviewImporter.cs:81-94 | the loop leaves the editor in EnsuredOf of its old state |
| ReviewImporting.Editor.CopyIntoFolder | Assets/_Project/ReviewImporter.cs:62-79 | the editor ends in CopyOf of its old state, and the method returns AssetPathOf |
| ReviewImporting.Editor.ImportReview | Assets/_Project/ReviewImporter.cs:14-59 | the editor ends in ImportOf of its old state |
| ScriptsTimeIndicators.IndicatorCount | Assets/_Project/EditorScripts/EditorUtils/TimeIndicatorController.cs:62 | the label count is the floor of width / 33: n labels of 33 pixels fit and n + 1 do not; a width under 33 gives none |
| ScriptsTimeIndicators.Labels | Assets/_Project/EditorScripts/EditorUtils/TimeIndicatorController.cs:99-109 | one label per indicator |
| ScriptsTimeIndicators.GetNumericalLabels | Assets/_Project/EditorScripts/EditorUtils/TimeIndicatorController.cs:99-109 | the loop returns exactly Labels, label i being the rounded Lerp(0, length, i / (n - 1)) in tenths followed by "s" |
| ScriptsTimeIndicators.LabelEnds | Assets/_Project/EditorScripts/EditorUtils/TimeIndicatorController.cs:104-105 | with two labels or more the first reads "0s" and the last is the length rounded half-to-even to a tenth |
| ScriptsTimeIndicators.SingleLabelIsNaN | Assets/_Project/EditorScripts/EditorUtils/TimeIndicatorController.cs:104-105 | a single label divides 0 by 0 and reads "NaNs" |
| ScriptsTimeIndicators.RoundHalfEvenMonotone | Assets/_Project/EditorScripts/EditorUtils/TimeIndicatorController.cs:105 | Mathf.Round never decreases as its argument grows |
| ScriptsTimeIndicators.LabelsNondecreasing | Assets/_Project/EditorScripts/EditorUtils/TimeIndicatorController.cs:102-106 | for a non-negative length the label values never decrease from left to right |
| ScriptsTimeIndicators.MappingsBounded | Assets/_Project/EditorScripts/EditorUtils/TimeIndicatorController.cs:135-160 | GetXPositionFromTime stays between the first and last label's x, and GetTimeFromScreenX within [0, length], because Lerp clamps |
| ScriptsTimeIndicators.TimeThenXInverse | Assets/_Project/EditorScripts/EditorUtils/TimeIndicatorController.cs:135-160 | a time in [0, length] mapped to x and back is the same time |
| ScriptsTimeIndicators.XThenTimeInverse | Assets/_Project/EditorScripts/EditorUtils/TimeIndicatorController.cs:135-160 | an x between the end labels mapped to a time and back is the same x |
| ScriptsTimeIndicators.MappingsInverse | Assets/_Project/EditorScripts/EditorUtils/TimeIndicatorController.cs:135-160 | on [0, length] and [first x, last x] the two mappings are inverse to each other |
| ScriptsTimeIndicators.ClickFrameRange | Assets/_Project/EditorScripts/EditorUtils/TimeIndicatorController.cs:117-118 | a click on the scale asks for a frame in [0, frames], and for frames itself, one past the last frame, exactly when the time is the full length |
| ScriptsTimeIndicators.Reloaded | Assets/_Project/EditorScripts/EditorUtils/TimeIndicatorController.cs:55-97 | a reload leaves one label per indicator |
| ScriptsTimeIndicators.Spaced | Assets/_Project/EditorScripts/EditorUtils/TimeIndicatorController.cs:127-131 | after a zoom every label keeps its text and has both margins equal to the current spacing |
| ScriptsTimeIndicators.TimeIndicatorController.constructor | Assets/_Project/EditorScripts/EditorUtils/TimeIndicatorController.cs:29-52 | no labels yet, an empty view, a spacing of 10 and no frame requests |
| ScriptsTimeIndicators.TimeIndicatorController.ReloadIndicators | Assets/_Project/EditorScripts/EditorUtils/TimeIndicatorController.cs:55-86 | the view is cleared and then holds exactly the new labels; the length is stored; the labels are Reloaded of floor(width / 33) |
| ScriptsTimeIndicators.TimeIndicatorController.ZoomTimeIndicators | Assets/_Project/EditorScripts/EditorUtils/TimeIndicatorController.cs:123-132 | the spacing grows by the amount, and existing labels are Spaced to it |
| ScriptsTimeIndicators.TimeIndicatorController.GetXPositionFromTime | Assets/_Project/EditorScripts/EditorUtils/TimeIndicatorController.cs:135-148 | 0 before any reload, otherwise XFromTime between the first and last label's x |
| ScriptsTimeIndicators.TimeIndicatorController.OnMouseDown | Assets/_Project/EditorScripts/EditorUtils/TimeIndicatorController.cs:112-121 | a left click requests the frame under the mouse; any other button does nothing; nothing else changes |
| ScriptsTimeIndicators.CreateIndicators | Assets/_Project/EditorScripts/EditorUtils/TimeIndicatorController.cs:64-83 | the creation loop returns Laid: text i, the first label flush left, the others 13 pixels apart |
| ScriptsTimeIndicators.Laid | Assets/_Project/EditorScripts/EditorUtils/TimeIndicatorController.cs:64-83 | one created label per indicator |
| ScriptsTimeIndicators.ApplyLabels | Assets/_Project/EditorScripts/EditorUtils/TimeIndicatorController.cs:93-96 | each label keeps everything but its text, which becomes the computed label |
| ScriptsTimeIndicators.SingleLabelNotSetUp | Assets/_Project/EditorScripts/EditorUtils/TimeIndicatorController.cs:163-177 | with one label the first and last are the same element, so IsSetupComplete is false |
| EditorTimeIndicators.LabelCount | Assets/_Project/Editor/TimeIndicatorController.cs:42 | the label count is the floor of width / 30: n labels of 30 pixels fit and n + 1 do not |
| EditorTimeIndicators.SecondsLabels | Assets/_Project/Editor/TimeIndicatorController.cs:68-77 | one label per indicator |
| EditorTimeIndicators.GetNumericalLabels | Assets/_Project/Editor/TimeIndicatorController.cs:68-77 | the loop returns exactly SecondsLabels, label i being Lerp(0, length, i / (n - 1)) formatted as whole seconds |
| EditorTimeIndicators.SecondsLabelEnds | Assets/_Project/Editor/TimeIndicatorController.cs:73-74 | with two labels or more the first reads "0" and the last is the length rounded half away from zero |
| EditorTimeIndicators.RoundHalfAwayFromZeroMonotone | Assets/_Project/Editor/TimeIndicatorController.cs:74 | the "0" format's rounding never decreases as its argument grows |
| EditorTimeIndicators.SecondsNondecreasing | Assets/_Project/Editor/TimeIndicatorController.cs:71-75 | for a non-negative length the whole-second values never decrease from left to right |
| EditorTimeIndicators.ReloadedLabels | Assets/_Project/Editor/TimeIndicatorController.cs:37-66 | a reload creates one label per indicator |
| EditorTimeIndicators.TimeIndicatorController.constructor | Assets/_Project/Editor/TimeIndicatorController.cs:19-35 | no labels, an empty view and a spacing of 10 |
| EditorTimeIndicators.TimeIndicatorController.ReloadIndicators | Assets/_Project/Editor/TimeIndicatorController.cs:37-54 | the length is stored and the list replaced by ReloadedLabels, but the view keeps what it showed and gets the new labels after it |
| EditorTimeIndicators.TimeIndicatorController.OnMouseScroll | Assets/_Project/Editor/TimeIndicatorController.cs:79-85 | the wheel zooms by its y delta only with Ctrl held, and changes nothing otherwise |
| EditorTimeIndicators.TimeIndicatorController.ZoomTimeIndicators | Assets/_Project/Editor/TimeIndicatorController.cs:87-95 | the spacing grows by the amount and the current labels take it as both margins; labels of earlier reloads keep theirs |
| ScriptsZoom.ZoomStep | Assets/_Project/EditorScripts/EditorUtils/ZoomUpdater.cs:41-54 | the new amount is the old one plus delta times modifier, set to max when above it and to min when below; OnZoomed fires, with the raw delta, exactly when no clamping was needed; with min <= max the amount lies in [min, max] |
| ScriptsZoom.RunZoom | Assets/_Project/EditorScripts/EditorUtils/ZoomUpdater.cs:34-55 | a run of Ctrl wheel events notifies at most once per event |
| ScriptsZoom.RunZoomBounded | Assets/_Project/EditorScripts/EditorUtils/ZoomUpdater.cs:43-50 | with min <= max the zoom stays in [min, max] after any non-empty run of events, or when it started there |
| ScriptsZoom.RunZoomUnclampedReports | Assets/_Project/EditorScripts/EditorUtils/ZoomUpdater.cs:51-54 | when every event notified, the notifications are exactly the raw deltas, in order |
| ScriptsZoom.RunZoomUnclampedAmount | Assets/_Project/EditorScripts/EditorUtils/ZoomUpdater.cs:41 | when every event notified, the zoom is the start plus the modifier times the sum of the deltas |
| ScriptsZoom.RunZoomMeaning | Assets/_Project/EditorScripts/EditorUtils/ZoomUpdater.cs:34-55 | the bound, and the unclamped reports and amount, for one run of events |
| ScriptsZoom.ZoomUpdater.constructor | Assets/_Project/EditorScripts/EditorUtils/ZoomUpdater.cs:18-27 | the zoom starts at the initial amount 0, with limits [-10, 70], modifier 1 and no notifications |
| ScriptsZoom.ZoomUpdater.OnMouseZoom | Assets/_Project/EditorScripts/EditorUtils/ZoomUpdater.cs:34-55 | without Ctrl nothing changes; with Ctrl the amount and the notifications follow one ZoomStep; the limits and modifier stay |
| ScriptsZoom.ZoomUpdater.SetZoomLimits | Assets/_Project/EditorScripts/EditorUtils/ZoomUpdater.cs:57-61 | the limits are replaced and the current zoom is not re-clamped |
| ScriptsZoom.ZoomUpdater.SetZoomModifier | Assets/_Project/EditorScripts/EditorUtils/ZoomUpdater.cs:63-66 | the modifier is replaced and nothing else changes |
| EditorZoom.ZoomUpdater.constructor | Assets/_Project/Editor/EditorUtils/ZoomUpdater.cs:12-22 | the zoom starts at the initial amount 0, with limits [-10, 70], modifier 1 and no notifications |
| EditorZoom.ZoomUpdater.SetZoomLimits | Assets/_Project/Editor/EditorUtils/ZoomUpdater.cs:29-33 | the limits are replaced and nothing else changes |
| EditorZoom.ZoomUpdater.SetZoomModifier | Assets/_Project/Editor/EditorUtils/ZoomUpdater.cs:35-38 | the modifier is replaced and nothing else changes |
| EditorZoom.ZoomUpdater.OnMouseZoom | Assets/_Project/Editor/EditorUtils/ZoomUpdater.cs:40-58 | the same ZoomStep as the EditorScripts revision, ignored without Ctrl |
| ScriptsMetricTrack.InstanceTime | Assets/_Project/EditorScripts/Track/UIMetricTrack.cs:67-68 | an instance has a time exactly when its "time" entry exists and parses, and the time is what the parser returned |
| ScriptsMetricTrack.LeftPercentWithinRow | Assets/_Project/EditorScripts/Track/UIMetricTrack.cs:112 | a time within the video is placed between 0 % and 100 % of the row, at 0 % for time 0 and at 100 % for the full length |
| ScriptsMetricTrack.MarkersFor | Assets/_Project/EditorScripts/Track/UIMetricTrack.cs:65-83 | no more markers than instances |
| ScriptsMetricTrack.MarkersForAppend | Assets/_Project/EditorScripts/Track/UIMetricTrack.cs:67-68 | a skipped instance does not stop the loop: the markers of a concatenation are the concatenation of the markers |
| ScriptsMetricTrack.MarkersForOne | Assets/_Project/EditorScripts/Track/UIMetricTrack.cs:67-82 | one instance gives no marker when its time is missing or does not parse, and otherwise one marker at its time with a tooltip listing its entries |
| ScriptsMetricTrack.MarkersForCount | Assets/_Project/EditorScripts/Track/UIMetricTrack.cs:65-83 | the number of markers is the number of instances whose time parses |
| ScriptsMetricTrack.CreateTimeMarkers | Assets/_Project/EditorScripts/Track/UIMetricTrack.cs:58-84 | the loop produces exactly MarkersFor the instances, an empty list giving none |
| ScriptsMetricTrack.UIMetricTrack.constructor | Assets/_Project/EditorScripts/Track/UIMetricTrack.cs:25-54 | a Metric track is stored and hooked to resizes; any other type is logged as "… is not a metric track" and neither stored nor hooked; the bar starts red and the label reads the base Title "Description" |
| ScriptsMetricTrack.UIMetricTrack.DelayedConfigureTrack | Assets/_Project/EditorScripts/Track/UIMetricTrack.cs:41-50 | once initialised, or with a zero video length, nothing changes; otherwise the row is labelled with the track's name, the bar takes the track's colour and the red markers are added |
| EditorMetricTrackView.MarkersForColor | Assets/_Project/Editor/Track/UIMetricTrack.cs:87-101 | every marker is painted in the colour it was created with |
| EditorMetricTrackView.MarkersForRecolor | Assets/_Project/Editor/Track/UIMetricTrack.cs:59-84 | the two revisions draw as many markers, at the same places and with the same tooltips; only the colour differs |
| EditorMetricTrackView.UIMetricTrack.constructor | Assets/_Project/Editor/Track/UIMetricTrack.cs:26-55 | a Metric track is stored and hooked to resizes; any other type is logged and neither stored nor hooked; the label reads the base Title "Description" |
| EditorMetricTrackView.UIMetricTrack.DelayedConfigureTrack | Assets/_Project/Editor/Track/UIMetricTrack.cs:42-51 | as in the EditorScripts revision, but the markers take the track's own colour |
| EditorMetricBoxes.TimedPrefix | Assets/_Project/Editor/Track/MetricTrack.cs:40-50 | the loop reaches exactly the leading instances that have a "time" entry: all before the stopping point have one, the instance at it has none |
| EditorMetricBoxes.BoxRow | Assets/_Project/Editor/Track/MetricTrack.cs:40-69 | one box per timed instance |
| EditorMetricBoxes.BoxRowAt | Assets/_Project/Editor/Track/MetricTrack.cs:52-64 | box k sits at instance k's time as a percentage of the video length |
| EditorMetricBoxes.BoxesForMeaning | Assets/_Project/Editor/Track/MetricTrack.cs:34-70 | there is one box per leading timed instance, box k belongs to instance k, and a time that does not parse puts its box at 0 % |
| EditorMetricBoxes.UntimedInstanceStopsBoxes | Assets/_Project/Editor/Track/MetricTrack.cs:47-50 | an instance without a time hides every later instance here, while UIMetricTrack skips only that instance |
| EditorMetricBoxes.TimedPrefixIs | Assets/_Project/Editor/Track/MetricTrack.cs:40-50 | the stopping point is the index of the first instance without a time |
| EditorMetricBoxes.InitializeBoxes | Assets/_Project/Editor/Track/MetricTrack.cs:34-70 | the loop returns exactly BoxesFor the instances, an empty list giving none |
| EditorMetricBoxes.MetricTrack.constructor | Assets/_Project/Editor/Track/MetricTrack.cs:12-24 | a Metric track is stored and hooked to resizes; any other type is logged with its type name and neither stored nor hooked |
| EditorMetricBoxes.MetricTrack.StartInitialization | Assets/_Project/Editor/Track/MetricTrack.cs:26-32 | once initialised, or with a zero video length, nothing changes; otherwise the track is initialised and its boxes are drawn |
| ScriptsVideoPlayer.NextFrameOf | Assets/_Project/EditorScripts/VideoPlayer/UIVideoPlayer.cs:102-112 | only the frame can change; a paused player moves forward by n exactly when frame + n lies in [0, frameCount], and a player that moved was paused and stays in that range |
| ScriptsVideoPlayer.PreviousFrameOf | Assets/_Project/EditorScripts/VideoPlayer/UIVideoPlayer.cs:114-124 | only the frame can change; a paused player moves back by n exactly when frame − n is not negative, and a player that moved was paused |
| ScriptsVideoPlayer.NavigationKeepsFrameInRange | Assets/_Project/EditorScripts/VideoPlayer/UIVideoPlayer.cs:102-134 | from a frame in [0, frameCount], no run of navigation steps leaves that range, and the url, clock and playing flag never change |
| ScriptsVideoPlayer.SteppingWhilePlayingIsInert | Assets/_Project/EditorScripts/VideoPlayer/UIVideoPlayer.cs:104-116 | while the video plays, any run of frame steps leaves the player unchanged |
| ScriptsVideoPlayer.NextPreviousInverse | Assets/_Project/EditorScripts/VideoPlayer/UIVideoPlayer.cs:102-124 | a step forward that moved is undone by the same step back, and a step back that moved by the same step forward |
| ScriptsVideoPlayer.NextFromEndPassesLastFrame | Assets/_Project/EditorScripts/VideoPlayer/UIVideoPlayer.cs:106-134 | GoToEnd then NextFrame(1) on a paused clip reaches frame frameCount, one past the last frame SetFrame accepts |
| ScriptsVideoPlayer.PauseOf | Assets/_Project/EditorScripts/VideoPlayer/UIVideoPlayer.cs:86-93 | a missing or paused player is left alone; a playing one is paused and its time becomes the saved time |
| ScriptsVideoPlayer.PlayOf | Assets/_Project/EditorScripts/VideoPlayer/UIVideoPlayer.cs:75-84 | an empty url or a playing player changes nothing; otherwise the player plays from the saved time; the saved time stays |
| ScriptsVideoPlayer.StopOf | Assets/_Project/EditorScripts/VideoPlayer/UIVideoPlayer.cs:95-101 | a present player stops and rewinds to 0; the saved time stays |
| ScriptsVideoPlayer.SetFrameOf | Assets/_Project/EditorScripts/VideoPlayer/UIVideoPlayer.cs:225-234 | a frame outside [0, frameCount) changes nothing; otherwise the player moves to it and the saved time becomes a fraction in [0, 1) |
| ScriptsVideoPlayer.FractionBelowOne | Assets/_Project/EditorScripts/VideoPlayer/UIVideoPlayer.cs:232 | f / frameCount for f below frameCount lies in [0, 1), so Clamp01 leaves it alone |
| ScriptsVideoPlayer.PauseThenPlayResumes | Assets/_Project/EditorScripts/VideoPlayer/UIVideoPlayer.cs:75-93 | pausing a playing clip with a url and playing again resumes at the same place |
| ScriptsVideoPlayer.PlayAfterSetFrameSeeksToFraction | Assets/_Project/EditorScripts/VideoPlayer/UIVideoPlayer.cs:225-234 | after SetFrame(f) on a paused clip, Play seeks to f / frameCount seconds, below one second whatever the clip's length |
| ScriptsVideoPlayer.ControlsKeepLengthSeconds | Assets/_Project/EditorScripts/VideoPlayer/UIVideoPlayer.cs:181-190 | the length GetVideoLengthSeconds reports (LengthSecondsOf: 0 once destroyed) is the clip's: Play, Pause, Stop, SetFrame and navigation leave it unchanged |
| ScriptsVideoPlayer.ReportedTimeAfterControls | Assets/_Project/EditorScripts/VideoPlayer/UIVideoPlayer.cs:192-201 | the time GetCurrentTime reports is 0 after Stop and unchanged by Pause; Pause of a playing player saves it; Play from paused with a url reports the saved time, so Pause then Play reports the same time |
| ScriptsVideoPlayer.ControlsKeepFrameCount | Assets/_Project/EditorScripts/VideoPlayer/UIVideoPlayer.cs:203-212 | the frame count GetVideoLengthFrames reports is the clip's: Play, Pause, Stop, SetFrame and navigation leave it unchanged |
| ScriptsVideoPlayer.ReportedFrameAfterSetFrame | Assets/_Project/EditorScripts/VideoPlayer/UIVideoPlayer.cs:214-223 | the frame GetCurrentFrame reports after SetFrame(f) is f when 0 <= f < the frame count, and otherwise unchanged; a frame within [0, frame count] stays within it |
| ScriptsVideoPlayer.UIVideoPlayer.constructor | Assets/_Project/EditorScripts/VideoPlayer/UIVideoPlayer.cs:24-67 | a fresh paused player with an empty url, a saved time of 0, the tick hooked, and the default image when it was found |
| ScriptsVideoPlayer.UIVideoPlayer.SetVideo | Assets/_Project/EditorScripts/VideoPlayer/UIVideoPlayer.cs:69-73 | the url is set, so GetVideoPath reports the new path; the picture becomes the "video loaded" image when AssetDatabase.LoadAssetAtPath finds it and none when it misses; nothing else changes |
| ScriptsVideoPlayer.UIVideoPlayer.Play | Assets/_Project/EditorScripts/VideoPlayer/UIVideoPlayer.cs:75-84 | the element ends in PlayOf of its old state |
| ScriptsVideoPlayer.UIVideoPlayer.Pause | Assets/_Project/EditorScripts/VideoPlayer/UIVideoPlayer.cs:86-93 | the element ends in PauseOf of its old state |
| ScriptsVideoPlayer.UIVideoPlayer.Stop | Assets/_Project/EditorScripts/VideoPlayer/UIVideoPlayer.cs:95-101 | the element ends in StopOf of its old state |
| ScriptsVideoPlayer.UIVideoPlayer.NextFrame | Assets/_Project/EditorScripts/VideoPlayer/UIVideoPlayer.cs:102-112 | the player ends in NextFrameOf of its old state; the repaint changes nothing while paused |
| ScriptsVideoPlayer.UIVideoPlayer.PreviousFrame | Assets/_Project/EditorScripts/VideoPlayer/UIVideoPlayer.cs:114-124 | the player ends in PreviousFrameOf of its old state |
| ScriptsVideoPlayer.UIVideoPlayer.GoToStart | Assets/_Project/EditorScripts/VideoPlayer/UIVideoPlayer.cs:126-129 | the frame becomes 0 |
| ScriptsVideoPlayer.UIVideoPlayer.GoToEnd | Assets/_Project/EditorScripts/VideoPlayer/UIVideoPlayer.cs:131-134 | the frame becomes frameCount − 1 |
| ScriptsVideoPlayer.UIVideoPlayer.SetFrame | Assets/_Project/EditorScripts/VideoPlayer/UIVideoPlayer.cs:225-234 | the element ends in SetFrameOf of its old state |
| ScriptsVideoPlayer.UIVideoPlayer.UpdateVideoFrame | Assets/_Project/EditorScripts/VideoPlayer/UIVideoPlayer.cs:152-165 | a playing, prepared player's texture replaces the picture; otherwise nothing changes |
| ScriptsVideoPlayer.UIVideoPlayer.OnDetachFromPanel | Assets/_Project/EditorScripts/VideoPlayer/UIVideoPlayer.cs:167-179 | the tick is unhooked and the player destroyed |
| ScriptsVideoPlayer.ReportedPlayingAfterControls | Assets/_Project/EditorScripts/VideoPlayer/UIVideoPlayer.cs:136-139 | the flag IsPlaying reports after Play is true exactly when the url is non-empty or it already played; Pause and Stop clear it; SetFrame and navigation keep it |
| ScriptsVideoPlayer.ControlsKeepUrl | Assets/_Project/EditorScripts/VideoPlayer/UIVideoPlayer.cs:236-239 | the url GetVideoPath reports is the one SetVideo set: Play, Pause, Stop, SetFrame and navigation keep it |
| EditorVideoPlayer.PlayOf | Assets/_Project/Editor/VideoPlayer/UIVideoPlayer.cs:69-76 | a missing or playing player changes nothing; a paused one plays from the saved time whatever its url |
| EditorVideoPlayer.SetFrameOf | Assets/_Project/Editor/VideoPlayer/UIVideoPlayer.cs:218-226 | a frame outside [0, frameCount) changes nothing; otherwise only the frame moves and the saved time stays |
| EditorVideoPlayer.PauseThenPlayResumes | Assets/_Project/Editor/VideoPlayer/UIVideoPlayer.cs:69-85 | pausing a playing clip and playing again resumes at the same place, even with an empty url |
| EditorVideoPlayer.SetFrameDoesNotMoveResumePoint | Assets/_Project/Editor/VideoPlayer/UIVideoPlayer.cs:218-226 | after Pause, SetFrame(f) and Play, playback resumes at the time Pause saved, with the frame SetFrame chose when it lay in range |
| EditorVideoPlayer.UIVideoPlayer.constructor | Assets/_Project/Editor/VideoPlayer/UIVideoPlayer.cs:20-67 | a fresh paused player on the default clip, a saved time of 0, the tick hooked, and the default image when it was found |
| EditorVideoPlayer.UIVideoPlayer.Play | Assets/_Project/Editor/VideoPlayer/UIVideoPlayer.cs:69-76 | the element ends in this revision's PlayOf of its old state |
| EditorVideoPlayer.UIVideoPlayer.Pause | Assets/_Project/Editor/VideoPlayer/UIVideoPlayer.cs:78-85 | the element ends in PauseOf of its old state |
| EditorVideoPlayer.UIVideoPlayer.Stop | Assets/_Project/Editor/VideoPlayer/UIVideoPlayer.cs:87-93 | the element ends in StopOf of its old state |
| EditorVideoPlayer.UIVideoPlayer.NextFrame | Assets/_Project/Editor/VideoPlayer/UIVideoPlayer.cs:94-104 | the player ends in NextFrameOf of its old state |
| EditorVideoPlayer.UIVideoPlayer.PreviousFrame | Assets/_Project/Editor/VideoPlayer/UIVideoPlayer.cs:106-116 | the player ends in PreviousFrameOf of its old state |
| EditorVideoPlayer.UIVideoPlayer.GoToStart | Assets/_Project/Editor/VideoPlayer/UIVideoPlayer.cs:118-121 | the frame becomes 0 |
| EditorVideoPlayer.UIVideoPlayer.GoToEnd | Assets/_Project/Editor/VideoPlayer/UIVideoPlayer.cs:123-126 | the frame becomes frameCount − 1 |
| EditorVideoPlayer.UIVideoPlayer.SetFrame | Assets/_Project/Editor/VideoPlayer/UIVideoPlayer.cs:218-226 | the element ends in this revision's SetFrameOf of its old state |
| EditorVideoPlayer.UIVideoPlayer.UpdateVideoFrame | Assets/_Project/Editor/VideoPlayer/UIVideoPlayer.cs:145-158 | a playing, prepared player's texture replaces the picture; otherwise nothing changes |
| EditorVideoPlayer.UIVideoPlayer.OnDetachFromPanel | Assets/_Project/Editor/VideoPlayer/UIVideoPlayer.cs:160-172 | the tick is unhooked and the player destroyed |
| EditorVideoPlayer.ReportedPlayingAfterControls | Assets/_Project/Editor/VideoPlayer/UIVideoPlayer.cs:128-131 | the flag IsPlaying reports is true after this revision's Play even without a url, false after Pause and Stop, and kept by SetFrame |
| EditorVideoPlayer.ControlsKeepLengths | Assets/_Project/Editor/VideoPlayer/UIVideoPlayer.cs:174-183 | the length and frame count the getters report are the clip's: this revision's Play and SetFrame leave them unchanged |
| EditorVideoPlayer.ReportedTimeAfterControls | Assets/_Project/Editor/VideoPlayer/UIVideoPlayer.cs:185-194 | the time GetCurrentTime reports is the saved time after Play from paused, whatever the url; SetFrame changes neither it nor the saved time; Stop makes it 0 |
| EditorVideoPlayer.ReportedFrameAfterSetFrame | Assets/_Project/Editor/VideoPlayer/UIVideoPlayer.cs:207-216 | the frame GetCurrentFrame reports after SetFrame(f) is f when 0 <= f < the frame count, and otherwise unchanged |
| ScriptsVideoController.FrameButtonsStepByFieldOrOne | Assets/_Project/EditorScripts/EditorUtils/VideoController.cs:29 | with a paused player, the Next and Previous buttons move the frame by the field's value, or by 1 when the field is missing, when the move stays within the clip, and otherwise not at all |
| ScriptsVideoController.ButtonStep | Assets/_Project/EditorScripts/EditorUtils/VideoController.cs:48-52 | a button navigates the player exactly when it is one of the four known buttons other than Play |
| ScriptsVideoController.CheckLength | Assets/_Project/EditorScripts/EditorUtils/VideoController.cs:64-72 | the check fires exactly when the new length differs from the stored one by more than the tolerance, and then stores and reports the new length; afterwards the stored length is within the tolerance of the new one |
| ScriptsVideoController.RunLengthChecks | Assets/_Project/EditorScripts/EditorUtils/VideoController.cs:58-72 | a run of checks reports at most one event per check |
| ScriptsVideoController.LengthEventsAreSeparated | Assets/_Project/EditorScripts/EditorUtils/VideoController.cs:58-72 | every event carries a reported length; the first differs from the initial length and each later one from the previous by more than the tolerance; the stored length is the last event's and ends within the tolerance of the last report |
| ScriptsVideoController.LengthEventsFromReports | Assets/_Project/EditorScripts/EditorUtils/VideoController.cs:66-70 | every event of a run carries one of the reported lengths |
| ScriptsVideoController.LengthEventsSpacing | Assets/_Project/EditorScripts/EditorUtils/VideoController.cs:67-70 | the stored length trails the events, which are spaced by more than the tolerance, and ends within it of the last report |
| ScriptsVideoController.SteadyLengthReportedAtMostOnce | Assets/_Project/EditorScripts/EditorUtils/VideoController.cs:67 | a length that stays put is reported at most once |
| ScriptsVideoController.ToggleOf | Assets/_Project/EditorScripts/EditorUtils/VideoController.cs:81-94 | a toggle flips the controller's flag against the player's own; a playing player is paused, a paused one played, and OnPlay fires exactly when the flag becomes true |
| ScriptsVideoController.ToggleFlagFollowsPlayerOnlyWithUrl | Assets/_Project/EditorScripts/EditorUtils/VideoController.cs:83-92 | with a url the flag agrees with the player; with an empty url a toggle from paused leaves the player paused while the flag says playing and OnPlay fires |
| ScriptsVideoController.ToggleTwiceFromPlaying | Assets/_Project/EditorScripts/EditorUtils/VideoController.cs:81-94 | two toggles from playing bring back the same player, with OnPlay fired once, by the second toggle |
| ScriptsVideoController.GoToFrameGuardIsSubsumed | Assets/_Project/EditorScripts/EditorUtils/VideoController.cs:108-112 | the controller's frame guard lets frameCount through and adds nothing to the player's own check |
| ScriptsVideoController.VideoController.constructor | Assets/_Project/EditorScripts/EditorUtils/VideoController.cs:32-55 | only the buttons found under the root are wired; the field may be missing; not playing, length 0, no events |
| ScriptsVideoController.VideoController.CheckVideoLength | Assets/_Project/EditorScripts/EditorUtils/VideoController.cs:64-72 | the stored length and the length events follow one CheckLength with tolerance 0.01 |
| ScriptsVideoController.VideoController.Update | Assets/_Project/EditorScripts/EditorUtils/VideoController.cs:58-62 | while not playing nothing changes; while playing one CheckLength runs |
| ScriptsVideoController.VideoController.TogglePlayPause | Assets/_Project/EditorScripts/EditorUtils/VideoController.cs:81-94 | the player and the flag end as ToggleOf says, and the OnPlay count grows by one exactly when OnPlay fires; the flag is the negation of the old IsPlaying, and IsPlaying afterwards agrees with it whenever the player had a url |
| ScriptsVideoController.VideoController.Click | Assets/_Project/EditorScripts/EditorUtils/VideoController.cs:48-79 | an unwired button does nothing; Play toggles; the frame and end buttons navigate the player by FrameAmount or to an end |
| ScriptsVideoController.VideoController.SetVideo | Assets/_Project/EditorScripts/EditorUtils/VideoController.cs:96-106 | an empty path only logs "VideoController: empty path"; otherwise the player takes the url and the image (none when the lookup misses) and the length is checked |
| ScriptsVideoController.VideoController.GoToVideoFrame | Assets/_Project/EditorScripts/EditorUtils/VideoController.cs:108-112 | frames below 0 or beyond the frame count are refused; any other frame goes to SetFrame |
| ScriptsVideoController.ToggleKeepsVideoLength | Assets/_Project/EditorScripts/EditorUtils/VideoController.cs:115 | a toggle leaves the length GetVideoLength reports unchanged, so a length check right after one that stored it raises no event |
| ScriptsVideoController.IsPlayingAfterToggle | Assets/_Project/EditorScripts/EditorUtils/VideoController.cs:116 | after a toggle the player's flag, which IsPlaying reports, is set exactly when it was paused and has a url; it differs from the controller's flag exactly for a paused player without a url |
| EditorUtilsVideoController.VideoController.constructor | Assets/_Project/Editor/EditorUtils/VideoController.cs:32-49 | only the buttons found under the root are wired; the field may be missing; not playing, length 0, no events |
| EditorUtilsVideoController.VideoController.CheckVideoLength | Assets/_Project/Editor/EditorUtils/VideoController.cs:60-68 | the stored length and the length events follow one CheckLength with tolerance 0.01 |
| EditorUtilsVideoController.VideoController.Update | Assets/_Project/Editor/EditorUtils/VideoController.cs:53-58 | while not playing nothing changes; while playing one CheckLength runs |
| EditorUtilsVideoController.VideoController.TogglePlayPause | Assets/_Project/Editor/EditorUtils/VideoController.cs:81-94 | the player and the flag end as ToggleOf says, and the OnPlay count grows by one exactly when OnPlay fires; the flag is the negation of the old IsPlaying, and IsPlaying afterwards agrees with it whenever the player had a url |
| EditorUtilsVideoController.VideoController.Click | Assets/_Project/Editor/EditorUtils/VideoController.cs:42-79 | an unwired button does nothing; Play toggles; the frame and end buttons navigate the player |
| EditorUtilsVideoController.VideoController.SetVideo | Assets/_Project/Editor/EditorUtils/VideoController.cs:100-111 | an empty path only logs this revision's warning; otherwise the player takes the url and the image (none when the lookup misses) and the length is checked |
| EditorUtilsVideoController.VideoController.GoToVideoFrame | Assets/_Project/Editor/EditorUtils/VideoController.cs:117-122 | a frame beyond the frame count or below 0 is refused; any other goes to SetFrame |
| EditorUtilsVideoController.ToggleKeepsVideoLength | Assets/_Project/Editor/EditorUtils/VideoController.cs:126 | a toggle leaves the length GetVideoLength reports unchanged, so a length check right after one that stored it raises no event |
| EditorUtilsVideoController.IsPlayingAfterToggle | Assets/_Project/Editor/EditorUtils/VideoController.cs:127 | after a toggle the flag IsPlaying reports is set exactly when the player was paused and has a url; it differs from the controller's flag exactly for a paused player without a url |
| EditorVideoController.ExactCheckFiresOnAnyChange | Assets/_Project/Editor/VideoController.cs:32-36 | the revision's != comparison is CheckLength with tolerance 0: it fires exactly on a change, and stores the new length |
| EditorVideoController.ToggleOf | Assets/_Project/Editor/VideoController.cs:60-73 | a toggle flips the flag against the player's own; a playing player is paused and a paused one played by this revision's Play |
| EditorVideoController.ToggleFlagFollowsPlayer | Assets/_Project/Editor/VideoController.cs:60-73 | with no url guard in this player, the flag always agrees with the player after a toggle |
| EditorVideoController.ToggleTwiceFromPlaying | Assets/_Project/Editor/VideoController.cs:60-73 | two toggles from playing bring back the same player |
| EditorVideoController.VideoController.constructor | Assets/_Project/Editor/VideoController.cs:22-49 | only the buttons found are wired; the field is looked up as "FrameSkipAmount" and may be missing; not playing, length 0, no events |
| EditorVideoController.VideoController.Update | Assets/_Project/Editor/VideoController.cs:29-37 | while not playing nothing changes; while playing any new length is stored and reported, and an unchanged one is not |
| EditorVideoController.VideoController.TogglePlayPause | Assets/_Project/Editor/VideoController.cs:60-73 | the player and the flag end as ToggleOf says; the flag is the negation of the old IsPlaying and IsPlaying agrees with it |
| EditorVideoController.VideoController.Click | Assets/_Project/Editor/VideoController.cs:42-58 | an unwired button does nothing; Play toggles; the frame buttons step by the field's value and the end buttons jump |
| EditorVideoController.ToggleKeepsVideoLength | Assets/_Project/Editor/VideoController.cs:75 | a toggle leaves the length GetVideoLength reports unchanged, so this revision's exact length check right after one that stored it raises no event |
| EditorVideoController.IsPlayingAfterToggle | Assets/_Project/Editor/VideoController.cs:76 | after a toggle the flag IsPlaying reports is the negation of the player's old flag, and equals the controller's flag |
| PreviewTrack.PreviewCount | Assets/_Project/EditorScripts/Track/VideoPreviewTrack.cs:50 | the number of previews is the truncated width divided by 80: n boxes of 80 pixels fit and n + 1 do not; a width under 80 gives none |
| PreviewTrack.BlankLayoutShowsOnlyResults | Assets/_Project/EditorScripts/Track/VideoPreviewTrack.cs:55-69 | after Resized lays out PreviewCount(width) black previews, a completed refresh shows frame file i in preview i when it exists and leaves every other preview black |
| PreviewTrack.SchedulerUpdate | Assets/_Project/EditorScripts/Track/VideoPreviewTrack.cs:78-94 | the refresh scheduler keeps its invariant: a wait in progress never overlaps a refresh and has not reached the delay |
| PreviewTrack.RefreshingBlocksArming | Assets/_Project/EditorScripts/Track/VideoPreviewTrack.cs:78 | while a refresh is in flight an update arms nothing and starts nothing |
| PreviewTrack.ArmingNeedsSetup | Assets/_Project/EditorScripts/Track/VideoPreviewTrack.cs:78-84 | a pending need is armed only once the timeline is set up and no refresh runs; the refresh starts in that same update exactly when its delta reaches the delay |
| PreviewTrack.OneRefreshPerWait | Assets/_Project/EditorScripts/Track/VideoPreviewTrack.cs:86-94 | once armed, updates with non-negative deltas start exactly one refresh, when the waited time reaches 0.5 s, and none before |
| PreviewTrack.ApplyResults | Assets/_Project/EditorScripts/Track/VideoPreviewTrack.cs:115-128 | the result loop keeps the number of previews |
| PreviewTrack.ApplyResultsPreviews | Assets/_Project/EditorScripts/Track/VideoPreviewTrack.cs:115-128 | with distinct non-empty paths and no more paths than previews the loop never throws; result i lands on preview i when its file exists; other previews stay |
| PreviewTrack.ApplyResultsFiles | Assets/_Project/EditorScripts/Track/VideoPreviewTrack.cs:118-127 | under the same conditions exactly the listed files are deleted |
| PreviewTrack.ApplyResultsMeaning | Assets/_Project/EditorScripts/Track/VideoPreviewTrack.cs:115-128 | the loop never throws, loads each existing result into the preview at its index, leaves the others, and deletes exactly the listed files |
| PreviewTrack.FaultStays | Assets/_Project/EditorScripts/Track/VideoPreviewTrack.cs:125 | once the loop has thrown on a missing preview, the remaining paths change nothing |
| PreviewTrack.KeptIndicesAtLeast | Assets/_Project/EditorScripts/Track/VideoPreviewTrack.cs:113-125 | the j-th kept result was requested for preview j or a later one |
| PreviewTrack.KeptCountStep | Assets/_Project/EditorScripts/Track/VideoPreviewTrack.cs:113 | each result adds one kept index exactly when it succeeded |
| PreviewTrack.KeptAllWhenAllKept | Assets/_Project/EditorScripts/Track/VideoPreviewTrack.cs:113 | when every extraction succeeds, every index is kept |
| PreviewTrack.KeptFewerWhenDropped | Assets/_Project/EditorScripts/Track/VideoPreviewTrack.cs:113 | one failed extraction leaves fewer kept results than previews |
| PreviewTrack.KeptAll | Assets/_Project/EditorScripts/Track/VideoPreviewTrack.cs:113-115 | every index is kept exactly when every extraction succeeded |
| PreviewTrack.KeptCountMonotone | Assets/_Project/EditorScripts/Track/VideoPreviewTrack.cs:113 | dropping the last results never adds kept indices |
| PreviewTrack.PreviewShowsOwnFrame | Assets/_Project/EditorScripts/Track/VideoPreviewTrack.cs:105-125 | preview j shows the frame requested for its own time exactly when no extraction up to j failed; otherwise it shows a later preview's frame |
| PreviewTrack.VideoPreviewTrack.constructor | Assets/_Project/EditorScripts/Track/VideoPreviewTrack.cs:26-45 | a debounce of 2 s, nothing armed, needed or refreshing, no previews and no requests |
| PreviewTrack.VideoPreviewTrack.ElementResized | Assets/_Project/EditorScripts/Track/VideoPreviewTrack.cs:37-45 | the base resize handler restarts the debounce from its full 2 s and changes nothing else |
| PreviewTrack.VideoPreviewTrack.Resized | Assets/_Project/EditorScripts/Track/VideoPreviewTrack.cs:48-72 | the previews are replaced by Blank of PreviewCount of the width and images are needed; the scheduler is otherwise untouched |
| PreviewTrack.VideoPreviewTrack.TrackUpdate | Assets/_Project/EditorScripts/Track/VideoPreviewTrack.cs:74-95 | one base debounce step, with Resized when it fires, then one SchedulerUpdate; a started refresh requests one time per preview |
| PreviewTrack.VideoPreviewTrack.BaseTrackUpdate | Assets/_Project/EditorScripts/Track/VideoPreviewTrack.cs:76 | the base debounce step, running Resized when OnResize fires |
| PreviewTrack.VideoPreviewTrack.RefreshTick | Assets/_Project/EditorScripts/Track/VideoPreviewTrack.cs:78-110 | one SchedulerUpdate; a started refresh sets the refreshing flag and records the times it requests |
| PreviewTrack.VideoPreviewTrack.CompleteRefresh | Assets/_Project/EditorScripts/Track/VideoPreviewTrack.cs:115-131 | the previews and files end as ApplyResults says, and the refreshing flag clears unless the loop threw |
| PreviewTrack.GatherTimes | Assets/_Project/EditorScripts/Track/VideoPreviewTrack.cs:105-110 | one time per preview, the time under its left edge, in preview order |
| PreviewTrack.ApplyFramePaths | Assets/_Project/EditorScripts/Track/VideoPreviewTrack.cs:115-128 | the loop computes ApplyResults of the previews, files and paths |
| Timeline.DebounceUpdate | Assets/_Project/EditorScripts/Track/UITrack.cs:69-81 | an unarmed debounce does nothing; an armed one counts down by the delta, and when it reaches 0 it disarms, resets to 0 and fires OnResize |
| Timeline.DebounceFiresOnce | Assets/_Project/EditorScripts/Track/UITrack.cs:69-81 | once armed with a positive timer T, updates with non-negative deltas fire OnResize exactly once if they add up to T and otherwise leave T minus their total; an unarmed debounce never fires |
| Timeline.UITrack.constructor | Assets/_Project/EditorScripts/Track/UITrack.cs:25-55 | construction runs PreInitialization, then the description, then the information; the debounce lasts 1 s and starts unarmed |
| Timeline.UITrack.TrackUpdate | Assets/_Project/EditorScripts/Track/UITrack.cs:69-81 | one DebounceUpdate, with OnResize counted when it fires; nothing else changes |
| Timeline.UITrack.ElementResized | Assets/_Project/EditorScripts/Track/UITrack.cs:300-309 | the debounce restarts from its full duration, and the information takes the adapted element's width when both exist |
| Timeline.UITrack.ToggleVisibility | Assets/_Project/EditorScripts/Track/UITrack.cs:267-279 | the information container is removed, or a fresh one is created |
| Timeline.UITrack.DeleteTrack | Assets/_Project/EditorScripts/Track/UITrack.cs:281-288 | both containers end up removed, whether or not they existed |
| DotNetPath.Combine | Assets/_Project/ReviewImporter.cs:33-75 | Path.Combine: an empty second part gives the first; a rooted second part, or an empty first, gives the second; otherwise the parts are joined with '\' unless the first already ends in a separator |
| DotNetPath.CombineKeepsEnds | Assets/_Project/ReviewImporter.cs:75 | joining a relative part onto a directory keeps the directory in front and the part at the end |
| DotNetPath.GetFileName | Assets/_Project/ReviewImporter.cs:64 | Path.GetFileName returns a suffix of the path with no directory or volume separator in it |
| DotNetPath.GetFileNameWithoutExtension | Assets/_Project/ReviewImporter.cs:32 | Path.GetFileNameWithoutExtension is a prefix of the file name, equal to it exactly when the name has no '.' |
| DotNetPath.CombineFileName | Assets/_Project/ReviewImporter.cs:72-75 | the file name of a directory combined with a plain name is that name |
| Text.NatToStringRoundTrip | Assets/_Project/VideoRecorder/FFmpegVideoEnconder.cs:38 | a number's decimal rendering reads back as the number |
| Text.IntToString | Assets/_Project/VideoRecorder/FFmpegVideoEnconder.cs:38 | Int32.ToString(): the decimal digits, with a leading '-' when negative |
| Text.PadDigitsRoundTrip | Assets/_Project/Utility/FFmpegUtils.cs:27 | zero-padding a number for the hh:mm:ss.fff format keeps the value it reads back as |
| TextLemmas.IntToStringInjective | Assets/_Project/VideoRecorder/FFmpegVideoEnconder.cs:38 | distinct integers render as distinct strings |
| Text.Split | Assets/_Project/ReviewImporter.cs:85 | String.Split yields at least one piece, and no piece holds the separator |
| Text.SplitJoin | Assets/_Project/ReviewImporter.cs:85 | joining the pieces of a split with the separator gives the string back |
| Text.SplitCount | Assets/_Project/ReviewImporter.cs:85 | a split yields one more piece than there are separators |
| Text.ReplaceChar | Assets/_Project/ReviewImporter.cs:78 | String.Replace of one character keeps the length and replaces exactly the occurrences of that character |
| Text.ReplaceKeepsSuffix | Assets/_Project/ReviewImporter.cs:78 | replacing a character the suffix does not contain keeps the suffix |
| UnityMath.Clamp01 | Assets/_Project/EditorScripts/VideoPlayer/UIVideoPlayer.cs:232 | Mathf.Clamp01 lies in [0, 1], leaves values in it alone, and sends values below to 0 and above to 1 |
| UnityMath.LerpBetween | Assets/_Project/EditorScripts/EditorUtils/TimeIndicatorController.cs:147-159 | Mathf.Lerp's result lies between its two end points whatever the parameter |
| UnityMath.LerpEnds | Assets/_Project/EditorScripts/EditorUtils/TimeIndicatorController.cs:105 | Mathf.Lerp gives its end points at 0 and 1 |
| UnityMath.LerpMonotone | Assets/_Project/EditorScripts/EditorUtils/TimeIndicatorController.cs:105 | Lerp from 0 towards a non-negative end never decreases in its parameter |
| UnityMath.FloorToInt | Assets/_Project/EditorScripts/EditorUtils/TimeIndicatorController.cs:62 | Mathf.FloorToInt gives the largest integer not above its argument |
| UnityMath.RoundHalfEven | Assets/_Project/EditorScripts/EditorUtils/TimeIndicatorController.cs:105 | Mathf.Round is within a half of its argument, and a tie goes to the even neighbour |
| UnityMath.RoundHalfAwayFromZero | Assets/_Project/Editor/TimeIndicatorController.cs:74 | the "0" format rounds to within a half, keeps the sign, and sends ties away from zero |
| UnityMath.TruncateToInt | Assets/_Project/EditorScripts/Track/VideoPreviewTrack.cs:50 | the (int) cast truncates toward zero |
| UnityMath.CsModWrap | Assets/_Project/TestGameFiles/LineSwitcher.cs:81-111 | C#'s % on a dividend below twice the divisor wraps at most once |
| UnityMath.CsDivNegative | Assets/_Project/EditorScripts/Track/VideoPreviewTrack.cs:50 | C#'s integer / on a negative dividend rounds toward zero, unlike Dafny's |
| UnityMath.Abs | Assets/_Project/EditorScripts/EditorUtils/VideoController.cs:67 | Mathf.Abs is non-negative and is the value or its negation |

## Left out

- Process and pipe I/O. Running ffmpeg is an oracle that returns an exit code; the encoder's
  stdin is a sequence of written frames. Process start-up failures, stderr contents and
  timeouts are not modelled.
- Threading and async. The encoder's worker thread is a step method that the caller
  interleaves with `EnqueueFrame`. `Thread.Sleep`, `volatile` and the atomicity of
  `ConcurrentQueue` are not modelled.
- `Task.Run` and `Task.WhenAll` in ExtractBatchFramesAsync become extractions run one after
  another in index order. The results keep index order, as `WhenAll` does.
- The refresh of the preview track awaits a batch extraction. That becomes two steps: a refresh
  that starts and a refresh that completes with the batch's results.
- Unity rendering: camera sync, render textures, `ReadPixels` and the GPU readback in
  VideoCapture. A captured frame is a byte sequence that the caller supplies.
- Unity's VideoPlayer decoding. The player is a record of url, frame, frame count, length,
  time and whether it is playing.
- IEEE float behaviour. Floats are reals: `0.01f` is `0.01`, and there is no rounding of sums
  or quotients. Division by a zero length, which gives an infinity or NaN in C#, is excluded by
  preconditions where the source would produce one. Labels are rendered in fixed-point
  notation; the exponent notation that float-to-string conversion uses for very large values
  is not modelled.
- The reflection in MetricRecorder: event subscription, PropertyToTrack and EventToTrack. Only
  the instance that LogEvent builds is modelled.
- Serialization I/O. JsonUtility, reading and writing track files, and the path constructor of
  TrackCollection are not modelled. MouseInputRecorder.OnDestroy is modelled only as the path
  and the one-track array it writes.
- UI wiring and styling. Element construction, USS classes, colours and sizes other than those
  the positions depend on, ListView binding, ReviewLoaderUI.Start, OnOpenFolderClicked, the
  inspectors and windows are not modelled.
- PlaytestReviewerRuntime.LoadReview is recorded as a call. The Debug.Log lines of
  ReviewLoaderUI.OnSelection, and the warnings and errors the modelled members name in their
  contracts, are recorded as log lines. The log lines listed below are not recorded.
- Capture.VideoCapture.StartCapture: the info line "Capture started. Writing to: …" is not
  recorded.
- Capture.VideoCapture.StopCapture: the catch path is left out. In the source, an encoder
  whose Dispose throws makes StopCapture log an error and leave the encoder set. The model's
  Dispose never throws, so the encoder is always cleared.
- FrameExtraction.DeleteAllFrames and FrameExtraction.DeleteAllFramesEffect: the "*.png"
  search is modelled as a case-insensitive ".png" extension (HasPngExtension), as on the
  editor's Windows file system. The rule by which a three-letter search extension also
  matches longer extensions that begin with it (".pngx") is not modelled. File names are
  otherwise compared exactly, so the ".meta" file is found only under the PNG's name plus
  ".meta", without case folding.
- FrameExtraction.DeleteAllFrames: its three info lines are not recorded. Its catch path is
  left out: a File.Delete that throws stops the loop midway and logs an error. In the model
  every delete succeeds.
- ScriptsVideoPlayer.UIVideoPlayer.constructor and EditorVideoPlayer.UIVideoPlayer.constructor:
  the "Default image not found" warning is not recorded. The missing image itself is modelled.
- KeyValueStore.SerializableDictionary.Add takes a key and a value that are present. A null
  key, and a null value whose ToString throws NullReferenceException, are not modelled.
  Every recorder passes non-null values.
- ScriptsVideoPlayer.UIVideoPlayer.GetVideoLengthSeconds and
  EditorVideoPlayer.UIVideoPlayer.GetVideoLengthSeconds: the "Video player is null" warning of
  GetVideoLength is not recorded. The value 0 it then returns is modelled.
- The order of `FindObjectsOfType` in PersistentSingleton.PreloadCleanup is a parameter.
- Directory.CreateDirectory in ReviewImporter is modelled as creating only the destination
  folder. AssetDatabase path normalisation, SaveAssets and Refresh are not modelled.
- ReviewImporting.Editor.CreateFolder assumes that AssetDatabase.CreateFolder always creates
  the valid folder parent + "/" + name. This holds even for the empty name EnsureFolderExists
  passes under "Assets/_Project" and for the name "ReviewOutput\\<name>" with a backslash.
  Unity may refuse or rename such folders. ReviewImporting.EnsuredOf,
  ReviewImporting.EnsuredFolderExists and ReviewImporting.ImportCreatesReview's
  "folder in r.folders" rest on this assumption.
- The game and test scripts driven by Input or Random, other than LineSwitcher.
- The constants of the two PathManager.cs files are included only where a modelled path uses
  them. The IVideoPlayer interface and RuntimeUpdateDispatcher are not part of this model.
- The video controllers take a player that the root lookup found. The `_videoPlayer == null`
  branch of the failed lookup is not modelled.
- LineSwitching.LineSwitcher.GoLeft and LineSwitching.LineSwitcher.GoRight: a line that was
  destroyed is not modelled. An unassigned entry (None) is skipped, as C#'s `?.` does. For a
  destroyed line the source's `lines[currentLine]?.transform` throws MissingReferenceException
  after the index has moved, so the parent stays and OnLeft or OnRight does not fire.
- LineSwitching.LineSwitcher.Awake requires the current line object to exist when
  configuration is complete. The source would throw on a destroyed line.
- EditorVideoController.VideoController.Click requires that the frame-skip field was found
  before a frame button is used. The source would throw a NullReferenceException.
- ScriptsVideoController.VideoController.TogglePlayPause, Click and IsPlaying require a live
  player. IsPlaying dereferences it without a check. The same holds for
  EditorUtilsVideoController.VideoController and EditorVideoController.VideoController.
- ScriptsVideoPlayer.UIVideoPlayer.Play, SetVideo, GoToStart, GoToEnd, IsPlaying,
  GetVideoPath and UpdateVideoFrame require a live player. The source reads the player there
  without a null check. The same holds for the EditorVideoPlayer.UIVideoPlayer members that
  require it.
- MouseRecording.MouseInputRecorder.Update and RecordPress require the track that Start
  created. The source would throw before Start has run.
- ScriptsMetricTrack.UIMetricTrack.DelayedConfigureTrack, EditorMetricTrackView.UIMetricTrack.DelayedConfigureTrack
  and EditorMetricBoxes.MetricTrack.StartInitialization require a stored track. The source
  hooks them to OnResize only after it has stored the track.
- ScriptsTimeIndicators.TimeIndicatorController.GetXPositionFromTime requires a non-empty
  indicator list and a non-zero length once indicators exist. The source would index an empty
  list or divide by zero.
- ScriptsTimeIndicators.TimeIndicatorController.OnMouseDown and ClickedFrame require a
  completed setup and a non-zero video length. Without a completed setup, for instance with a
  single label (SingleLabelNotSetUp), the first and last labels coincide and the mapping from x
  to time is undefined; a zero length makes the frame fraction undefined.
- Capture.VideoCapture.StartCapture requires a positive target frame rate when it opens a
  session, because the interval is 1 / targetFramerate.
- ReviewImporting.Editor.ImportReview and CopyIntoFolder require a data path at least as
  long as "Assets" (`Substring` would throw otherwise) and chosen files that exist (`File.Copy` would
  throw otherwise).

## Findings

| source | as written | input that shows it | evidently intended | confidence | as-written member | corrected member |
|---|---|---|---|---|---|---|
| Assets/_Project/MetricRecorder/MetricRecorder.cs:166 | LogEvent stores the event time under the key "Time: ", while UIMetricTrack and MetricTrack look the time up under "time" | any logged event: the recorded track shows no marker and no box | store the time under the key "time" | not executed | MetricRecording.LogEventAsWritten (with MetricRecording.RecordedTrackGetsNoMarkers) | MetricRecording.LogEvent (with MetricRecording.LoggedEventGetsMarker) |
