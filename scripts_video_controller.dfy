/**
 * VideoController, EditorScripts revision
 * (Assets/_Project/EditorScripts/EditorUtils/VideoController.cs): wires the
 * playback buttons found under a root element to the video player, keeps its
 * own playing flag, and reports the clip length whenever it drifts by more
 * than 0.01 while playing.
 *
 * The controller drives the EditorScripts UIVideoPlayer model. The buttons and
 * the integer field the root holds are given by name; the field's current
 * value is a parameter of each click.
 */
module ScriptsVideoController {
  import opened Base
  import opened UnityMath
  import P = ScriptsVideoPlayer

  const ButtonNames: set<string> := {"Play", "NextFrame", "PreviousFrame", "Start", "End"}

  /** The name the frame-skip field is looked up by (spelled as in the source). */
  const FrameFieldName := "FrameSkipAmmount"

  /** The length change, in seconds, that counts as a new length. */
  const LengthTolerance := 0.01

  /** The part of the visual tree the controller queries: the names of its buttons and integer fields. */
  datatype Root = Root(buttons: set<string>, integerFields: set<string>)

  /** FrameAmount: the field's value, or 1 when the field was not found. */
  function FrameAmount(fieldFound: bool, fieldValue: int): (n: int)
    ensures !fieldFound ==> n == 1
    ensures fieldFound ==> n == fieldValue
  {
    if fieldFound then fieldValue else 1
  }

  /** The navigation a button performs on the player, if it is a navigation button. */
  function ButtonStep(name: string, amount: int): (s: Option<P.Navigation>)
    ensures s.Some? <==> name in ButtonNames - {"Play"}
  {
    if name == "NextFrame" then Some(P.Next(amount))
    else if name == "PreviousFrame" then Some(P.Previous(amount))
    else if name == "Start" then Some(P.ToStart)
    else if name == "End" then Some(P.ToEnd)
    else None
  }

  /** After one length check: the stored length and the value the event was raised with, if it was. */
  datatype LengthCheck = LengthCheck(stored: real, fired: Option<real>)

  /** CheckVideoLength: a change by more than the tolerance is stored and reported. */
  function CheckLength(stored: real, reported: real, tolerance: real): (c: LengthCheck)
    ensures c.fired.Some? <==> Abs(reported - stored) > tolerance
    ensures c.fired.Some? ==> c.fired.value == reported && c.stored == reported
    ensures c.fired.None? ==> c.stored == stored
    ensures tolerance >= 0.0 ==> Abs(reported - c.stored) <= tolerance
  {
    if Abs(reported - stored) > tolerance then LengthCheck(reported, Some(reported)) else LengthCheck(stored, None)
  }

  function Fired(c: LengthCheck): seq<real>
  {
    if c.fired.Some? then [c.fired.value] else []
  }

  /** A run of length checks against the lengths the player reported, in order. */
  datatype LengthRun = LengthRun(stored: real, events: seq<real>)

  function RunLengthChecks(stored: real, reports: seq<real>, tolerance: real): (r: LengthRun)
    ensures |r.events| <= |reports|
    decreases |reports|
  {
    if reports == [] then LengthRun(stored, [])
    else
      var front := RunLengthChecks(stored, reports[..|reports| - 1], tolerance);
      var c := CheckLength(front.stored, reports[|reports| - 1], tolerance);
      LengthRun(c.stored, front.events + Fired(c))
  }

  /**
   * Over any run of checks, every event carries a reported length, the first
   * differs from the initial length and each later one from its predecessor
   * by more than the tolerance, the stored length is the last event's, and
   * it ends within the tolerance of the last report.
   */
  lemma LengthEventsAreSeparated(stored: real, reports: seq<real>, tolerance: real)
    requires tolerance >= 0.0
    ensures var r := RunLengthChecks(stored, reports, tolerance);
      (forall i :: 0 <= i < |r.events| ==> r.events[i] in reports)
      && (r.events == [] ==> r.stored == stored)
      && (r.events != [] ==> r.stored == r.events[|r.events| - 1] && Abs(r.events[0] - stored) > tolerance)
      && (forall i :: 0 < i < |r.events| ==> Abs(r.events[i] - r.events[i - 1]) > tolerance)
      && (reports != [] ==> Abs(reports[|reports| - 1] - r.stored) <= tolerance)
  {
    LengthEventsFromReports(stored, reports, tolerance);
    LengthEventsSpacing(stored, reports, tolerance);
  }

  /** Every event of a run carries one of the reported lengths. */
  lemma {:induction false} LengthEventsFromReports(stored: real, reports: seq<real>, tolerance: real)
    ensures forall i :: 0 <= i < |RunLengthChecks(stored, reports, tolerance).events| ==>
      RunLengthChecks(stored, reports, tolerance).events[i] in reports
    decreases |reports|
  {
    if reports != [] {
      var front := reports[..|reports| - 1];
      var last := reports[|reports| - 1];
      LengthEventsFromReports(stored, front, tolerance);
      var r' := RunLengthChecks(stored, front, tolerance);
      var c := CheckLength(r'.stored, last, tolerance);
      var r := RunLengthChecks(stored, reports, tolerance);
      assert r.events == r'.events + Fired(c);
      forall i | 0 <= i < |r.events|
        ensures r.events[i] in reports
      {
        if i < |r'.events| {
          assert r.events[i] == r'.events[i];
          assert r'.events[i] in front;
        } else {
          assert r.events[i] == last;
        }
      }
    }
  }

  /** The stored length trails the events, which are spaced by more than the tolerance. */
  lemma {:induction false} LengthEventsSpacing(stored: real, reports: seq<real>, tolerance: real)
    requires tolerance >= 0.0
    ensures var r := RunLengthChecks(stored, reports, tolerance);
      (r.events == [] ==> r.stored == stored)
      && (r.events != [] ==> r.stored == r.events[|r.events| - 1] && Abs(r.events[0] - stored) > tolerance)
      && (forall i :: 0 < i < |r.events| ==> Abs(r.events[i] - r.events[i - 1]) > tolerance)
      && (reports != [] ==> Abs(reports[|reports| - 1] - r.stored) <= tolerance)
    decreases |reports|
  {
    if reports != [] {
      var front := reports[..|reports| - 1];
      var last := reports[|reports| - 1];
      LengthEventsSpacing(stored, front, tolerance);
      var r' := RunLengthChecks(stored, front, tolerance);
      var c := CheckLength(r'.stored, last, tolerance);
      var r := RunLengthChecks(stored, reports, tolerance);
      assert r.events == r'.events + Fired(c);
      assert r.stored == c.stored;
    }
  }

  /** A length that stays put is reported at most once. */
  lemma SteadyLengthReportedAtMostOnce(stored: real, reports: seq<real>, tolerance: real, len: real)
    requires tolerance >= 0.0
    requires forall i :: 0 <= i < |reports| ==> reports[i] == len
    ensures |RunLengthChecks(stored, reports, tolerance).events| <= 1
  {
    LengthEventsAreSeparated(stored, reports, tolerance);
  }

  /** The outcome of TogglePlayPause: the player, the controller's flag, and whether OnPlay fired. */
  datatype Toggled = Toggled(element: P.Element, isPlaying: bool, onPlay: bool)

  function ToggleOf(e: P.Element): (t: Toggled)
    requires e.player.Some?
    ensures t.isPlaying == !e.player.value.isPlaying && t.onPlay == t.isPlaying
    ensures e.player.value.isPlaying ==> t.element == P.PauseOf(e)
    ensures !e.player.value.isPlaying ==> t.element == P.PlayOf(e)
  {
    if e.player.value.isPlaying then Toggled(P.PauseOf(e), false, false) else Toggled(P.PlayOf(e), true, true)
  }

  /**
   * With a url the controller's flag follows the player. With an empty url a
   * toggle from paused leaves the player paused, yet the flag says playing
   * and OnPlay fires.
   */
  lemma ToggleFlagFollowsPlayerOnlyWithUrl(e: P.Element)
    requires e.player.Some?
    ensures var t := ToggleOf(e);
      (e.player.value.url != "" ==> t.isPlaying == t.element.player.value.isPlaying)
      && (e.player.value.url == "" && !e.player.value.isPlaying ==>
            t.isPlaying && t.onPlay && !t.element.player.value.isPlaying)
  {
  }

  /** Two toggles from playing come back to the same player, firing OnPlay once. */
  lemma ToggleTwiceFromPlaying(e: P.Element)
    requires e.player.Some? && e.player.value.isPlaying && e.player.value.url != ""
    ensures var t1 := ToggleOf(e);
      t1.element.player.Some? && !t1.onPlay
      && var t2 := ToggleOf(t1.element); t2.element.player == e.player && t2.onPlay && t2.isPlaying
  {
    P.PauseThenPlayResumes(e);
  }

  /**
   * GoToVideoFrame lets frame == frameCount through, but SetFrame refuses it:
   * the controller's guard adds nothing to the player's own.
   */
  lemma GoToFrameGuardIsSubsumed(e: P.Element, f: int)
    ensures (if f < 0 || f > P.LengthFramesOf(e.player) then e else P.SetFrameOf(e, f)) == P.SetFrameOf(e, f)
  {
  }

  /**
   * The frame buttons step by FrameAmount: the field's value when the field
   * was found, one frame when it was not.
   */
  lemma FrameButtonsStepByFieldOrOne(p: P.Player, found: bool, value: int)
    requires !p.isPlaying
    ensures var n := if found then value else 1;
      P.Navigate(p, ButtonStep("NextFrame", FrameAmount(found, value)).value).frame
        == (if 0 <= p.frame + n <= p.frameCount then p.frame + n else p.frame)
      && P.Navigate(p, ButtonStep("PreviousFrame", FrameAmount(found, value)).value).frame
        == (if p.frame - n >= 0 then p.frame - n else p.frame)
  {
  }

  /**
   * IsPlaying reports the player's flag, not the controller's: after a
   * toggle the two differ exactly when a paused player without a url was
   * toggled, which Play ignores.
   */
  lemma IsPlayingAfterToggle(e: P.Element)
    requires e.player.Some?
    ensures ToggleOf(e).element.player.Some?
    ensures ToggleOf(e).element.player.value.isPlaying == (!e.player.value.isPlaying && e.player.value.url != "")
    ensures ToggleOf(e).element.player.value.isPlaying != ToggleOf(e).isPlaying
      <==> e.player.value.url == "" && !e.player.value.isPlaying
  {
  }

  /**
   * GetVideoLength reports the clip's length, which a toggle does not change:
   * once a check has stored it, the check after a toggle fires no event.
   */
  lemma ToggleKeepsVideoLength(e: P.Element, stored: real)
    requires e.player.Some?
    ensures P.LengthSecondsOf(ToggleOf(e).element.player) == P.LengthSecondsOf(e.player)
    ensures var c := CheckLength(stored, P.LengthSecondsOf(e.player), LengthTolerance);
      CheckLength(c.stored, P.LengthSecondsOf(ToggleOf(e).element.player), LengthTolerance).fired.None?
  {
    P.ControlsKeepLengthSeconds(e, 0, P.ToStart);
  }

  class VideoController {
    const player: P.UIVideoPlayer
    /** The buttons found under the root; only these were wired. */
    const wired: set<string>
    const frameFieldFound: bool
    var isPlaying: bool
    var videoLength: real
    /** The lengths OnNewVideoLengthAvailable was invoked with, in order. */
    var lengthEvents: seq<real>
    /** How many times OnPlay was invoked. */
    var playEvents: nat
    var warnings: seq<string>

    /** Only the five known button names are ever wired. */
    predicate Valid()
      reads this
    {
      wired <= ButtonNames
    }

    /** SetUpVideoControls: buttons are wired only when found; the frame field may be missing. */
    constructor (root: Root, videoPlayer: P.UIVideoPlayer)
      ensures player == videoPlayer && wired == root.buttons * ButtonNames
      ensures frameFieldFound == (FrameFieldName in root.integerFields)
      ensures !isPlaying && videoLength == 0.0 && lengthEvents == [] && playEvents == 0 && warnings == []
      ensures Valid()
    {
      player := videoPlayer;
      wired := root.buttons * ButtonNames;
      frameFieldFound := FrameFieldName in root.integerFields;
      isPlaying := false;
      videoLength := 0.0;
      lengthEvents := [];
      playEvents := 0;
      warnings := [];
    }

    method CheckVideoLength()
      modifies this
      ensures var c := CheckLength(old(videoLength), player.GetVideoLengthSeconds(), LengthTolerance);
        videoLength == c.stored && lengthEvents == old(lengthEvents) + Fired(c)
      ensures isPlaying == old(isPlaying) && playEvents == old(playEvents) && warnings == old(warnings)
    {
      var newLen := player.GetVideoLengthSeconds();
      if Abs(newLen - videoLength) > LengthTolerance {
        videoLength := newLen;
        lengthEvents := lengthEvents + [videoLength];
      }
    }

    /** The editor tick: the length is checked only while the controller thinks it is playing. */
    method Update()
      modifies this
      ensures isPlaying == old(isPlaying) && playEvents == old(playEvents) && warnings == old(warnings)
      ensures !isPlaying ==> videoLength == old(videoLength) && lengthEvents == old(lengthEvents)
      ensures isPlaying ==>
        var c := CheckLength(old(videoLength), player.GetVideoLengthSeconds(), LengthTolerance);
        videoLength == c.stored && lengthEvents == old(lengthEvents) + Fired(c)
    {
      if !isPlaying {
        return;
      }
      CheckVideoLength();
    }

    method TogglePlayPause()
      requires player.player.Some?
      modifies this, player
      ensures var t := ToggleOf(old(player.State()));
        player.State() == t.element && isPlaying == t.isPlaying
        && playEvents == old(playEvents) + (if t.onPlay then 1 else 0)
      ensures player.player.Some? && isPlaying == !old(IsPlaying())
      ensures old(player.player).value.url != "" ==> IsPlaying() == isPlaying
      ensures player.picture == old(player.picture) && player.updateHooked == old(player.updateHooked)
      ensures videoLength == old(videoLength) && lengthEvents == old(lengthEvents) && warnings == old(warnings)
    {
      if player.IsPlaying() {
        player.Pause();
        isPlaying := false;
      } else {
        player.Play();
        isPlaying := true;
        playEvents := playEvents + 1;
      }
    }

    /** A click on a named button; one that was not found under the root was never wired. */
    method Click(name: string, fieldValue: int)
      requires Valid() && player.player.Some?
      modifies this, player
      ensures player.picture == old(player.picture) && player.updateHooked == old(player.updateHooked)
      ensures videoLength == old(videoLength) && lengthEvents == old(lengthEvents) && warnings == old(warnings)
      ensures name !in wired ==>
        player.State() == old(player.State()) && isPlaying == old(isPlaying) && playEvents == old(playEvents)
      ensures name in wired && name == "Play" ==>
        var t := ToggleOf(old(player.State()));
        player.State() == t.element && isPlaying == t.isPlaying
        && playEvents == old(playEvents) + (if t.onPlay then 1 else 0)
      ensures name in wired && ButtonStep(name, FrameAmount(frameFieldFound, fieldValue)).Some? ==>
        player.player == Some(P.Navigate(old(player.player).value, ButtonStep(name, FrameAmount(frameFieldFound, fieldValue)).value))
        && player.savedTime == old(player.savedTime) && isPlaying == old(isPlaying) && playEvents == old(playEvents)
    {
      if name !in wired {
        return;
      }
      var amount := FrameAmount(frameFieldFound, fieldValue);
      if name == "Play" {
        TogglePlayPause();
      } else if name == "NextFrame" {
        player.NextFrame(amount);
      } else if name == "PreviousFrame" {
        player.PreviousFrame(amount);
      } else if name == "Start" {
        player.GoToStart();
      } else {
        assert name == "End";
        player.GoToEnd();
      }
    }

    /**
     * SetVideo: an empty path only warns; otherwise the player loads it and
     * the length is checked. `imageFound` is the player's asset lookup.
     */
    method SetVideo(path: string, imageFound: bool)
      requires path != "" ==> player.player.Some?
      modifies this, player
      ensures isPlaying == old(isPlaying) && playEvents == old(playEvents)
      ensures player.savedTime == old(player.savedTime) && player.updateHooked == old(player.updateHooked)
      ensures path == "" ==>
        player.player == old(player.player) && player.picture == old(player.picture)
        && videoLength == old(videoLength) && lengthEvents == old(lengthEvents)
        && warnings == old(warnings) + ["VideoController: empty path"]
      ensures path != "" ==>
        player.player == Some(old(player.player).value.(url := path))
        && player.picture == (if imageFound then P.VideoLoadedPicture else P.NoPicture)
        && warnings == old(warnings)
        && var c := CheckLength(old(videoLength), P.LengthSecondsOf(player.player), LengthTolerance);
           videoLength == c.stored && lengthEvents == old(lengthEvents) + Fired(c)
    {
      if path == "" {
        warnings := warnings + ["VideoController: empty path"];
        return;
      }
      player.SetVideo(path, imageFound);
      CheckVideoLength();
    }

    /** GoToVideoFrame: frames below 0 or beyond the frame count are refused before SetFrame. */
    method GoToVideoFrame(frame: int)
      modifies player
      ensures player.State() == (if frame < 0 || frame > P.LengthFramesOf(old(player.player)) then old(player.State())
                                 else P.SetFrameOf(old(player.State()), frame))
      ensures player.picture == old(player.picture) && player.updateHooked == old(player.updateHooked)
    {
      if frame < 0 || frame > player.GetVideoLengthFrames() {
        return;
      }
      player.SetFrame(frame);
    }

    function GetVideoLength(): (r: real)
      reads player
      ensures r == P.LengthSecondsOf(player.player)
    {
      player.GetVideoLengthSeconds()
    }

    function IsPlaying(): (r: bool)
      requires player.player.Some?
      reads player
      ensures r == player.player.value.isPlaying
    {
      player.IsPlaying()
    }
  }
}
