/**
 * VideoController, Editor/EditorUtils revision
 * (Assets/_Project/Editor/EditorUtils/VideoController.cs): the same
 * controller as the EditorScripts revision, with its own warning text and the
 * frame guard written as two checks. The length rule, the toggle and the
 * button wiring are the EditorScripts module's functions.
 *
 * This revision calls SetVideo on its player, which only the EditorScripts
 * UIVideoPlayer declares, so it drives that player model.
 */
module EditorUtilsVideoController {
  import opened Base
  import opened UnityMath
  import P = ScriptsVideoPlayer
  import C = ScriptsVideoController

  /**
   * IsPlaying reports the player's flag: after a toggle it disagrees with the
   * controller's own flag exactly when a paused player without a url was
   * toggled.
   */
  lemma IsPlayingAfterToggle(e: P.Element)
    requires e.player.Some?
    ensures C.ToggleOf(e).element.player.Some?
    ensures C.ToggleOf(e).element.player.value.isPlaying != C.ToggleOf(e).isPlaying
      <==> e.player.value.url == "" && !e.player.value.isPlaying
  {
    C.IsPlayingAfterToggle(e);
  }

  /** GetVideoLength is unchanged by a toggle, so a check after it fires no event once the length is stored. */
  lemma ToggleKeepsVideoLength(e: P.Element, stored: real)
    requires e.player.Some?
    ensures P.LengthSecondsOf(C.ToggleOf(e).element.player) == P.LengthSecondsOf(e.player)
    ensures var c := C.CheckLength(stored, P.LengthSecondsOf(e.player), C.LengthTolerance);
      C.CheckLength(c.stored, P.LengthSecondsOf(C.ToggleOf(e).element.player), C.LengthTolerance).fired.None?
  {
    C.ToggleKeepsVideoLength(e, stored);
  }

  class VideoController {
    const player: P.UIVideoPlayer
    /** The buttons found under the root; only these were wired. */
    const wired: set<string>
    const frameFieldFound: bool
    var isPlaying: bool
    var videoLength: real
    /** The lengths OnNewVideoLengthAvailable was invoked with, in order. */
    var lengthEvents: seq<real>
    /** How many times OnPlay was invoked. */
    var playEvents: nat
    var warnings: seq<string>

    /** Only the five known button names are ever wired. */
    predicate Valid()
      reads this
    {
      wired <= C.ButtonNames
    }

    /** SetUpVideoControls: buttons are wired only when found; the frame field may be missing. */
    constructor (root: C.Root, videoPlayer: P.UIVideoPlayer)
      ensures player == videoPlayer && wired == root.buttons * C.ButtonNames
      ensures frameFieldFound == (C.FrameFieldName in root.integerFields)
      ensures !isPlaying && videoLength == 0.0 && lengthEvents == [] && playEvents == 0 && warnings == []
      ensures Valid()
    {
      player := videoPlayer;
      wired := root.buttons * C.ButtonNames;
      frameFieldFound := C.FrameFieldName in root.integerFields;
      isPlaying := false;
      videoLength := 0.0;
      lengthEvents := [];
      playEvents := 0;
      warnings := [];
    }

    method CheckVideoLength()
      modifies this
      ensures var c := C.CheckLength(old(videoLength), player.GetVideoLengthSeconds(), C.LengthTolerance);
        videoLength == c.stored && lengthEvents == old(lengthEvents) + C.Fired(c)
      ensures isPlaying == old(isPlaying) && playEvents == old(playEvents) && warnings == old(warnings)
    {
      var newLen := player.GetVideoLengthSeconds();
      if Abs(newLen - videoLength) > C.LengthTolerance {
        videoLength := newLen;
        lengthEvents := lengthEvents + [videoLength];
      }
    }

    /** The editor tick: the length is checked only while the controller thinks it is playing. */
    method Update()
      modifies this
      ensures isPlaying == old(isPlaying) && playEvents == old(playEvents) && warnings == old(warnings)
      ensures !isPlaying ==> videoLength == old(videoLength) && lengthEvents == old(lengthEvents)
      ensures isPlaying ==>
        var c := C.CheckLength(old(videoLength), player.GetVideoLengthSeconds(), C.LengthTolerance);
        videoLength == c.stored && lengthEvents == old(lengthEvents) + C.Fired(c)
    {
      if !isPlaying {
        return;
      }
      CheckVideoLength();
    }

    method TogglePlayPause()
      requires player.player.Some?
      modifies this, player
      ensures var t := C.ToggleOf(old(player.State()));
        player.State() == t.element && isPlaying == t.isPlaying
        && playEvents == old(playEvents) + (if t.onPlay then 1 else 0)
      ensures player.player.Some? && isPlaying == !old(IsPlaying())
      ensures old(player.player).value.url != "" ==> IsPlaying() == isPlaying
      ensures player.picture == old(player.picture) && player.updateHooked == old(player.updateHooked)
      ensures videoLength == old(videoLength) && lengthEvents == old(lengthEvents) && warnings == old(warnings)
    {
      if player.IsPlaying() {
        player.Pause();
        isPlaying := false;
      } else {
        player.Play();
        isPlaying := true;
        playEvents := playEvents + 1;
      }
    }

    /** A click on a named button; one that was not found under the root was never wired. */
    method Click(name: string, fieldValue: int)
      requires Valid() && player.player.Some?
      modifies this, player
      ensures player.picture == old(player.picture) && player.updateHooked == old(player.updateHooked)
      ensures videoLength == old(videoLength) && lengthEvents == old(lengthEvents) && warnings == old(warnings)
      ensures name !in wired ==>
        player.State() == old(player.State()) && isPlaying == old(isPlaying) && playEvents == old(playEvents)
      ensures name in wired && name == "Play" ==>
        var t := C.ToggleOf(old(player.State()));
        player.State() == t.element && isPlaying == t.isPlaying
        && playEvents == old(playEvents) + (if t.onPlay then 1 else 0)
      ensures name in wired && C.ButtonStep(name, C.FrameAmount(frameFieldFound, fieldValue)).Some? ==>
        player.player == Some(P.Navigate(old(player.player).value, C.ButtonStep(name, C.FrameAmount(frameFieldFound, fieldValue)).value))
        && player.savedTime == old(player.savedTime) && isPlaying == old(isPlaying) && playEvents == old(playEvents)
    {
      if name !in wired {
        return;
      }
      var amount := C.FrameAmount(frameFieldFound, fieldValue);
      if name == "Play" {
        TogglePlayPause();
      } else if name == "NextFrame" {
        player.NextFrame(amount);
      } else if name == "PreviousFrame" {
        player.PreviousFrame(amount);
      } else if name == "Start" {
        player.GoToStart();
      } else {
        assert name == "End";
        player.GoToEnd();
      }
    }

    /**
     * SetVideo: an empty path only warns; otherwise the player loads it and
     * the length is checked. `imageFound` is the player's asset lookup.
     */
    method SetVideo(path: string, imageFound: bool)
      requires path != "" ==> player.player.Some?
      modifies this, player
      ensures isPlaying == old(isPlaying) && playEvents == old(playEvents)
      ensures player.savedTime == old(player.savedTime) && player.updateHooked == old(player.updateHooked)
      ensures path == "" ==>
        player.player == old(player.player) && player.picture == old(player.picture)
        && videoLength == old(videoLength) && lengthEvents == old(lengthEvents)
        && warnings == old(warnings) + ["VideoController: Attempted to set video with an invalid path."]
      ensures path != "" ==>
        player.player == Some(old(player.player).value.(url := path))
        && player.picture == (if imageFound then P.VideoLoadedPicture else P.NoPicture)
        && warnings == old(warnings)
        && var c := C.CheckLength(old(videoLength), P.LengthSecondsOf(player.player), C.LengthTolerance);
           videoLength == c.stored && lengthEvents == old(lengthEvents) + C.Fired(c)
    {
      if path == "" {
        warnings := warnings + ["VideoController: Attempted to set video with an invalid path."];
        return;
      }
      player.SetVideo(path, imageFound);
      CheckVideoLength();
    }

    /** GoToVideoFrame: a frame beyond the frame count, then a negative one, is refused before SetFrame. */
    method GoToVideoFrame(frame: int)
      modifies player
      ensures player.State() == (if frame < 0 || frame > P.LengthFramesOf(old(player.player)) then old(player.State())
                                 else P.SetFrameOf(old(player.State()), frame))
      ensures player.picture == old(player.picture) && player.updateHooked == old(player.updateHooked)
    {
      if player.GetVideoLengthFrames() < frame {
        return;
      }
      if frame < 0 {
        return;
      }
      player.SetFrame(frame);
    }

    function GetVideoLength(): (r: real)
      reads player
      ensures r == P.LengthSecondsOf(player.player)
    {
      player.GetVideoLengthSeconds()
    }

    function IsPlaying(): (r: bool)
      requires player.player.Some?
      reads player
      ensures r == player.player.value.isPlaying
    {
      player.IsPlaying()
    }
  }
}
