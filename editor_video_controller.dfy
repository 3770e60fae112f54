/**
 * VideoController, Editor revision (Assets/_Project/Editor/VideoController.cs):
 * the first form of the controller. It drives the Editor UIVideoPlayer,
 * reports any change of the clip length at all while it believes the video
 * is playing, raises no OnPlay event, and reads the frame-skip field with no
 * fallback when the field is missing.
 */
module EditorVideoController {
  import opened Base
  import P = ScriptsVideoPlayer
  import E = EditorVideoPlayer
  import C = ScriptsVideoController

  /** The name the frame-skip field is looked up by in this revision. */
  const FrameFieldName := "FrameSkipAmount"

  /** Update compares lengths with `!=`: a check with no tolerance fires on every change. */
  lemma ExactCheckFiresOnAnyChange(stored: real, reported: real)
    ensures C.CheckLength(stored, reported, 0.0).fired.Some? <==> reported != stored
    ensures C.CheckLength(stored, reported, 0.0).stored == reported
  {
  }

  /** The outcome of TogglePlayPause: the player and the controller's flag. */
  datatype Toggled = Toggled(element: P.Element, isPlaying: bool)

  function ToggleOf(e: P.Element): (t: Toggled)
    requires e.player.Some?
    ensures t.isPlaying == !e.player.value.isPlaying
    ensures e.player.value.isPlaying ==> t.element == P.PauseOf(e)
    ensures !e.player.value.isPlaying ==> t.element == E.PlayOf(e)
  {
    if e.player.value.isPlaying then Toggled(P.PauseOf(e), false) else Toggled(E.PlayOf(e), true)
  }

  /** With no url guard in this player, the controller's flag always agrees with the player. */
  lemma ToggleFlagFollowsPlayer(e: P.Element)
    requires e.player.Some?
    ensures ToggleOf(e).element.player.Some?
    ensures ToggleOf(e).isPlaying == ToggleOf(e).element.player.value.isPlaying
  {
  }

  /** Two toggles from playing come back to the same player. */
  lemma ToggleTwiceFromPlaying(e: P.Element)
    requires e.player.Some? && e.player.value.isPlaying
    ensures ToggleOf(e).element.player.Some?
    ensures ToggleOf(ToggleOf(e).element).element.player == e.player
  {
    E.PauseThenPlayResumes(e);
  }

  /** After a toggle, IsPlaying reports the flag the controller keeps, since this Play has no url guard. */
  lemma IsPlayingAfterToggle(e: P.Element)
    requires e.player.Some?
    ensures ToggleOf(e).element.player.Some?
    ensures ToggleOf(e).element.player.value.isPlaying == !e.player.value.isPlaying
  {
  }

  /**
   * GetVideoLength is unchanged by a toggle, so the exact check after it
   * fires no event once the length is stored.
   */
  lemma ToggleKeepsVideoLength(e: P.Element, stored: real)
    requires e.player.Some?
    ensures P.LengthSecondsOf(ToggleOf(e).element.player) == P.LengthSecondsOf(e.player)
    ensures var c := C.CheckLength(stored, P.LengthSecondsOf(e.player), 0.0);
      C.CheckLength(c.stored, P.LengthSecondsOf(ToggleOf(e).element.player), 0.0).fired.None?
  {
    E.ControlsKeepLengths(e, 0);
    P.ControlsKeepLengthSeconds(e, 0, P.ToStart);
  }

  class VideoController {
    const player: E.UIVideoPlayer
    /** The buttons found under the root; only these were wired. */
    const wired: set<string>
    const frameFieldFound: bool
    var isPlaying: bool
    var videoLength: real
    /** The lengths OnNewVideoLengthAvailable was invoked with, in order. */
    var lengthEvents: seq<real>

    predicate Valid()
      reads this
    {
      wired <= C.ButtonNames
    }

    /** SetUpVideoControls: buttons are wired only when found; the frame field may be missing. */
    constructor (root: C.Root, videoPlayer: E.UIVideoPlayer)
      ensures player == videoPlayer && wired == root.buttons * C.ButtonNames
      ensures frameFieldFound == (FrameFieldName in root.integerFields)
      ensures !isPlaying && videoLength == 0.0 && lengthEvents == []
      ensures Valid()
    {
      player := videoPlayer;
      wired := root.buttons * C.ButtonNames;
      frameFieldFound := FrameFieldName in root.integerFields;
      isPlaying := false;
      videoLength := 0.0;
      lengthEvents := [];
    }

    /** The editor tick: while the controller thinks it is playing, any new length is stored and reported. */
    method Update()
      modifies this
      ensures isPlaying == old(isPlaying)
      ensures !isPlaying ==> videoLength == old(videoLength) && lengthEvents == old(lengthEvents)
      ensures isPlaying && player.GetVideoLengthSeconds() != old(videoLength) ==>
        videoLength == player.GetVideoLengthSeconds() && lengthEvents == old(lengthEvents) + [videoLength]
      ensures isPlaying && player.GetVideoLengthSeconds() == old(videoLength) ==>
        videoLength == old(videoLength) && lengthEvents == old(lengthEvents)
    {
      if !isPlaying {
        return;
      }
      if player.GetVideoLengthSeconds() != videoLength {
        videoLength := player.GetVideoLengthSeconds();
        lengthEvents := lengthEvents + [videoLength];
      }
    }

    method TogglePlayPause()
      requires player.player.Some?
      modifies this, player
      ensures var t := ToggleOf(old(player.State()));
        player.State() == t.element && isPlaying == t.isPlaying
      ensures player.player.Some? && isPlaying == !old(IsPlaying()) && IsPlaying() == isPlaying
      ensures player.picture == old(player.picture) && player.updateHooked == old(player.updateHooked)
      ensures videoLength == old(videoLength) && lengthEvents == old(lengthEvents)
    {
      if player.IsPlaying() {
        player.Pause();
        isPlaying := false;
      } else {
        player.Play();
        isPlaying := true;
      }
    }

    /**
     * A click on a named button. The frame buttons read the field's value
     * directly, so the field must have been found.
     */
    method Click(name: string, fieldValue: int)
      requires Valid() && player.player.Some?
      requires name in wired && (name == "NextFrame" || name == "PreviousFrame") ==> frameFieldFound
      modifies this, player
      ensures player.picture == old(player.picture) && player.updateHooked == old(player.updateHooked)
      ensures videoLength == old(videoLength) && lengthEvents == old(lengthEvents)
      ensures name !in wired ==> player.State() == old(player.State()) && isPlaying == old(isPlaying)
      ensures name in wired && name == "Play" ==>
        var t := ToggleOf(old(player.State()));
        player.State() == t.element && isPlaying == t.isPlaying
      ensures name in wired && C.ButtonStep(name, fieldValue).Some? ==>
        player.player == Some(P.Navigate(old(player.player).value, C.ButtonStep(name, fieldValue).value))
        && player.savedTime == old(player.savedTime) && isPlaying == old(isPlaying)
    {
      if name !in wired {
        return;
      }
      if name == "Play" {
        TogglePlayPause();
      } else if name == "NextFrame" {
        player.NextFrame(fieldValue);
      } else if name == "PreviousFrame" {
        player.PreviousFrame(fieldValue);
      } else if name == "Start" {
        player.GoToStart();
      } else {
        assert name == "End";
        player.GoToEnd();
      }
    }

    function GetVideoLength(): (r: real)
      reads player
      ensures r == P.LengthSecondsOf(player.player)
    {
      player.GetVideoLengthSeconds()
    }

    function IsPlaying(): (r: bool)
      requires player.player.Some?
      reads player
      ensures r == player.player.value.isPlaying
    {
      player.IsPlaying()
    }
  }
}
