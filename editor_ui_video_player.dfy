/**
 * UIVideoPlayer, Editor revision
 * (Assets/_Project/Editor/VideoPlayer/UIVideoPlayer.cs): the earlier form of
 * the element. Frame stepping, Pause, Stop and the getters are the ones the
 * EditorScripts revision kept; Play has no empty-url guard, the player starts
 * on a default clip, and SetFrame does not touch the saved time.
 */
module EditorVideoPlayer {
  import opened Base
  import Shared = ScriptsVideoPlayer

  /** PathManager.DefaultVideoPath (Assets/_Project/PathManager.cs). */
  const DefaultVideoPath := "Assets/_Project/Videos/sample1Video.mp4"

  /** The player InitializeVideoPlayer creates: the default clip, paused, nothing decoded. */
  const NewPlayer := Shared.Player(DefaultVideoPath, 0, 0, false, 0.0, 0.0)

  /** Play: a missing player is ignored; a paused one starts and seeks to the saved time, whatever its url. */
  function PlayOf(e: Shared.Element): (r: Shared.Element)
    ensures r.savedTime == e.savedTime
    ensures e.player.None? || e.player.value.isPlaying ==> r == e
    ensures e.player.Some? && !e.player.value.isPlaying ==>
      r.player == Some(e.player.value.(isPlaying := true, time := e.savedTime))
  {
    match e.player
    case Some(p) => if p.isPlaying then e else Shared.Element(Some(p.(isPlaying := true, time := e.savedTime)), e.savedTime)
    case None => e
  }

  /** SetFrame(f): only for 0 <= f < frameCount; the saved time is left as it was. */
  function SetFrameOf(e: Shared.Element, f: int): (r: Shared.Element)
    ensures r.savedTime == e.savedTime
    ensures e.player.None? || !(0 <= f < e.player.value.frameCount) ==> r == e
    ensures e.player.Some? && 0 <= f < e.player.value.frameCount ==> r.player == Some(e.player.value.(frame := f))
  {
    match e.player
    case Some(p) => if 0 <= f < p.frameCount then Shared.Element(Some(p.(frame := f)), e.savedTime) else e
    case None => e
  }

  /** Pausing and playing again resumes exactly where playback was, even on an empty url. */
  lemma PauseThenPlayResumes(e: Shared.Element)
    requires e.player.Some? && e.player.value.isPlaying
    ensures PlayOf(Shared.PauseOf(e)).player == e.player
  {
  }

  /**
   * Pause, SetFrame(f), Play: playback seeks back to the time Pause saved,
   * so the frame chosen while paused does not decide where playback resumes.
   */
  lemma SetFrameDoesNotMoveResumePoint(e: Shared.Element, f: int)
    requires e.player.Some? && e.player.value.isPlaying
    ensures var r := PlayOf(SetFrameOf(Shared.PauseOf(e), f));
      r.player.Some? && r.player.value.isPlaying && r.player.value.time == e.player.value.time
      && r.player.value.frame == (if 0 <= f < e.player.value.frameCount then f else e.player.value.frame)
  {
  }

  /** The length and frame count the getters report are fixed by the clip: this Play and SetFrame keep them. */
  lemma ControlsKeepLengths(e: Shared.Element, f: int)
    ensures Shared.LengthSecondsOf(PlayOf(e).player) == Shared.LengthSecondsOf(e.player)
    ensures Shared.LengthFramesOf(PlayOf(e).player) == Shared.LengthFramesOf(e.player)
    ensures Shared.LengthSecondsOf(SetFrameOf(e, f).player) == Shared.LengthSecondsOf(e.player)
    ensures Shared.LengthFramesOf(SetFrameOf(e, f).player) == Shared.LengthFramesOf(e.player)
  {
  }

  /**
   * The current time the getters report: Play from paused seeks to the saved
   * time whatever the url, SetFrame changes neither the reported time nor
   * the saved one, and Stop rewinds to 0.
   */
  lemma ReportedTimeAfterControls(e: Shared.Element, f: int)
    ensures e.player.Some? && !e.player.value.isPlaying ==> Shared.CurrentTimeOf(PlayOf(e).player) == e.savedTime
    ensures Shared.CurrentTimeOf(SetFrameOf(e, f).player) == Shared.CurrentTimeOf(e.player)
    ensures SetFrameOf(e, f).savedTime == e.savedTime
    ensures e.player.Some? ==> Shared.CurrentTimeOf(Shared.StopOf(e).player) == 0.0
  {
  }

  /** The current frame the getters report after SetFrame(f): f when it lies in [0, frame count), else unchanged. */
  lemma ReportedFrameAfterSetFrame(e: Shared.Element, f: int)
    ensures 0 <= f < Shared.LengthFramesOf(e.player) ==> Shared.CurrentFrameOf(SetFrameOf(e, f).player) == f
    ensures !(0 <= f < Shared.LengthFramesOf(e.player)) ==>
      Shared.CurrentFrameOf(SetFrameOf(e, f).player) == Shared.CurrentFrameOf(e.player)
  {
  }

  /** The flag IsPlaying reports: this Play always starts a present player, even without a url; Pause and Stop halt it. */
  lemma ReportedPlayingAfterControls(e: Shared.Element, f: int)
    requires e.player.Some?
    ensures PlayOf(e).player.Some? && PlayOf(e).player.value.isPlaying
    ensures Shared.PauseOf(e).player.Some? && !Shared.PauseOf(e).player.value.isPlaying
    ensures Shared.StopOf(e).player.Some? && !Shared.StopOf(e).player.value.isPlaying
    ensures SetFrameOf(e, f).player.Some? && SetFrameOf(e, f).player.value.isPlaying == e.player.value.isPlaying
  {
  }

  class UIVideoPlayer {
    var player: Option<Shared.Player>
    var savedTime: real
    var picture: Shared.Picture
    /** Whether UpdateVideoFrame is registered on the editor's update loop. */
    var updateHooked: bool

    function State(): Shared.Element
      reads this
    {
      Shared.Element(player, savedTime)
    }

    constructor (defaultImageFound: bool)
      ensures State() == Shared.Element(Some(NewPlayer), 0.0) && updateHooked
      ensures picture == (if defaultImageFound then Shared.DefaultPicture else Shared.NoPicture)
    {
      player := Some(NewPlayer);
      savedTime := 0.0;
      picture := if defaultImageFound then Shared.DefaultPicture else Shared.NoPicture;
      updateHooked := true;
    }

    method Play()
      modifies this
      ensures State() == PlayOf(old(State()))
      ensures picture == old(picture) && updateHooked == old(updateHooked)
    {
      if player.Some? && !player.value.isPlaying {
        player := Some(player.value.(isPlaying := true, time := savedTime));
      }
    }

    method Pause()
      modifies this
      ensures State() == Shared.PauseOf(old(State()))
      ensures picture == old(picture) && updateHooked == old(updateHooked)
    {
      if player.Some? && player.value.isPlaying {
        var p := player.value;
        player := Some(p.(isPlaying := false));
        savedTime := p.time;
      }
    }

    method Stop()
      modifies this
      ensures State() == Shared.StopOf(old(State()))
      ensures picture == old(picture) && updateHooked == old(updateHooked)
    {
      if player.Some? {
        player := Some(player.value.(isPlaying := false, time := 0.0));
      }
    }

    method NextFrame(n: int)
      modifies this
      ensures old(player).None? ==> player.None?
      ensures old(player).Some? ==> player == Some(Shared.NextFrameOf(old(player).value, n))
      ensures savedTime == old(savedTime) && picture == old(picture) && updateHooked == old(updateHooked)
    {
      if player.None? || player.value.isPlaying {
        return;
      }
      var p := player.value;
      if 0 <= p.frame + n <= p.frameCount {
        player := Some(p.(frame := p.frame + n));
      }
    }

    method PreviousFrame(n: int)
      modifies this
      ensures old(player).None? ==> player.None?
      ensures old(player).Some? ==> player == Some(Shared.PreviousFrameOf(old(player).value, n))
      ensures savedTime == old(savedTime) && picture == old(picture) && updateHooked == old(updateHooked)
    {
      if player.None? || player.value.isPlaying {
        return;
      }
      var p := player.value;
      if p.frame - n >= 0 {
        player := Some(p.(frame := p.frame - n));
      }
    }

    method GoToStart()
      requires player.Some?
      modifies this
      ensures player == Some(Shared.Navigate(old(player).value, Shared.ToStart))
      ensures savedTime == old(savedTime) && picture == old(picture) && updateHooked == old(updateHooked)
    {
      player := Some(player.value.(frame := 0));
    }

    method GoToEnd()
      requires player.Some?
      modifies this
      ensures player == Some(Shared.Navigate(old(player).value, Shared.ToEnd))
      ensures savedTime == old(savedTime) && picture == old(picture) && updateHooked == old(updateHooked)
    {
      player := Some(player.value.(frame := player.value.frameCount - 1));
    }

    method SetFrame(f: int)
      modifies this
      ensures State() == SetFrameOf(old(State()), f)
      ensures picture == old(picture) && updateHooked == old(updateHooked)
    {
      if player.None? {
        return;
      }
      if 0 <= f < player.value.frameCount {
        player := Some(player.value.(frame := f));
      }
    }

    /** The editor tick: a playing, prepared player's texture replaces the picture. */
    method UpdateVideoFrame(isPrepared: bool)
      requires player.Some?
      modifies this
      ensures State() == old(State()) && updateHooked == old(updateHooked)
      ensures picture == (if player.value.isPlaying && isPrepared then Shared.VideoTexture else old(picture))
    {
      if !player.value.isPlaying {
        return;
      }
      if isPrepared {
        picture := Shared.VideoTexture;
      }
    }

    method OnDetachFromPanel()
      modifies this
      ensures player.None? && !updateHooked
      ensures savedTime == old(savedTime) && picture == old(picture)
    {
      updateHooked := false;
      if player.Some? {
        Stop();
        player := None;
      }
    }

    function IsPlaying(): (r: bool)
      requires player.Some?
      reads this
      ensures r == player.value.isPlaying
    {
      player.value.isPlaying
    }

    /** GetVideoLength and GetVideoLengthSeconds: the clip length, 0 once destroyed. */
    function GetVideoLengthSeconds(): (r: real)
      reads this
      ensures r == Shared.LengthSecondsOf(player)
    {
      Shared.LengthSecondsOf(player)
    }

    function GetCurrentTime(): (r: real)
      reads this
      ensures r == Shared.CurrentTimeOf(player)
    {
      Shared.CurrentTimeOf(player)
    }

    function GetVideoLengthFrames(): (r: int)
      reads this
      ensures r == Shared.LengthFramesOf(player)
    {
      Shared.LengthFramesOf(player)
    }

    function GetCurrentFrame(): (r: int)
      reads this
      ensures r == Shared.CurrentFrameOf(player)
    {
      Shared.CurrentFrameOf(player)
    }
  }
}
