/**
 * UIVideoPlayer, EditorScripts revision
 * (Assets/_Project/EditorScripts/VideoPlayer/UIVideoPlayer.cs): a UI element
 * wrapping Unity's VideoPlayer. Play and Pause hand a saved time back and
 * forth, frame stepping works only while paused and within the clip, and
 * SetFrame stores the chosen frame as a fraction of the clip.
 *
 * Unity's player is a record of the properties the element reads and
 * writes; its decoding, its clock while playing and its preparation are the
 * environment's and may change the record between calls.
 */
module ScriptsVideoPlayer {
  import opened Base
  import opened UnityMath

  /** Unity's VideoPlayer as the element sees it. */
  datatype Player = Player(url: string, frame: int, frameCount: nat, isPlaying: bool, time: real, length: real)

  /** The element's playback state: the player (None once destroyed) and the saved time Play seeks to. */
  datatype Element = Element(player: Option<Player>, savedTime: real)

  /** What the renderer image shows. */
  datatype Picture = NoPicture | DefaultPicture | VideoLoadedPicture | VideoTexture

  /** The player InitializeVideoPlayer creates: no url, paused, nothing decoded. */
  const NewPlayer := Player("", 0, 0, false, 0.0, 0.0)

  /**
   * NextFrame(n): only while paused, and only when frame + n lies in
   * [0, frameCount]; the sum is cast to ulong, so a negative sum never passes.
   */
  function NextFrameOf(p: Player, n: int): (q: Player)
    ensures q.url == p.url && q.frameCount == p.frameCount && q.isPlaying == p.isPlaying
    ensures q.time == p.time && q.length == p.length
    ensures !p.isPlaying && 0 <= p.frame + n <= p.frameCount ==> q.frame == p.frame + n
    ensures q.frame != p.frame ==> !p.isPlaying && q.frame == p.frame + n && 0 <= q.frame <= p.frameCount
  {
    if !p.isPlaying && 0 <= p.frame + n <= p.frameCount then p.(frame := p.frame + n) else p
  }

  /** PreviousFrame(n): only while paused, and only when frame − n is not negative. */
  function PreviousFrameOf(p: Player, n: int): (q: Player)
    ensures q.url == p.url && q.frameCount == p.frameCount && q.isPlaying == p.isPlaying
    ensures q.time == p.time && q.length == p.length
    ensures !p.isPlaying && p.frame - n >= 0 ==> q.frame == p.frame - n
    ensures q.frame != p.frame ==> !p.isPlaying && q.frame == p.frame - n && q.frame >= 0
  {
    if !p.isPlaying && p.frame - n >= 0 then p.(frame := p.frame - n) else p
  }

  /** The four navigation buttons a controller wires to the player. */
  datatype Navigation = Next(count: int) | Previous(count: int) | ToStart | ToEnd

  function Navigate(p: Player, step: Navigation): Player
  {
    match step
    case Next(n) => NextFrameOf(p, n)
    case Previous(n) => PreviousFrameOf(p, n)
    case ToStart => p.(frame := 0)
    case ToEnd => p.(frame := p.frameCount - 1)
  }

  /** A run of navigation steps, applied in order. */
  function NavigateAll(p: Player, steps: seq<Navigation>): Player
    decreases |steps|
  {
    if steps == [] then p else Navigate(NavigateAll(p, steps[..|steps| - 1]), steps[|steps| - 1])
  }

  /**
   * On a clip with frames, starting from a frame in [0, frameCount], no run
   * of navigation steps (stepping back by non-negative counts) leaves
   * [0, frameCount]; navigation never touches the url, the clock or the
   * playing flag. frameCount itself is reachable: NextFrame allows
   * frame + n == frameCount.
   */
  lemma {:induction false} NavigationKeepsFrameInRange(p: Player, steps: seq<Navigation>)
    requires p.frameCount > 0 && 0 <= p.frame <= p.frameCount
    requires forall i :: 0 <= i < |steps| && steps[i].Previous? ==> steps[i].count >= 0
    ensures var q := NavigateAll(p, steps);
      0 <= q.frame <= q.frameCount && q.frameCount == p.frameCount
      && q.url == p.url && q.isPlaying == p.isPlaying && q.time == p.time && q.length == p.length
    decreases |steps|
  {
    if steps != [] {
      var front := steps[..|steps| - 1];
      forall i | 0 <= i < |front| && front[i].Previous?
        ensures front[i].count >= 0
      {
        assert front[i] == steps[i];
      }
      NavigationKeepsFrameInRange(p, front);
    }
  }

  /** While the video plays, frame stepping in either direction changes nothing. */
  lemma {:induction false} SteppingWhilePlayingIsInert(p: Player, steps: seq<Navigation>)
    requires p.isPlaying
    requires forall i :: 0 <= i < |steps| ==> steps[i].Next? || steps[i].Previous?
    ensures NavigateAll(p, steps) == p
    decreases |steps|
  {
    if steps != [] {
      var front := steps[..|steps| - 1];
      forall i | 0 <= i < |front|
        ensures front[i].Next? || front[i].Previous?
      {
        assert front[i] == steps[i];
      }
      SteppingWhilePlayingIsInert(p, front);
      assert steps[|steps| - 1].Next? || steps[|steps| - 1].Previous?;
    }
  }

  /** A step forward that moved is undone by the same step back, and the other way round. */
  lemma NextPreviousInverse(p: Player, n: int)
    requires 0 <= p.frame <= p.frameCount
    ensures NextFrameOf(p, n).frame != p.frame ==> PreviousFrameOf(NextFrameOf(p, n), n) == p
    ensures PreviousFrameOf(p, n).frame != p.frame ==> NextFrameOf(PreviousFrameOf(p, n), n) == p
  {
  }

  /**
   * GoToEnd puts the frame on frameCount − 1, and one NextFrame from there
   * reaches frameCount, a frame that SetFrame itself would refuse.
   */
  lemma NextFromEndPassesLastFrame(p: Player)
    requires !p.isPlaying && p.frameCount > 0
    ensures var q := NextFrameOf(Navigate(p, ToEnd), 1);
      q.frame == p.frameCount && !(q.frame < q.frameCount)
  {
  }

  /** Pause: only while playing; the player's time becomes the saved time. */
  function PauseOf(e: Element): (r: Element)
    ensures e.player.None? || !e.player.value.isPlaying ==> r == e
    ensures e.player.Some? && e.player.value.isPlaying ==>
      r.player == Some(e.player.value.(isPlaying := false)) && r.savedTime == e.player.value.time
  {
    match e.player
    case Some(p) => if p.isPlaying then Element(Some(p.(isPlaying := false)), p.time) else e
    case None => e
  }

  /**
   * Play: the url is read before any check, so the player must exist; an
   * empty url does nothing, and a paused player starts and seeks to the
   * saved time.
   */
  function PlayOf(e: Element): (r: Element)
    requires e.player.Some?
    ensures r.savedTime == e.savedTime && r.player.Some?
    ensures e.player.value.url == "" || e.player.value.isPlaying ==> r == e
    ensures e.player.value.url != "" ==> r.player.value.isPlaying
    ensures e.player.value.url != "" && !e.player.value.isPlaying ==>
      r.player.value == e.player.value.(isPlaying := true, time := e.savedTime)
  {
    var p := e.player.value;
    if p.url == "" || p.isPlaying then e else Element(Some(p.(isPlaying := true, time := e.savedTime)), e.savedTime)
  }

  /** Stop: Unity's Stop halts playback and rewinds the clock to 0. */
  function StopOf(e: Element): (r: Element)
    ensures r.savedTime == e.savedTime
    ensures e.player.None? ==> r.player.None?
    ensures e.player.Some? ==> r.player == Some(e.player.value.(isPlaying := false, time := 0.0))
  {
    match e.player
    case Some(p) => Element(Some(p.(isPlaying := false, time := 0.0)), e.savedTime)
    case None => e
  }

  /**
   * SetFrame(f): only for 0 <= f < frameCount; it moves to the frame and
   * saves clamp01(f / frameCount), a fraction of the clip.
   */
  function SetFrameOf(e: Element, f: int): (r: Element)
    ensures e.player.None? || !(0 <= f < e.player.value.frameCount) ==> r == e
    ensures e.player.Some? && 0 <= f < e.player.value.frameCount ==>
      r.player == Some(e.player.value.(frame := f)) && 0.0 <= r.savedTime < 1.0
  {
    match e.player
    case Some(p) =>
      if 0 <= f < p.frameCount then
        FractionBelowOne(f, p.frameCount);
        Element(Some(p.(frame := f)), Clamp01(f as real / p.frameCount as real))
      else e
    case None => e
  }

  lemma FractionBelowOne(f: nat, n: nat)
    requires f < n
    ensures 0.0 <= f as real / n as real < 1.0
    ensures Clamp01(f as real / n as real) == f as real / n as real
  {
    assert (f as real / n as real) * n as real == f as real;
  }

  /** Pausing and playing again resumes exactly where playback was. */
  lemma PauseThenPlayResumes(e: Element)
    requires e.player.Some? && e.player.value.isPlaying && e.player.value.url != ""
    ensures PlayOf(PauseOf(e)).player == e.player
  {
  }

  /**
   * After SetFrame(f) on a paused clip with a url, Play seeks to f / frameCount
   * seconds: a fraction below one second, whatever the clip's length.
   */
  lemma PlayAfterSetFrameSeeksToFraction(e: Element, f: int)
    requires e.player.Some? && !e.player.value.isPlaying && e.player.value.url != ""
    requires 0 <= f < e.player.value.frameCount
    ensures var r := PlayOf(SetFrameOf(e, f));
      r.player.value.frame == f && r.player.value.isPlaying
      && r.player.value.time == f as real / e.player.value.frameCount as real && r.player.value.time < 1.0
  {
    FractionBelowOne(f, e.player.value.frameCount);
  }

  /** The getters read 0 from a destroyed player. */
  function LengthSecondsOf(player: Option<Player>): (r: real)
    ensures player.None? ==> r == 0.0
    ensures player.Some? ==> r == player.value.length
  {
    if player.Some? then player.value.length else 0.0
  }

  function CurrentTimeOf(player: Option<Player>): (r: real)
    ensures player.None? ==> r == 0.0
    ensures player.Some? ==> r == player.value.time
  {
    if player.Some? then player.value.time else 0.0
  }

  function LengthFramesOf(player: Option<Player>): (r: int)
    ensures player.None? ==> r == 0
    ensures player.Some? ==> r == player.value.frameCount
  {
    if player.Some? then player.value.frameCount else 0
  }

  function CurrentFrameOf(player: Option<Player>): (r: int)
    ensures player.None? ==> r == 0
    ensures player.Some? ==> r == player.value.frame
  {
    if player.Some? then player.value.frame else 0
  }

  /**
   * The length in seconds the getters report belongs to the clip: Play,
   * Pause, Stop, SetFrame and frame navigation never change it.
   */
  lemma ControlsKeepLengthSeconds(e: Element, f: int, step: Navigation)
    ensures LengthSecondsOf(PauseOf(e).player) == LengthSecondsOf(e.player)
    ensures LengthSecondsOf(StopOf(e).player) == LengthSecondsOf(e.player)
    ensures LengthSecondsOf(SetFrameOf(e, f).player) == LengthSecondsOf(e.player)
    ensures e.player.Some? ==>
      LengthSecondsOf(PlayOf(e).player) == LengthSecondsOf(e.player)
      && LengthSecondsOf(Some(Navigate(e.player.value, step))) == LengthSecondsOf(e.player)
  {
  }

  /** The frame count the getters report is likewise fixed by the clip. */
  lemma ControlsKeepFrameCount(e: Element, f: int, step: Navigation)
    ensures LengthFramesOf(PauseOf(e).player) == LengthFramesOf(e.player)
    ensures LengthFramesOf(StopOf(e).player) == LengthFramesOf(e.player)
    ensures LengthFramesOf(SetFrameOf(e, f).player) == LengthFramesOf(e.player)
    ensures e.player.Some? ==>
      LengthFramesOf(PlayOf(e).player) == LengthFramesOf(e.player)
      && LengthFramesOf(Some(Navigate(e.player.value, step))) == LengthFramesOf(e.player)
  {
  }

  /**
   * The current time the getters report: Stop rewinds it to 0, Pause keeps
   * it and saves it, Play seeks to the saved time, so pausing and playing
   * again reports the same time as before.
   */
  lemma ReportedTimeAfterControls(e: Element)
    ensures e.player.Some? ==> CurrentTimeOf(StopOf(e).player) == 0.0
    ensures CurrentTimeOf(PauseOf(e).player) == CurrentTimeOf(e.player)
    ensures e.player.Some? && e.player.value.isPlaying ==> PauseOf(e).savedTime == CurrentTimeOf(e.player)
    ensures e.player.Some? && e.player.value.url != "" && !e.player.value.isPlaying ==>
      CurrentTimeOf(PlayOf(e).player) == e.savedTime
    ensures e.player.Some? && e.player.value.url != "" && e.player.value.isPlaying ==>
      CurrentTimeOf(PlayOf(PauseOf(e)).player) == CurrentTimeOf(e.player)
  {
  }

  /**
   * The current frame the getters report after SetFrame(f): f when it lies
   * in [0, frame count), the old frame otherwise; a frame in
   * [0, frame count] stays there either way.
   */
  lemma ReportedFrameAfterSetFrame(e: Element, f: int)
    ensures 0 <= f < LengthFramesOf(e.player) ==> CurrentFrameOf(SetFrameOf(e, f).player) == f
    ensures !(0 <= f < LengthFramesOf(e.player)) ==> CurrentFrameOf(SetFrameOf(e, f).player) == CurrentFrameOf(e.player)
    ensures 0 <= CurrentFrameOf(e.player) <= LengthFramesOf(e.player) ==>
      0 <= CurrentFrameOf(SetFrameOf(e, f).player) <= LengthFramesOf(SetFrameOf(e, f).player)
  {
  }

  /**
   * The playing flag IsPlaying reports: Play starts a clip with a url, Pause
   * and Stop halt it, SetFrame and frame navigation leave it alone.
   */
  lemma ReportedPlayingAfterControls(e: Element, f: int, step: Navigation)
    requires e.player.Some?
    ensures PlayOf(e).player.value.isPlaying == (e.player.value.url != "" || e.player.value.isPlaying)
    ensures PauseOf(e).player.Some? && !PauseOf(e).player.value.isPlaying
    ensures StopOf(e).player.Some? && !StopOf(e).player.value.isPlaying
    ensures SetFrameOf(e, f).player.Some? && SetFrameOf(e, f).player.value.isPlaying == e.player.value.isPlaying
    ensures Navigate(e.player.value, step).isPlaying == e.player.value.isPlaying
  {
  }

  /** The path GetVideoPath reports is the one SetVideo stored: no playback control changes it. */
  lemma ControlsKeepUrl(e: Element, f: int, step: Navigation)
    requires e.player.Some?
    ensures PlayOf(e).player.value.url == e.player.value.url
    ensures PauseOf(e).player.Some? && PauseOf(e).player.value.url == e.player.value.url
    ensures StopOf(e).player.Some? && StopOf(e).player.value.url == e.player.value.url
    ensures SetFrameOf(e, f).player.Some? && SetFrameOf(e, f).player.value.url == e.player.value.url
    ensures Navigate(e.player.value, step).url == e.player.value.url
  {
  }

  class UIVideoPlayer {
    var player: Option<Player>
    var savedTime: real
    var picture: Picture
    /** Whether UpdateVideoFrame is registered on the editor's update loop. */
    var updateHooked: bool

    function State(): Element
      reads this
    {
      Element(player, savedTime)
    }

    /** The element shows the default image when it exists and creates a fresh player. */
    constructor (defaultImageFound: bool)
      ensures State() == Element(Some(NewPlayer), 0.0) && updateHooked
      ensures picture == (if defaultImageFound then DefaultPicture else NoPicture)
    {
      player := Some(NewPlayer);
      savedTime := 0.0;
      picture := if defaultImageFound then DefaultPicture else NoPicture;
      updateHooked := true;
    }

    /**
     * SetVideo points the player at a url and shows the "video loaded" image;
     * `imageFound` says whether the asset lookup found it, and a miss clears
     * the picture.
     */
    method SetVideo(path: string, imageFound: bool)
      requires player.Some?
      modifies this
      ensures player == Some(old(player).value.(url := path))
      ensures picture == (if imageFound then VideoLoadedPicture else NoPicture)
      ensures savedTime == old(savedTime) && updateHooked == old(updateHooked)
      ensures GetVideoPath() == path
    {
      player := Some(player.value.(url := path));
      picture := if imageFound then VideoLoadedPicture else NoPicture;
    }

    method Play()
      requires player.Some?
      modifies this
      ensures State() == PlayOf(old(State()))
      ensures picture == old(picture) && updateHooked == old(updateHooked)
    {
      var p := player.value;
      if p.url == "" {
        return;
      }
      if !p.isPlaying {
        player := Some(p.(isPlaying := true, time := savedTime));
      }
    }

    method Pause()
      modifies this
      ensures State() == PauseOf(old(State()))
      ensures picture == old(picture) && updateHooked == old(updateHooked)
    {
      if player.Some? && player.value.isPlaying {
        var p := player.value;
        player := Some(p.(isPlaying := false));
        savedTime := p.time;
      }
    }

    method Stop()
      modifies this
      ensures State() == StopOf(old(State()))
      ensures picture == old(picture) && updateHooked == old(updateHooked)
    {
      if player.Some? {
        player := Some(player.value.(isPlaying := false, time := 0.0));
      }
    }

    /** NextFrame; the repaint it asks for does nothing while paused. */
    method NextFrame(n: int)
      modifies this
      ensures old(player).None? ==> player.None?
      ensures old(player).Some? ==> player == Some(NextFrameOf(old(player).value, n))
      ensures savedTime == old(savedTime) && picture == old(picture) && updateHooked == old(updateHooked)
    {
      if player.None? || player.value.isPlaying {
        return;
      }
      var p := player.value;
      if 0 <= p.frame + n <= p.frameCount {
        player := Some(p.(frame := p.frame + n));
      }
    }

    method PreviousFrame(n: int)
      modifies this
      ensures old(player).None? ==> player.None?
      ensures old(player).Some? ==> player == Some(PreviousFrameOf(old(player).value, n))
      ensures savedTime == old(savedTime) && picture == old(picture) && updateHooked == old(updateHooked)
    {
      if player.None? || player.value.isPlaying {
        return;
      }
      var p := player.value;
      if p.frame - n >= 0 {
        player := Some(p.(frame := p.frame - n));
      }
    }

    method GoToStart()
      requires player.Some?
      modifies this
      ensures player == Some(Navigate(old(player).value, ToStart))
      ensures savedTime == old(savedTime) && picture == old(picture) && updateHooked == old(updateHooked)
    {
      player := Some(player.value.(frame := 0));
    }

    method GoToEnd()
      requires player.Some?
      modifies this
      ensures player == Some(Navigate(old(player).value, ToEnd))
      ensures savedTime == old(savedTime) && picture == old(picture) && updateHooked == old(updateHooked)
    {
      player := Some(player.value.(frame := player.value.frameCount - 1));
    }

    method SetFrame(f: int)
      modifies this
      ensures State() == SetFrameOf(old(State()), f)
      ensures picture == old(picture) && updateHooked == old(updateHooked)
    {
      if player.None? {
        return;
      }
      var p := player.value;
      if 0 <= f < p.frameCount {
        player := Some(p.(frame := f));
        FractionBelowOne(f, p.frameCount);
        savedTime := Clamp01(f as real / p.frameCount as real);
      }
    }

    /** The editor tick: a playing, prepared player's texture replaces the picture. */
    method UpdateVideoFrame(isPrepared: bool)
      requires player.Some?
      modifies this
      ensures State() == old(State()) && updateHooked == old(updateHooked)
      ensures picture == (if player.value.isPlaying && isPrepared then VideoTexture else old(picture))
    {
      if !player.value.isPlaying {
        return;
      }
      if isPrepared {
        picture := VideoTexture;
      }
    }

    /** Detaching unhooks the tick, stops the player and destroys it. */
    method OnDetachFromPanel()
      modifies this
      ensures player.None? && !updateHooked
      ensures savedTime == old(savedTime) && picture == old(picture)
    {
      updateHooked := false;
      if player.Some? {
        Stop();
        player := None;
      }
    }

    function IsPlaying(): (r: bool)
      requires player.Some?
      reads this
      ensures r == player.value.isPlaying
    {
      player.value.isPlaying
    }

    function GetVideoPath(): (r: string)
      requires player.Some?
      reads this
      ensures r == player.value.url
    {
      player.value.url
    }

    /** GetVideoLength and GetVideoLengthSeconds: the clip length, 0 once destroyed. */
    function GetVideoLengthSeconds(): (r: real)
      reads this
      ensures r == LengthSecondsOf(player)
    {
      LengthSecondsOf(player)
    }

    function GetCurrentTime(): (r: real)
      reads this
      ensures r == CurrentTimeOf(player)
    {
      CurrentTimeOf(player)
    }

    function GetVideoLengthFrames(): (r: int)
      reads this
      ensures r == LengthFramesOf(player)
    {
      LengthFramesOf(player)
    }

    function GetCurrentFrame(): (r: int)
      reads this
      ensures r == CurrentFrameOf(player)
    {
      CurrentFrameOf(player)
    }
  }
}
