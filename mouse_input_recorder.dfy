/**
 * MouseInputRecorder (Assets/_Project/Tracks/MouseInputRecorder.cs): a
 * metric track with one instance per mouse-button press, written to
 * Mouse.json when the component is destroyed.
 *
 * Unity's input and clock are parameters of Update: whether each button
 * went down this frame, and the text that float.ToString() gives for the
 * time since startup and for the mouse position's coordinates.
 */
module MouseRecording {
  import opened Base
  import opened KeyValueStore
  import opened Tracks

  /** The position value: "x:{x}, y:{y}, z:{z}". */
  function PositionText(x: string, y: string, z: string): string
  {
    "x:" + x + ", y:" + y + ", z:" + z
  }

  /** The instance one press records: time, button, position, in that order. */
  function ClickInstance(timeText: string, button: string, positionText: string): Instance
  {
    [Pair("time", timeText), Pair("button", button), Pair("position", positionText)]
  }

  /** A recorded press has exactly the keys time, button and position, with the values given. */
  lemma ClickInstanceLookup(timeText: string, button: string, positionText: string)
    ensures var d := Collapse(ClickInstance(timeText, button, positionText));
      d == ClickInstance(timeText, button, positionText)
      && Find(d, "time") == Some(timeText) && Find(d, "button") == Some(button)
      && Find(d, "position") == Some(positionText)
  {
    var i := ClickInstance(timeText, button, positionText);
    assert "time" != "button" && "time" != "position" && "button" != "position";
    assert i[..2][..1] == [i[0]] && [i[0]][..0] == [];
    assert Collapse([i[0]]) == [i[0]];
    assert IndexOfKey([i[0]], "button") == 1;
    assert Collapse(i[..2]) == [i[0], i[1]];
    assert IndexOfKey([i[0], i[1]], "position") == 2;
    assert i[..3] == i;
    assert Collapse(i) == i;
    assert i[1..][1..] == [i[2]];
    assert Find(i[1..], "button") == Some(button);
    assert Find(i[1..], "position") == Find([i[2]], "position");
  }

  const MouseTrackName: string := "Mouse Input Track"
  const MouseIconName: string := "Mouse.png"

  class MouseInputRecorder {
    /** The track built in Start; null before Start runs. */
    var mouseTrack: Option<Track>

    constructor ()
      ensures mouseTrack.None?
    {
      mouseTrack := None;
    }

    /** Start: an empty Metric track named "Mouse Input Track" with the icon "Mouse.png". */
    method Start()
      modifies this
      ensures mouseTrack == Some(Track(Metric, MouseIconName, MouseTrackName, Color(0.0, 0.0, 0.0, 0.0), []))
    {
      mouseTrack := Some(Track(Metric, MouseIconName, MouseTrackName, Color(0.0, 0.0, 0.0, 0.0), []));
    }

    /** Records one instance per button that went down this frame, Left before Right. */
    method RecordPress(button: string, timeText: string, positionText: string)
      requires mouseTrack.Some?
      modifies this
      ensures mouseTrack.Some?
      ensures mouseTrack.value == old(mouseTrack.value).(instances := old(mouseTrack.value).instances + [ClickInstance(timeText, button, positionText)])
    {
      var instance := new SerializableDictionary();
      instance.Add("time", timeText);
      instance.Add("button", button);
      instance.Add("position", positionText);
      assert instance.keyValuePairs == ClickInstance(timeText, button, positionText);
      var t := mouseTrack.value;
      mouseTrack := Some(t.(instances := t.instances + [instance.keyValuePairs]));
    }

    /**
     * Update: a left press appends a "Left" instance, then a right press a
     * "Right" one; with no press the track is unchanged. Start runs before
     * the first Update.
     */
    method Update(leftDown: bool, rightDown: bool, timeText: string, x: string, y: string, z: string)
      requires mouseTrack.Some?
      modifies this
      ensures mouseTrack.Some?
      ensures var position := PositionText(x, y, z);
        mouseTrack.value == old(mouseTrack.value).(instances := old(mouseTrack.value).instances
          + (if leftDown then [ClickInstance(timeText, "Left", position)] else [])
          + (if rightDown then [ClickInstance(timeText, "Right", position)] else []))
    {
      var position := PositionText(x, y, z);
      if leftDown {
        RecordPress("Left", timeText, position);
      }
      if rightDown {
        RecordPress("Right", timeText, position);
      }
    }

    /** OnDestroy: the one-track array and the file it is written to. */
    method OnDestroy(videoOutputPath: string) returns (path: string, tracks: seq<Option<Track>>)
      ensures path == videoOutputPath + "/Mouse.json"
      ensures tracks == [mouseTrack]
    {
      path := videoOutputPath + "/Mouse.json";
      tracks := [mouseTrack];
    }
  }
}
