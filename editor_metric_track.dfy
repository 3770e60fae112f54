/**
 * MetricTrack (Assets/_Project/Editor/Track/MetricTrack.cs): the older
 * metric row, which draws a red box per instance. Unlike UIMetricTrack it
 * stops at the first instance without a "time" entry, and places an
 * instance whose time does not parse at time 0 (float.TryParse leaves 0
 * in its out parameter on failure).
 */
module EditorMetricBoxes {
  import opened Base
  import opened KeyValueStore
  import opened Tracks
  import opened ScriptsMetricTrack

  datatype Box = Box(leftPercent: real)

  /** The box colour: Unity's Color.red. */
  const BoxColor: Color := Rgb(1.0, 0.0, 0.0)

  predicate HasTime(instance: Instance)
  {
    Find(Collapse(instance), "time").Some?
  }

  /** The time a box is placed at: the parsed "time", or 0 when it does not parse. */
  function BoxTime(instance: Instance, tryParse: FloatParser): real
    requires HasTime(instance)
  {
    match tryParse(Find(Collapse(instance), "time").value)
    case None => 0.0
    case Some(t) => t
  }

  /** How many leading instances have a "time" entry: where InitializeBoxes stops. */
  function TimedPrefix(instances: seq<Instance>): (n: nat)
    ensures n <= |instances|
    ensures forall j :: 0 <= j < n ==> HasTime(instances[j])
    ensures n < |instances| ==> !HasTime(instances[n])
  {
    if instances == [] || !HasTime(instances[0]) then 0
    else
      assert forall j :: 1 <= j < |instances| ==> instances[j] == instances[1..][j - 1];
      1 + TimedPrefix(instances[1..])
  }

  /** One box per instance, all of which have a time. */
  function BoxRow(instances: seq<Instance>, totalDuration: real, tryParse: FloatParser): (boxes: seq<Box>)
    requires totalDuration != 0.0
    requires forall j :: 0 <= j < |instances| ==> HasTime(instances[j])
    ensures |boxes| == |instances|
    decreases |instances|
  {
    if instances == [] then []
    else
      BoxRow(instances[..|instances| - 1], totalDuration, tryParse)
        + [Box(LeftPercent(BoxTime(instances[|instances| - 1], tryParse), totalDuration))]
  }

  /** The boxes InitializeBoxes draws: those of the instances before the first one without a time. */
  function BoxesFor(instances: seq<Instance>, totalDuration: real, tryParse: FloatParser): seq<Box>
    requires totalDuration != 0.0
  {
    var n := TimedPrefix(instances);
    BoxRow(instances[..n], totalDuration, tryParse)
  }

  lemma {:induction false} BoxRowAt(instances: seq<Instance>, total: real, tryParse: FloatParser, k: nat)
    requires total != 0.0
    requires forall j :: 0 <= j < |instances| ==> HasTime(instances[j])
    requires k < |instances|
    ensures BoxRow(instances, total, tryParse)[k] == Box(LeftPercent(BoxTime(instances[k], tryParse), total))
    decreases |instances|
  {
    if k < |instances| - 1 {
      BoxRowAt(instances[..|instances| - 1], total, tryParse, k);
    }
  }

  /**
   * The k-th box belongs to the k-th instance, there is one box per leading
   * timed instance, and an unparseable time puts the box at the start.
   */
  lemma BoxesForMeaning(instances: seq<Instance>, total: real, tryParse: FloatParser)
    requires total != 0.0
    ensures |BoxesFor(instances, total, tryParse)| == TimedPrefix(instances)
    ensures forall k :: 0 <= k < TimedPrefix(instances) ==>
      BoxesFor(instances, total, tryParse)[k] == Box(LeftPercent(BoxTime(instances[k], tryParse), total))
    ensures forall k :: 0 <= k < TimedPrefix(instances) && tryParse(Find(Collapse(instances[k]), "time").value).None? ==>
      BoxesFor(instances, total, tryParse)[k].leftPercent == 0.0
  {
    var n := TimedPrefix(instances);
    forall k | 0 <= k < n
      ensures BoxesFor(instances, total, tryParse)[k] == Box(LeftPercent(BoxTime(instances[k], tryParse), total))
    {
      BoxRowAt(instances[..n], total, tryParse, k);
    }
    assert LeftPercent(0.0, total) == 0.0 by {
      assert 0.0 / total == 0.0;
    }
  }

  /**
   * The difference from UIMetricTrack: an instance without a time hides
   * every later instance from MetricTrack, while UIMetricTrack just skips it.
   */
  lemma UntimedInstanceStopsBoxes(a: seq<Instance>, x: Instance, b: seq<Instance>, total: real, tryParse: FloatParser, color: Color)
    requires total != 0.0
    requires forall j :: 0 <= j < |a| ==> HasTime(a[j])
    requires !HasTime(x)
    ensures BoxesFor(a + [x] + b, total, tryParse) == BoxRow(a, total, tryParse)
    ensures MarkersFor(a + [x] + b, total, tryParse, color) == MarkersFor(a, total, tryParse, color) + MarkersFor(b, total, tryParse, color)
  {
    var s := a + [x] + b;
    assert s[|a|] == x;
    assert forall j :: 0 <= j < |a| ==> s[j] == a[j];
    assert TimedPrefix(s) == |a| by {
      TimedPrefixIs(s, |a|);
    }
    assert s[..|a|] == a;
    MarkersForAppend(a + [x], b, total, tryParse, color);
    MarkersForAppend(a, [x], total, tryParse, color);
    MarkersForOne(x, total, tryParse, color);
    CollapseLastWins(x, "time");
  }

  /** TimedPrefix is the index of the first instance without a time. */
  lemma {:induction false} TimedPrefixIs(s: seq<Instance>, n: nat)
    requires n <= |s|
    requires forall j :: 0 <= j < n ==> HasTime(s[j])
    requires n < |s| ==> !HasTime(s[n])
    ensures TimedPrefix(s) == n
  {
  }

  /** InitializeBoxes' loop: a box per instance until the first one without a time. */
  method InitializeBoxes(instances: seq<Instance>, totalDuration: real, tryParse: FloatParser) returns (boxes: seq<Box>)
    requires totalDuration != 0.0
    ensures boxes == BoxesFor(instances, totalDuration, tryParse)
  {
    boxes := [];
    if |instances| == 0 {
      return;
    }
    var n := TimedPrefix(instances);
    var i := 0;
    while i < |instances|
      invariant 0 <= i <= n
      invariant boxes == BoxRow(instances[..i], totalDuration, tryParse)
    {
      var dictionary := Collapse(instances[i]);
      var timeValue := Find(dictionary, "time");
      var time := 0.0;
      if timeValue.Some? {
        var parsed := tryParse(timeValue.value);
        if parsed.Some? {
          time := parsed.value;
        }
      } else {
        assert i == n;
        return;
      }
      assert time == BoxTime(instances[i], tryParse);
      assert instances[..i + 1][..i] == instances[..i];
      var normalizedTime := time / totalDuration;
      boxes := boxes + [Box(normalizedTime * 100.0)];
      i := i + 1;
    }
    assert instances[..i] == instances[..n];
  }

  class MetricTrack {
    /** The track; null when the constructor rejected it. */
    var track: Option<Track>
    /** Whether StartInitialization is subscribed to OnResize. */
    var resizeHooked: bool
    var initialized: bool
    /** The boxes added to the information container, in order. */
    var boxes: seq<Box>
    var errors: seq<string>

    constructor (t: Track)
      ensures t.trackType == Metric ==> track == Some(t) && resizeHooked && errors == []
      ensures t.trackType != Metric ==>
        track.None? && !resizeHooked
        && errors == ["Tried creating metric track from a track that is not a metric, track type:" + TrackTypeName(t.trackType)]
      ensures !initialized && boxes == []
    {
      initialized := false;
      boxes := [];
      if t.trackType != Metric {
        errors := ["Tried creating metric track from a track that is not a metric, track type:" + TrackTypeName(t.trackType)];
        track := None;
        resizeHooked := false;
      } else {
        errors := [];
        track := Some(t);
        resizeHooked := true;
      }
    }

    /** StartInitialization: the first call with a non-zero video length draws the boxes, once. */
    method StartInitialization(totalTime: real, tryParse: FloatParser)
      requires track.Some?
      modifies this
      ensures track == old(track) && resizeHooked == old(resizeHooked) && errors == old(errors)
      ensures old(initialized) || totalTime == 0.0 ==> initialized == old(initialized) && boxes == old(boxes)
      ensures !old(initialized) && totalTime != 0.0 ==>
        initialized && boxes == old(boxes) + BoxesFor(track.value.instances, totalTime, tryParse)
    {
      if initialized || totalTime == 0.0 {
        return;
      }
      initialized := true;
      var created := InitializeBoxes(track.value.instances, totalTime, tryParse);
      boxes := boxes + created;
    }
  }
}
