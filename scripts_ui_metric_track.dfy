/**
 * UIMetricTrack, EditorScripts revision
 * (Assets/_Project/EditorScripts/Track/UIMetricTrack.cs): a timeline row that
 * draws one diamond marker per instance that records a parseable "time",
 * placed at that time as a percentage of the video length, with a tooltip
 * listing the instance's entries.
 *
 * float.TryParse is a parameter; the markers added to the information
 * container are kept as a sequence of values.
 */
module ScriptsMetricTrack {
  import opened Base
  import opened KeyValueStore
  import opened Tracks
  import Timeline

  type FloatParser = string -> Option<real>

  datatype Marker = Marker(leftPercent: real, tooltip: string, color: Color)

  /** The colour of this revision's bar and markers: (0.9, 0.2, 0.2). */
  const MarkerColor: Color := Rgb(0.9, 0.2, 0.2)

  /** The tooltip: "\n{key}: {value}" for each dictionary entry, in enumeration order. */
  function Tooltip(entries: seq<Pair>): string
    decreases |entries|
  {
    if entries == [] then ""
    else Tooltip(entries[..|entries| - 1]) + "\n" + entries[|entries| - 1].key + ": " + entries[|entries| - 1].value
  }

  /** The time an instance records, when its "time" entry parses. */
  function InstanceTime(instance: Instance, tryParse: FloatParser): (t: Option<real>)
    ensures t.Some? ==> LastValue(instance, "time").Some? && tryParse(LastValue(instance, "time").value) == t
    ensures LastValue(instance, "time").Some? && tryParse(LastValue(instance, "time").value).Some? ==> t.Some?
  {
    CollapseLastWins(instance, "time");
    match Find(Collapse(instance), "time")
    case None => None
    case Some(text) => tryParse(text)
  }

  /** CreateMarkerVisualElement's horizontal position: time / total, as a percentage. */
  function LeftPercent(time: real, totalDuration: real): (left: real)
    requires totalDuration != 0.0
  {
    time / totalDuration * 100.0
  }

  /** A time within the video is placed within the row. */
  lemma LeftPercentWithinRow(time: real, totalDuration: real)
    requires 0.0 < totalDuration && 0.0 <= time <= totalDuration
    ensures 0.0 <= LeftPercent(time, totalDuration) <= 100.0
    ensures time == 0.0 ==> LeftPercent(time, totalDuration) == 0.0
    ensures time == totalDuration ==> LeftPercent(time, totalDuration) == 100.0
  {
    assert time / totalDuration <= 1.0;
  }

  /** The markers for a list of instances: one per instance with a parseable time, in order. */
  function MarkersFor(instances: seq<Instance>, totalDuration: real, tryParse: FloatParser, color: Color): (m: seq<Marker>)
    requires totalDuration != 0.0
    ensures |m| <= |instances|
    decreases |instances|
  {
    if instances == [] then []
    else
      var front := MarkersFor(instances[..|instances| - 1], totalDuration, tryParse, color);
      var last := instances[|instances| - 1];
      match InstanceTime(last, tryParse)
      case None => front
      case Some(t) => front + [Marker(LeftPercent(t, totalDuration), Tooltip(Collapse(last)), color)]
  }

  /** Markers of a concatenation are the concatenation of markers: a skipped instance does not stop the rest. */
  lemma {:induction false} MarkersForAppend(a: seq<Instance>, b: seq<Instance>, total: real, tryParse: FloatParser, color: Color)
    requires total != 0.0
    ensures MarkersFor(a + b, total, tryParse, color) == MarkersFor(a, total, tryParse, color) + MarkersFor(b, total, tryParse, color)
    decreases |b|
  {
    if b == [] {
      assert a + b == a;
    } else {
      var b' := b[..|b| - 1];
      assert (a + b)[..|a + b| - 1] == a + b';
      assert (a + b)[|a + b| - 1] == b[|b| - 1];
      MarkersForAppend(a, b', total, tryParse, color);
    }
  }

  /** One instance gives one marker at its time exactly when the instance's time parses. */
  lemma MarkersForOne(instance: Instance, total: real, tryParse: FloatParser, color: Color)
    requires total != 0.0
    ensures var m := MarkersFor([instance], total, tryParse, color);
      match InstanceTime(instance, tryParse)
      case None => m == []
      case Some(t) => m == [Marker(LeftPercent(t, total), Tooltip(Collapse(instance)), color)]
  {
    assert [instance][..0] == [];
  }

  /** The number of markers is the number of instances whose time parses. */
  function CountTimed(instances: seq<Instance>, tryParse: FloatParser): nat
    decreases |instances|
  {
    if instances == [] then 0
    else
      var inc := if InstanceTime(instances[|instances| - 1], tryParse).Some? then 1 else 0;
      CountTimed(instances[..|instances| - 1], tryParse) + inc
  }

  lemma {:induction false} MarkersForCount(instances: seq<Instance>, total: real, tryParse: FloatParser, color: Color)
    requires total != 0.0
    ensures |MarkersFor(instances, total, tryParse, color)| == CountTimed(instances, tryParse)
    decreases |instances|
  {
    if instances != [] {
      MarkersForCount(instances[..|instances| - 1], total, tryParse, color);
    }
  }

  /**
   * CreateTimeMarkers' loop: for each instance, skip it when "time" is
   * missing or does not parse, otherwise add its marker.
   */
  method CreateTimeMarkers(instances: seq<Instance>, totalDuration: real, tryParse: FloatParser, color: Color)
    returns (markers: seq<Marker>)
    requires totalDuration != 0.0
    ensures markers == MarkersFor(instances, totalDuration, tryParse, color)
  {
    markers := [];
    if |instances| == 0 {
      return;
    }
    var i := 0;
    while i < |instances|
      invariant 0 <= i <= |instances|
      invariant markers == MarkersFor(instances[..i], totalDuration, tryParse, color)
    {
      var instance := instances[i];
      assert instances[..i + 1][..i] == instances[..i];
      var dictionary := Collapse(instance);
      var timeValue := Find(dictionary, "time");
      if timeValue.Some? {
        var time := tryParse(timeValue.value);
        if time.Some? {
          var normalizedTime := time.value / totalDuration;
          var tooltipText := Tooltip(dictionary);
          markers := markers + [Marker(normalizedTime * 100.0, tooltipText, color)];
        }
      }
      i := i + 1;
    }
    assert instances[..i] == instances;
  }

  class UIMetricTrack {
    /** The track; null when the constructor rejected it. */
    var track: Option<Track>
    /** Whether DelayedConfigureTrack is subscribed to OnResize. */
    var resizeHooked: bool
    var initialized: bool
    var labelText: string
    var barColor: Color
    /** The markers added to the information container, in order. */
    var markers: seq<Marker>
    var errors: seq<string>

    /** A non-Metric track is logged and neither stored nor hooked to resizes. */
    constructor (t: Track)
      ensures t.trackType == Metric ==> track == Some(t) && resizeHooked && errors == []
      ensures t.trackType != Metric ==>
        track.None? && !resizeHooked && errors == [TrackTypeName(t.trackType) + " is not a metric track"]
      ensures !initialized && markers == [] && barColor == MarkerColor && labelText == Timeline.DescriptionTitle
    {
      initialized := false;
      markers := [];
      barColor := MarkerColor;
      labelText := Timeline.DescriptionTitle;
      if t.trackType != Metric {
        errors := [TrackTypeName(t.trackType) + " is not a metric track"];
        track := None;
        resizeHooked := false;
      } else {
        errors := [];
        track := Some(t);
        resizeHooked := true;
      }
    }

    /**
     * DelayedConfigureTrack, run on each resize: the first call with a
     * non-zero video length labels the row, colours the bar and adds the
     * markers; every other call does nothing.
     */
    method DelayedConfigureTrack(totalTime: real, tryParse: FloatParser)
      requires track.Some?
      modifies this
      ensures track == old(track) && resizeHooked == old(resizeHooked) && errors == old(errors)
      ensures old(initialized) || totalTime == 0.0 ==>
        initialized == old(initialized) && markers == old(markers) && labelText == old(labelText) && barColor == old(barColor)
      ensures !old(initialized) && totalTime != 0.0 ==>
        initialized && labelText == track.value.name && barColor == track.value.color
        && markers == old(markers) + MarkersFor(track.value.instances, totalTime, tryParse, MarkerColor)
    {
      if initialized || totalTime == 0.0 {
        return;
      }
      initialized := true;
      labelText := track.value.name;
      barColor := track.value.color;
      var created := CreateTimeMarkers(track.value.instances, totalTime, tryParse, MarkerColor);
      markers := markers + created;
    }
  }
}
