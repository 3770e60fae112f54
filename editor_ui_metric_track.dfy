/**
 * UIMetricTrack, Editor revision
 * (Assets/_Project/Editor/Track/UIMetricTrack.cs): the same marker row as
 * the EditorScripts revision, except that the markers are painted in the
 * track's own colour instead of the fixed red.
 */
module EditorMetricTrackView {
  import opened Base
  import opened KeyValueStore
  import opened Tracks
  import opened ScriptsMetricTrack
  import Timeline

  /** Every marker carries the colour it was created with. */
  lemma {:induction false} MarkersForColor(instances: seq<Instance>, total: real, tryParse: FloatParser, color: Color)
    requires total != 0.0
    ensures forall m :: m in MarkersFor(instances, total, tryParse, color) ==> m.color == color
    decreases |instances|
  {
    if instances != [] {
      MarkersForColor(instances[..|instances| - 1], total, tryParse, color);
    }
  }

  /** The two revisions draw the same markers at the same places; only the colour differs. */
  lemma {:induction false} MarkersForRecolor(instances: seq<Instance>, total: real, tryParse: FloatParser, c1: Color, c2: Color)
    requires total != 0.0
    ensures |MarkersFor(instances, total, tryParse, c1)| == |MarkersFor(instances, total, tryParse, c2)|
    ensures forall k :: 0 <= k < |MarkersFor(instances, total, tryParse, c1)| ==>
      MarkersFor(instances, total, tryParse, c1)[k].leftPercent == MarkersFor(instances, total, tryParse, c2)[k].leftPercent
      && MarkersFor(instances, total, tryParse, c1)[k].tooltip == MarkersFor(instances, total, tryParse, c2)[k].tooltip
    decreases |instances|
  {
    if instances != [] {
      MarkersForRecolor(instances[..|instances| - 1], total, tryParse, c1, c2);
    }
  }

  class UIMetricTrack {
    /** The track; null when the constructor rejected it. */
    var track: Option<Track>
    /** Whether DelayedConfigureTrack is subscribed to OnResize. */
    var resizeHooked: bool
    var initialized: bool
    var labelText: string
    var barColor: Color
    /** The markers added to the information container, in order. */
    var markers: seq<Marker>
    var errors: seq<string>

    /** A non-Metric track is logged and neither stored nor hooked to resizes. */
    constructor (t: Track)
      ensures t.trackType == Metric ==> track == Some(t) && resizeHooked && errors == []
      ensures t.trackType != Metric ==>
        track.None? && !resizeHooked && errors == [TrackTypeName(t.trackType) + " is not a metric track"]
      ensures !initialized && markers == [] && barColor == MarkerColor && labelText == Timeline.DescriptionTitle
    {
      initialized := false;
      markers := [];
      barColor := MarkerColor;
      labelText := Timeline.DescriptionTitle;
      if t.trackType != Metric {
        errors := [TrackTypeName(t.trackType) + " is not a metric track"];
        track := None;
        resizeHooked := false;
      } else {
        errors := [];
        track := Some(t);
        resizeHooked := true;
      }
    }

    /**
     * DelayedConfigureTrack: the first call with a non-zero video length
     * labels the row and adds the markers, bar and markers both in the
     * track's colour; every other call does nothing.
     */
    method DelayedConfigureTrack(totalTime: real, tryParse: FloatParser)
      requires track.Some?
      modifies this
      ensures track == old(track) && resizeHooked == old(resizeHooked) && errors == old(errors)
      ensures old(initialized) || totalTime == 0.0 ==>
        initialized == old(initialized) && markers == old(markers) && labelText == old(labelText) && barColor == old(barColor)
      ensures !old(initialized) && totalTime != 0.0 ==>
        initialized && labelText == track.value.name && barColor == track.value.color
        && markers == old(markers) + MarkersFor(track.value.instances, totalTime, tryParse, track.value.color)
    {
      if initialized || totalTime == 0.0 {
        return;
      }
      initialized := true;
      labelText := track.value.name;
      barColor := track.value.color;
      var created := CreateTimeMarkers(track.value.instances, totalTime, tryParse, track.value.color);
      markers := markers + created;
    }
  }
}
