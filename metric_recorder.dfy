/**
 * The instance MetricRecorder.LogEvent records
 * (Assets/_Project/MetricRecorder/MetricRecorder.cs): the current time,
 * then one pair per tracked property. The recorder writes the time under
 * the key "Time: ", while every metric row looks the time up under "time",
 * so no recorded event ever gets a marker, and MetricTrack, which stops at
 * the first instance without a time, draws nothing for such a track.
 */
module MetricRecording {
  import opened Base
  import opened KeyValueStore
  import opened Tracks
  import opened ScriptsMetricTrack
  import opened EditorMetricBoxes

  /** The key LogEvent writes the time under, as written. */
  const RecordedTimeKey := "Time: "

  /** The instance LogEvent adds, as written: the time under "Time: ", then the properties. */
  function LogEventAsWritten(timeText: string, properties: seq<Pair>): (instance: Instance)
    ensures |instance| == |properties| + 1 && instance[0] == Pair(RecordedTimeKey, timeText) && instance[1..] == properties
  {
    [Pair(RecordedTimeKey, timeText)] + properties
  }

  /** The instance LogEvent evidently means to add: the time under the key the metric rows read. */
  function LogEvent(timeText: string, properties: seq<Pair>): (instance: Instance)
    ensures |instance| == |properties| + 1 && instance[0] == Pair("time", timeText) && instance[1..] == properties
  {
    [Pair("time", timeText)] + properties
  }

  /** Pairs appended after the last one with a key do not change its value. */
  lemma {:induction false} LastValueAppendAbsent(a: seq<Pair>, b: seq<Pair>, key: string)
    requires key !in Keys(b)
    ensures LastValue(a + b, key) == LastValue(a, key)
    decreases |b|
  {
    if b != [] {
      var b' := b[..|b| - 1];
      assert (a + b)[..|a + b| - 1] == a + b';
      assert (a + b)[|a + b| - 1] == b[|b| - 1];
      assert b[|b| - 1] in b;
      assert b[|b| - 1].key in Keys(b);
      assert Keys(b') <= Keys(b) by {
        forall p | p in b' ensures p in b {
          var k :| 0 <= k < |b'| && b'[k] == p;
          assert b[k] == p;
        }
      }
      assert b[|b| - 1].key != key;
      assert LastValue(a + b, key) == LastValue(a + b', key);
      LastValueAppendAbsent(a, b', key);
    } else {
      assert a + b == a;
    }
  }

  /** As written, an event whose properties are not named "time" carries no time for the metric rows. */
  lemma RecordedEventHasNoTime(timeText: string, properties: seq<Pair>, tryParse: FloatParser)
    requires "time" !in Keys(properties)
    ensures InstanceTime(LogEventAsWritten(timeText, properties), tryParse).None?
    ensures !HasTime(LogEventAsWritten(timeText, properties))
  {
    var instance := LogEventAsWritten(timeText, properties);
    LastValueAppendAbsent([Pair(RecordedTimeKey, timeText)], properties, "time");
    assert [Pair(RecordedTimeKey, timeText)][..0] == [];
    assert LastValue([Pair(RecordedTimeKey, timeText)], "time").None?;
    CollapseLastWins(instance, "time");
  }

  /**
   * Finding, as written: a track filled by LogEvent gets no marker from
   * UIMetricTrack and no box from MetricTrack, whatever the times are.
   */
  lemma {:induction false} RecordedTrackGetsNoMarkers(times: seq<string>, properties: seq<Pair>, total: real, tryParse: FloatParser, color: Color)
    requires total != 0.0
    requires "time" !in Keys(properties)
    ensures MarkersFor(seq(|times|, k requires 0 <= k < |times| => LogEventAsWritten(times[k], properties)), total, tryParse, color) == []
    ensures BoxesFor(seq(|times|, k requires 0 <= k < |times| => LogEventAsWritten(times[k], properties)), total, tryParse) == []
    decreases |times|
  {
    var instances := seq(|times|, k requires 0 <= k < |times| => LogEventAsWritten(times[k], properties));
    if times != [] {
      var front := times[..|times| - 1];
      var frontInstances := seq(|front|, k requires 0 <= k < |front| => LogEventAsWritten(front[k], properties));
      assert instances[..|instances| - 1] == frontInstances;
      RecordedTrackGetsNoMarkers(front, properties, total, tryParse, color);
      RecordedEventHasNoTime(times[|times| - 1], properties, tryParse);
      RecordedEventHasNoTime(times[0], properties, tryParse);
      assert TimedPrefix(instances) == 0;
      assert instances[..0] == [];
    }
  }

  /** Corrected: an event whose time parses gets exactly one marker, at that time. */
  lemma LoggedEventGetsMarker(timeText: string, properties: seq<Pair>, total: real, tryParse: FloatParser, color: Color, t: real)
    requires total != 0.0
    requires "time" !in Keys(properties)
    requires tryParse(timeText) == Some(t)
    ensures InstanceTime(LogEvent(timeText, properties), tryParse) == Some(t)
    ensures MarkersFor([LogEvent(timeText, properties)], total, tryParse, color)
      == [Marker(LeftPercent(t, total), Tooltip(Collapse(LogEvent(timeText, properties))), color)]
    ensures HasTime(LogEvent(timeText, properties))
  {
    var instance := LogEvent(timeText, properties);
    LastValueAppendAbsent([Pair("time", timeText)], properties, "time");
    assert [Pair("time", timeText)][..0] == [];
    assert LastValue([Pair("time", timeText)], "time") == Some(timeText);
    CollapseLastWins(instance, "time");
    MarkersForOne(instance, total, tryParse, color);
  }
}
