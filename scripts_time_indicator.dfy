/**
 * TimeIndicatorController, EditorScripts revision
 * (Assets/_Project/EditorScripts/EditorUtils/TimeIndicatorController.cs):
 * the row of time labels above the timeline. It lays out one label per 33
 * pixels, labels them with evenly spaced times from 0 to the video length
 * in tenths of a second, maps between times and screen x through the first
 * and last label's positions, and seeks the video on a left click.
 *
 * The labels' resolved screen positions (worldBound.x) are a parameter
 * `layoutX`, index to x. The float division i / (n - 1) for a single
 * label is 0 / 0, a NaN, which the model carries as a NaN label.
 */
module ScriptsTimeIndicators {
  import opened Base
  import opened Text
  import opened UnityMath

  const InitialSpaceBetweenIndicators: real := 13.0
  const LabelSize: real := 20.0

  /** Mathf.FloorToInt(width / 33): how many labels fit; the loop makes none for a negative count. */
  function IndicatorCount(trackViewWidth: real): (n: nat)
    ensures 0.0 <= trackViewWidth ==> n as real * 33.0 <= trackViewWidth < (n + 1) as real * 33.0
    ensures trackViewWidth < 33.0 ==> n == 0
  {
    var count := FloorToInt(trackViewWidth / (InitialSpaceBetweenIndicators + LabelSize));
    if count < 0 then 0 else count
  }

  /** Label i's value in tenths of a second, Mathf.Round(Lerp(0, len, i / (n - 1)) * 10); None is the NaN of a single label. */
  function LabelTenths(i: nat, n: nat, videoLength: real): Option<int>
  {
    if n == 1 then None
    else Some(RoundHalfEven(Lerp(0.0, videoLength, i as real / (n - 1) as real) * 10.0))
  }

  /** float.ToString() of k / 10: the whole part, then a decimal digit unless it is 0. */
  function TenthsText(k: int): (s: string)
    ensures |s| > 0
  {
    var m: nat := if k < 0 then -k else k;
    (if k < 0 then "-" else "") + NatToString(m / 10) + (if m % 10 == 0 then "" else "." + [DigitChar(m % 10)])
  }

  function LabelText(i: nat, n: nat, videoLength: real): string
  {
    match LabelTenths(i, n, videoLength)
    case None => "NaNs"
    case Some(k) => TenthsText(k) + "s"
  }

  /** GetNumericalLabelsFromVideoLength. */
  function Labels(n: nat, videoLength: real): (labels: seq<string>)
    ensures |labels| == n
  {
    seq(n, i requires 0 <= i < n => LabelText(i, n, videoLength))
  }

  /** GetNumericalLabelsFromVideoLength's loop. */
  method GetNumericalLabels(indicatorCount: nat, videoLength: real) returns (labels: seq<string>)
    ensures labels == Labels(indicatorCount, videoLength)
  {
    labels := [];
    var i := 0;
    while i < indicatorCount
      invariant 0 <= i <= indicatorCount
      invariant |labels| == i && forall j :: 0 <= j < i ==> labels[j] == LabelText(j, indicatorCount, videoLength)
    {
      var text := "NaNs";
      if indicatorCount != 1 {
        var normalizedIndex := i as real / (indicatorCount - 1) as real;
        text := TenthsText(RoundHalfEven(Lerp(0.0, videoLength, normalizedIndex) * 10.0)) + "s";
      }
      labels := labels + [text];
      i := i + 1;
    }
  }

  /** The first label reads "0s", and the last is the video length rounded to a tenth. */
  lemma LabelEnds(n: nat, videoLength: real)
    requires n >= 2
    ensures Labels(n, videoLength)[0] == "0s"
    ensures LabelTenths(n - 1, n, videoLength) == Some(RoundHalfEven(videoLength * 10.0))
  {
    LerpEnds(0.0, videoLength);
    assert (n - 1) as real / (n - 1) as real == 1.0;
    assert LabelTenths(0, n, videoLength) == Some(0);
    assert NatToString(0) == "0";
  }

  /** A single label cannot be placed on a scale: it reads "NaNs". */
  lemma SingleLabelIsNaN(videoLength: real)
    ensures Labels(1, videoLength) == ["NaNs"]
  {
  }

  lemma RoundHalfEvenMonotone(a: real, b: real)
    requires a <= b
    ensures RoundHalfEven(a) <= RoundHalfEven(b)
  {
  }

  /** For a non-negative length the labels never decrease from left to right. */
  lemma LabelsNondecreasing(i: nat, j: nat, n: nat, videoLength: real)
    requires 0.0 <= videoLength && i <= j < n && n >= 2
    ensures LabelTenths(i, n, videoLength).value <= LabelTenths(j, n, videoLength).value
  {
    var d := (n - 1) as real;
    var ti, tj := i as real / d, j as real / d;
    DivMonotone(i as real, j as real, d);
    LerpMonotone(videoLength, ti, tj);
    RoundHalfEvenMonotone(Lerp(0.0, videoLength, ti) * 10.0, Lerp(0.0, videoLength, tj) * 10.0);
  }

  /** GetXPositionFromTime once labels exist: Lerp from the first to the last label's x. */
  function XFromTime(firstX: real, lastX: real, videoLength: real, time: real): (x: real)
    requires videoLength != 0.0
  {
    Lerp(firstX, lastX, time / videoLength)
  }

  /** GetTimeFromScreenX: where x falls between the first and the last label, as a time. */
  function TimeFromX(firstX: real, lastX: real, videoLength: real, x: real): (time: real)
    requires lastX != firstX
  {
    Lerp(0.0, videoLength, (x - firstX) / (lastX - firstX))
  }

  /** Both mappings stay on the scale: x between the end labels, time within the video. */
  lemma MappingsBounded(firstX: real, lastX: real, videoLength: real, t: real, x: real)
    requires videoLength != 0.0 && firstX != lastX
    ensures firstX <= lastX ==> firstX <= XFromTime(firstX, lastX, videoLength, t) <= lastX
    ensures lastX <= firstX ==> lastX <= XFromTime(firstX, lastX, videoLength, t) <= firstX
    ensures 0.0 <= videoLength ==> 0.0 <= TimeFromX(firstX, lastX, videoLength, x) <= videoLength
  {
    LerpBetween(firstX, lastX, t / videoLength);
    LerpBetween(0.0, videoLength, (x - firstX) / (lastX - firstX));
  }

  /** On [0, len] the time-to-x mapping is undone by the x-to-time one. */
  lemma TimeThenXInverse(firstX: real, lastX: real, videoLength: real, t: real)
    requires firstX < lastX && 0.0 < videoLength && 0.0 <= t <= videoLength
    ensures TimeFromX(firstX, lastX, videoLength, XFromTime(firstX, lastX, videoLength, t)) == t
  {
    var w := lastX - firstX;
    var u := t / videoLength;
    DivBetween(t, videoLength);
    assert XFromTime(firstX, lastX, videoLength, t) == firstX + w * u;
    DivMulCancel(u, w);
    DivMulCancel(t, videoLength);
    assert TimeFromX(firstX, lastX, videoLength, firstX + w * u) == videoLength * u;
  }

  /** On [first, last] the x-to-time mapping is undone by the time-to-x one. */
  lemma XThenTimeInverse(firstX: real, lastX: real, videoLength: real, x: real)
    requires firstX < lastX && 0.0 < videoLength && firstX <= x <= lastX
    ensures XFromTime(firstX, lastX, videoLength, TimeFromX(firstX, lastX, videoLength, x)) == x
  {
    var w := lastX - firstX;
    var u := (x - firstX) / w;
    DivBetween(x - firstX, w);
    assert TimeFromX(firstX, lastX, videoLength, x) == videoLength * u;
    DivMulCancel(u, videoLength);
    DivMulCancel(x - firstX, w);
    assert XFromTime(firstX, lastX, videoLength, videoLength * u) == firstX + w * u;
  }

  /** On [0, len] and [first, last] the two mappings undo each other. */
  lemma MappingsInverse(firstX: real, lastX: real, videoLength: real, t: real, x: real)
    requires firstX < lastX && 0.0 < videoLength
    ensures 0.0 <= t <= videoLength ==> TimeFromX(firstX, lastX, videoLength, XFromTime(firstX, lastX, videoLength, t)) == t
    ensures firstX <= x <= lastX ==> XFromTime(firstX, lastX, videoLength, TimeFromX(firstX, lastX, videoLength, x)) == x
  {
    if 0.0 <= t <= videoLength {
      TimeThenXInverse(firstX, lastX, videoLength, t);
    }
    if firstX <= x <= lastX {
      XThenTimeInverse(firstX, lastX, videoLength, x);
    }
  }

  /** OnMouseDown's target frame: Mathf.FloorToInt(time * frames / len). */
  function ClickFrame(time: real, frames: int, videoLength: real): int
    requires videoLength != 0.0
  {
    FloorToInt(time * frames as real / videoLength)
  }

  /**
   * A click on the scale asks for a frame in [0, frames]; it asks for
   * `frames` itself, one past the last frame, only at the very end.
   */
  lemma ClickFrameRange(time: real, frames: nat, videoLength: real)
    requires 0.0 < videoLength && 0.0 <= time <= videoLength && frames > 0
    ensures 0 <= ClickFrame(time, frames, videoLength) <= frames
    ensures ClickFrame(time, frames, videoLength) == frames <==> time == videoLength
  {
    ScaleBetween(time, frames as real, videoLength);
  }

  /** A time label as laid out: its text, left padding and margins (no right margin until a zoom). */
  datatype Indicator = Indicator(text: string, paddingLeft: real, marginLeft: real, marginRight: Option<real>)

  /** The labels ReloadIndicators leaves: the first flush left, the others 13 pixels apart. */
  function Reloaded(n: nat, videoLength: real): (r: seq<Indicator>)
    ensures |r| == n
  {
    seq(n, i requires 0 <= i < n =>
      Indicator(LabelText(i, n, videoLength), 0.0, if i == 0 then 0.0 else InitialSpaceBetweenIndicators, None))
  }

  /** Every label after a zoom: both margins set to the current spacing. */
  function Spaced(indicators: seq<Indicator>, space: real): (r: seq<Indicator>)
    ensures |r| == |indicators|
    ensures forall i :: 0 <= i < |r| ==> r[i].text == indicators[i].text && r[i].marginLeft == space && r[i].marginRight == Some(space)
  {
    seq(|indicators|, i requires 0 <= i < |indicators| => indicators[i].(marginLeft := space, marginRight := Some(space)))
  }

  class TimeIndicatorController {
    var videoLength: real
    /** _timeIndicators; None until the first reload. */
    var indicators: Option<seq<Indicator>>
    /** The labels shown in the time view. */
    var viewChildren: seq<Indicator>
    var currentSpaceBetweenIndicators: real
    /** The frames left clicks have asked the video player for, in order. */
    var frameRequests: seq<int>

    /** The view holds exactly the current labels: a reload clears what was there before. */
    predicate Valid()
      reads this
    {
      viewChildren == if indicators.Some? then indicators.value else []
    }

    constructor ()
      ensures Valid()
      ensures indicators.None? && viewChildren == [] && currentSpaceBetweenIndicators == 10.0 && frameRequests == []
    {
      videoLength := 0.0;
      indicators := None;
      viewChildren := [];
      currentSpaceBetweenIndicators := 10.0;
      frameRequests := [];
    }

    /** ReloadIndicators: clear the view, store the length, lay out and label floor(width / 33) labels. */
    method ReloadIndicators(newVideoLength: real, trackViewWidth: real)
      modifies this
      ensures Valid()
      ensures videoLength == newVideoLength
      ensures indicators == Some(Reloaded(IndicatorCount(trackViewWidth), newVideoLength))
      ensures viewChildren == indicators.value
      ensures currentSpaceBetweenIndicators == old(currentSpaceBetweenIndicators) && frameRequests == old(frameRequests)
    {
      videoLength := newVideoLength;
      var created := CreateIndicators(IndicatorCount(trackViewWidth));
      var labels := GetNumericalLabels(|created|, newVideoLength);
      created := ApplyLabels(created, labels);
      assert created == Reloaded(IndicatorCount(trackViewWidth), newVideoLength) by {
        var r := Reloaded(IndicatorCount(trackViewWidth), newVideoLength);
        forall j | 0 <= j < |r| ensures created[j] == r[j] {
        }
      }
      indicators := Some(created);
      viewChildren := created;
    }

    /** ZoomTimeIndicators: widen the spacing; before any reload the loop over null throws after the addition. */
    method ZoomTimeIndicators(amount: real)
      requires Valid()
      modifies this
      ensures Valid()
      ensures currentSpaceBetweenIndicators == old(currentSpaceBetweenIndicators) + amount
      ensures old(indicators).None? ==> indicators == old(indicators)
      ensures old(indicators).Some? ==> indicators == Some(Spaced(old(indicators).value, currentSpaceBetweenIndicators))
      ensures videoLength == old(videoLength) && frameRequests == old(frameRequests)
    {
      currentSpaceBetweenIndicators := currentSpaceBetweenIndicators + amount;
      if indicators.None? {
        return;
      }
      var spaced := Spaced(indicators.value, currentSpaceBetweenIndicators);
      indicators := Some(spaced);
      viewChildren := spaced;
    }

    /** GetXPositionFromTime: 0 before any reload. */
    function GetXPositionFromTime(time: real, layoutX: nat -> real): (x: real)
      requires indicators.Some? ==> |indicators.value| > 0 && videoLength != 0.0
      reads this
      ensures indicators.None? ==> x == 0.0
      ensures indicators.Some? ==> x == XFromTime(layoutX(0), layoutX(|indicators.value| - 1), videoLength, time)
    {
      if indicators.None? then 0.0
      else XFromTime(layoutX(0), layoutX(|indicators.value| - 1), videoLength, time)
    }

    /** IsSetupComplete: labels exist and the first and last are not at the same place. */
    predicate IsSetupComplete(layoutX: nat -> real)
      reads this
    {
      indicators.Some? && |indicators.value| > 0 && layoutX(0) != layoutX(|indicators.value| - 1)
    }

    function GetTotalTime(): real
      reads this
    {
      videoLength
    }

    /** OnMouseDown: a left click seeks to the frame under the mouse; other buttons do nothing. */
    method OnMouseDown(button: int, mouseX: real, layoutX: nat -> real, videoFrames: int)
      requires IsSetupComplete(layoutX) && videoLength != 0.0
      modifies this
      ensures videoLength == old(videoLength) && indicators == old(indicators) && viewChildren == old(viewChildren)
      ensures currentSpaceBetweenIndicators == old(currentSpaceBetweenIndicators)
      ensures button != 0 ==> frameRequests == old(frameRequests)
      ensures button == 0 ==> frameRequests == old(frameRequests) + [ClickedFrame(mouseX, layoutX, videoFrames)]
    {
      if button == 0 {
        var targetFrame := ClickedFrame(mouseX, layoutX, videoFrames);
        frameRequests := frameRequests + [targetFrame];
      }
    }

    /** The frame a left click at mouseX asks for: the time under the mouse, as a frame index. */
    function ClickedFrame(mouseX: real, layoutX: nat -> real, videoFrames: int): int
      requires IsSetupComplete(layoutX) && videoLength != 0.0
      reads this
    {
      ClickFrame(TimeFromX(layoutX(0), layoutX(|indicators.value| - 1), videoLength, mouseX), videoFrames, videoLength)
    }
  }

  /** The labels as first created: text i.ToString(), the first flush left, the others 13 pixels apart. */
  function Laid(n: nat): (r: seq<Indicator>)
    ensures |r| == n
  {
    seq(n, i requires 0 <= i < n =>
      Indicator(NatToString(i), 0.0, if i == 0 then 0.0 else InitialSpaceBetweenIndicators, None))
  }

  /** ReloadIndicators' creation loop. */
  method CreateIndicators(indicatorCount: nat) returns (created: seq<Indicator>)
    ensures created == Laid(indicatorCount)
  {
    created := [];
    var i := 0;
    while i < indicatorCount
      invariant 0 <= i <= indicatorCount
      invariant created == Laid(i)
    {
      var marginLeft := if i == 0 then 0.0 else InitialSpaceBetweenIndicators;
      created := created + [Indicator(NatToString(i), 0.0, marginLeft, None)];
      i := i + 1;
    }
  }

  /** UpdateTimeIndicators' loop: each label's text replaced by its time. */
  method ApplyLabels(created: seq<Indicator>, labels: seq<string>) returns (labelled: seq<Indicator>)
    requires |labels| == |created|
    ensures |labelled| == |created|
    ensures forall i :: 0 <= i < |created| ==> labelled[i] == created[i].(text := labels[i])
  {
    labelled := created;
    var k := 0;
    while k < |created|
      invariant 0 <= k <= |created| == |labelled|
      invariant forall j :: 0 <= j < k ==> labelled[j] == created[j].(text := labels[j])
      invariant forall j :: k <= j < |created| ==> labelled[j] == created[j]
    {
      labelled := labelled[k := labelled[k].(text := labels[k])];
      k := k + 1;
    }
  }

  /** With one label its first and last are the same element, so the controller is never set up. */
  lemma SingleLabelNotSetUp(c: TimeIndicatorController, layoutX: nat -> real)
    requires c.indicators.Some? && |c.indicators.value| == 1
    ensures !c.IsSetupComplete(layoutX)
  {
  }
}
