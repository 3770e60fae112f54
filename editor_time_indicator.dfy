/**
 * TimeIndicatorController, Editor revision
 * (Assets/_Project/Editor/TimeIndicatorController.cs): the earlier label
 * row. It lays out one label per 30 pixels, each 10 pixels from the
 * previous one, labels them with whole seconds, and zooms on Ctrl + wheel.
 * Unlike the EditorScripts revision it never clears the time view, so a
 * reload leaves the previous labels in place next to the new ones.
 */
module EditorTimeIndicators {
  import opened Base
  import opened Text
  import opened UnityMath
  import Shared = ScriptsTimeIndicators

  const SpaceBetweenIndicators: real := 10.0

  /** Mathf.FloorToInt(width / 30), none for a negative count. */
  function LabelCount(trackViewWidth: real): (n: nat)
    ensures 0.0 <= trackViewWidth ==> n as real * 30.0 <= trackViewWidth < (n + 1) as real * 30.0
  {
    var count := FloorToInt(trackViewWidth / (SpaceBetweenIndicators + Shared.LabelSize));
    if count < 0 then 0 else count
  }

  /** Label i in whole seconds, Lerp(0, len, i / (n - 1)).ToString("0"); a single label is the NaN. */
  function SecondsLabel(i: nat, n: nat, videoLength: real): string
  {
    if n == 1 then "NaN"
    else IntToString(RoundHalfAwayFromZero(Lerp(0.0, videoLength, i as real / (n - 1) as real)))
  }

  function SecondsLabels(n: nat, videoLength: real): (labels: seq<string>)
    ensures |labels| == n
  {
    seq(n, i requires 0 <= i < n => SecondsLabel(i, n, videoLength))
  }

  /** GetNumericalLabelsFromVideoLength's loop. */
  method GetNumericalLabels(indicatorCount: nat, videoLength: real) returns (labels: seq<string>)
    ensures labels == SecondsLabels(indicatorCount, videoLength)
  {
    labels := [];
    var i := 0;
    while i < indicatorCount
      invariant 0 <= i <= indicatorCount
      invariant |labels| == i && forall j :: 0 <= j < i ==> labels[j] == SecondsLabel(j, indicatorCount, videoLength)
    {
      var text := "NaN";
      if indicatorCount != 1 {
        var t := i as real / (indicatorCount - 1) as real;
        text := IntToString(RoundHalfAwayFromZero(Lerp(0.0, videoLength, t)));
      }
      labels := labels + [text];
      i := i + 1;
    }
  }

  /** The first label reads "0" and the last is the length rounded to whole seconds. */
  lemma SecondsLabelEnds(n: nat, videoLength: real)
    requires n >= 2
    ensures SecondsLabels(n, videoLength)[0] == "0"
    ensures SecondsLabels(n, videoLength)[n - 1] == IntToString(RoundHalfAwayFromZero(videoLength))
  {
    LerpEnds(0.0, videoLength);
    assert (n - 1) as real / (n - 1) as real == 1.0;
    assert RoundHalfAwayFromZero(0.0) == 0;
  }

  lemma RoundHalfAwayFromZeroMonotone(a: real, b: real)
    requires a <= b
    ensures RoundHalfAwayFromZero(a) <= RoundHalfAwayFromZero(b)
  {
    if 0.0 <= a {
      assert (a + 0.5).Floor <= (b + 0.5).Floor;
    } else if b < 0.0 {
      assert (-b + 0.5).Floor <= (-a + 0.5).Floor;
    }
  }

  /** For a non-negative length the whole-second values never decrease from left to right. */
  lemma SecondsNondecreasing(i: nat, j: nat, n: nat, videoLength: real)
    requires 0.0 <= videoLength && i <= j < n && n >= 2
    ensures RoundHalfAwayFromZero(Lerp(0.0, videoLength, i as real / (n - 1) as real))
      <= RoundHalfAwayFromZero(Lerp(0.0, videoLength, j as real / (n - 1) as real))
  {
    var d := (n - 1) as real;
    var ti, tj := i as real / d, j as real / d;
    DivMonotone(i as real, j as real, d);
    LerpMonotone(videoLength, ti, tj);
    RoundHalfAwayFromZeroMonotone(Lerp(0.0, videoLength, ti), Lerp(0.0, videoLength, tj));
  }

  /** The labels a reload adds: their seconds, each 10 pixels from the previous. */
  function ReloadedLabels(n: nat, videoLength: real): (r: seq<Shared.Indicator>)
    ensures |r| == n
  {
    seq(n, i requires 0 <= i < n => Shared.Indicator(SecondsLabel(i, n, videoLength), 0.0, SpaceBetweenIndicators, None))
  }

  class TimeIndicatorController {
    var videoLength: real
    /** _timeIndicators; None until the first reload. */
    var indicators: Option<seq<Shared.Indicator>>
    /** Labels of earlier reloads that are still in the time view. */
    var staleChildren: seq<Shared.Indicator>
    var currentSpaceBetweenIndicators: real

    /** What the time view shows: the stale labels, then the current ones. */
    function ViewChildren(): seq<Shared.Indicator>
      reads this
    {
      staleChildren + if indicators.Some? then indicators.value else []
    }

    constructor ()
      ensures indicators.None? && ViewChildren() == [] && currentSpaceBetweenIndicators == 10.0
    {
      videoLength := 0.0;
      indicators := None;
      staleChildren := [];
      currentSpaceBetweenIndicators := 10.0;
    }

    /** ReloadIndicators: the new labels replace the list but are added after whatever the view already shows. */
    method ReloadIndicators(newVideoLength: real, trackViewWidth: real)
      modifies this
      ensures videoLength == newVideoLength
      ensures indicators == Some(ReloadedLabels(LabelCount(trackViewWidth), newVideoLength))
      ensures ViewChildren() == old(ViewChildren()) + indicators.value
      ensures currentSpaceBetweenIndicators == old(currentSpaceBetweenIndicators)
    {
      staleChildren := ViewChildren();
      videoLength := newVideoLength;
      var indicatorCount := LabelCount(trackViewWidth);
      var labels := GetNumericalLabels(indicatorCount, newVideoLength);
      var created: seq<Shared.Indicator> := [];
      var i := 0;
      while i < indicatorCount
        invariant 0 <= i <= indicatorCount
        invariant |created| == i
        invariant forall j :: 0 <= j < i ==> created[j] == Shared.Indicator(labels[j], 0.0, SpaceBetweenIndicators, None)
      {
        created := created + [Shared.Indicator(labels[i], 0.0, SpaceBetweenIndicators, None)];
        i := i + 1;
      }
      assert created == ReloadedLabels(indicatorCount, newVideoLength);
      indicators := Some(created);
    }

    /** OnMouseScroll: the wheel zooms only with Ctrl held. */
    method OnMouseScroll(ctrlKey: bool, deltaY: real)
      modifies this
      ensures !ctrlKey ==> currentSpaceBetweenIndicators == old(currentSpaceBetweenIndicators) && indicators == old(indicators)
      ensures ctrlKey ==> currentSpaceBetweenIndicators == old(currentSpaceBetweenIndicators) + deltaY
      ensures ctrlKey && old(indicators).Some? ==> indicators == Some(Shared.Spaced(old(indicators).value, currentSpaceBetweenIndicators))
      ensures staleChildren == old(staleChildren) && videoLength == old(videoLength)
    {
      if ctrlKey {
        ZoomTimeIndicators(deltaY);
      }
    }

    /** ZoomTimeIndicators: widen the spacing of the current labels; stale labels keep theirs. */
    method ZoomTimeIndicators(amount: real)
      modifies this
      ensures currentSpaceBetweenIndicators == old(currentSpaceBetweenIndicators) + amount
      ensures old(indicators).None? ==> indicators == old(indicators)
      ensures old(indicators).Some? ==> indicators == Some(Shared.Spaced(old(indicators).value, currentSpaceBetweenIndicators))
      ensures staleChildren == old(staleChildren) && videoLength == old(videoLength)
    {
      currentSpaceBetweenIndicators := currentSpaceBetweenIndicators + amount;
      if indicators.Some? {
        indicators := Some(Shared.Spaced(indicators.value, currentSpaceBetweenIndicators));
      }
    }
  }
}
