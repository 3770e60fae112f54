/**
 * ZoomUpdater, EditorScripts revision
 * (Assets/_Project/EditorScripts/EditorUtils/ZoomUpdater.cs): Ctrl + mouse
 * wheel changes a zoom amount by the wheel delta times a modifier, clamped
 * to [min, max]; OnZoomed is told the raw wheel delta only when the new
 * amount needed no clamping.
 */
module ScriptsZoom {
  import opened Base
  import opened UnityMath

  /** The zoom amount after one wheel event, and the OnZoomed payload if it fired. */
  datatype Zoom = Zoom(amount: real, notified: Option<real>)

  /** OnMouseZoom with Ctrl held. */
  function ZoomStep(current: real, deltaY: real, modifier: real, minZoom: real, maxZoom: real): (z: Zoom)
    ensures minZoom <= maxZoom ==> minZoom <= z.amount <= maxZoom
    ensures z.notified.Some? <==> minZoom <= current + deltaY * modifier <= maxZoom
    ensures z.notified.Some? ==> z.notified.value == deltaY && z.amount == current + deltaY * modifier
    ensures current + deltaY * modifier > maxZoom ==> z.amount == maxZoom
    ensures current + deltaY * modifier <= maxZoom && current + deltaY * modifier < minZoom ==> z.amount == minZoom
  {
    var amount := current + deltaY * modifier;
    if amount > maxZoom then Zoom(maxZoom, None)
    else if amount < minZoom then Zoom(minZoom, None)
    else Zoom(amount, Some(deltaY))
  }

  /** A run of Ctrl + wheel events: the final amount and OnZoomed's payloads, in order. */
  datatype ZoomRun = ZoomRun(amount: real, notifications: seq<real>)

  function RunZoom(start: real, deltas: seq<real>, modifier: real, minZoom: real, maxZoom: real): (r: ZoomRun)
    ensures |r.notifications| <= |deltas|
    decreases |deltas|
  {
    if deltas == [] then ZoomRun(start, [])
    else
      var front := RunZoom(start, deltas[..|deltas| - 1], modifier, minZoom, maxZoom);
      var z := ZoomStep(front.amount, deltas[|deltas| - 1], modifier, minZoom, maxZoom);
      ZoomRun(z.amount, front.notifications + if z.notified.Some? then [z.notified.value] else [])
  }

  /** With min <= max the zoom never leaves [min, max], once it has started there or seen an event. */
  lemma RunZoomBounded(start: real, deltas: seq<real>, modifier: real, minZoom: real, maxZoom: real)
    requires minZoom <= maxZoom && (deltas != [] || minZoom <= start <= maxZoom)
    ensures minZoom <= RunZoom(start, deltas, modifier, minZoom, maxZoom).amount <= maxZoom
  {
  }

  /** When no event was clamped, every event was reported with its raw delta. */
  lemma {:induction false} RunZoomUnclampedReports(start: real, deltas: seq<real>, modifier: real, minZoom: real, maxZoom: real)
    requires |RunZoom(start, deltas, modifier, minZoom, maxZoom).notifications| == |deltas|
    ensures RunZoom(start, deltas, modifier, minZoom, maxZoom).notifications == deltas
    decreases |deltas|
  {
    if deltas != [] {
      var front := deltas[..|deltas| - 1];
      var last := deltas[|deltas| - 1];
      var r' := RunZoom(start, front, modifier, minZoom, maxZoom);
      var z := ZoomStep(r'.amount, last, modifier, minZoom, maxZoom);
      assert RunZoom(start, deltas, modifier, minZoom, maxZoom).notifications
        == r'.notifications + (if z.notified.Some? then [z.notified.value] else []);
      assert z.notified.Some? && |r'.notifications| == |front|;
      RunZoomUnclampedReports(start, front, modifier, minZoom, maxZoom);
      assert deltas == front + [last];
    }
  }

  /** When no event was clamped, the zoom is the start plus the modifier times the total wheel delta. */
  lemma {:induction false} RunZoomUnclampedAmount(start: real, deltas: seq<real>, modifier: real, minZoom: real, maxZoom: real)
    requires |RunZoom(start, deltas, modifier, minZoom, maxZoom).notifications| == |deltas|
    ensures RunZoom(start, deltas, modifier, minZoom, maxZoom).amount == start + modifier * Sum(deltas)
    decreases |deltas|
  {
    if deltas != [] {
      var front := deltas[..|deltas| - 1];
      var last := deltas[|deltas| - 1];
      var r' := RunZoom(start, front, modifier, minZoom, maxZoom);
      var z := ZoomStep(r'.amount, last, modifier, minZoom, maxZoom);
      var r := RunZoom(start, deltas, modifier, minZoom, maxZoom);
      assert r.notifications == r'.notifications + (if z.notified.Some? then [z.notified.value] else []);
      assert z.notified.Some? && |r'.notifications| == |front|;
      RunZoomUnclampedAmount(start, front, modifier, minZoom, maxZoom);
      var m, sf := modifier, Sum(front);
      assert r.amount == start + m * sf + last * m;
      assert Sum(deltas) == sf + last;
      assert m * (sf + last) == m * sf + last * m;
    }
  }

  /** RunZoomBounded, RunZoomUnclampedReports and RunZoomUnclampedAmount together. */
  lemma RunZoomMeaning(start: real, deltas: seq<real>, modifier: real, minZoom: real, maxZoom: real)
    ensures var r := RunZoom(start, deltas, modifier, minZoom, maxZoom);
      (minZoom <= maxZoom && (deltas != [] || minZoom <= start <= maxZoom) ==> minZoom <= r.amount <= maxZoom)
      && (|r.notifications| == |deltas| ==> r.notifications == deltas && r.amount == start + modifier * Sum(deltas))
  {
    if minZoom <= maxZoom && (deltas != [] || minZoom <= start <= maxZoom) {
      RunZoomBounded(start, deltas, modifier, minZoom, maxZoom);
    }
    if |RunZoom(start, deltas, modifier, minZoom, maxZoom).notifications| == |deltas| {
      RunZoomUnclampedReports(start, deltas, modifier, minZoom, maxZoom);
      RunZoomUnclampedAmount(start, deltas, modifier, minZoom, maxZoom);
    }
  }

  class ZoomUpdater {
    const initialZoomAmount: real
    var currentZoomAmount: real
    var maxZoomAmount: real
    var minZoomAmount: real
    var zoomModifier: real
    /** The payloads OnZoomed has been invoked with, in order. */
    var notifications: seq<real>

    /** Zoom starts at 0 with limits [-10, 70] and modifier 1. */
    constructor ()
      ensures initialZoomAmount == 0.0 && currentZoomAmount == initialZoomAmount
      ensures minZoomAmount == -10.0 && maxZoomAmount == 70.0 && zoomModifier == 1.0 && notifications == []
    {
      initialZoomAmount := 0.0;
      currentZoomAmount := 0.0;
      maxZoomAmount := 70.0;
      minZoomAmount := -10.0;
      zoomModifier := 1.0;
      notifications := [];
    }

    /** OnMouseZoom: ignored without Ctrl, otherwise one ZoomStep. */
    method OnMouseZoom(ctrlKey: bool, deltaY: real)
      modifies this
      ensures !ctrlKey ==> currentZoomAmount == old(currentZoomAmount) && notifications == old(notifications)
      ensures ctrlKey ==>
        var z := ZoomStep(old(currentZoomAmount), deltaY, zoomModifier, minZoomAmount, maxZoomAmount);
        currentZoomAmount == z.amount
        && notifications == old(notifications) + if z.notified.Some? then [z.notified.value] else []
      ensures maxZoomAmount == old(maxZoomAmount) && minZoomAmount == old(minZoomAmount) && zoomModifier == old(zoomModifier)
    {
      if !ctrlKey {
        return;
      }
      currentZoomAmount := currentZoomAmount + deltaY * zoomModifier;
      if currentZoomAmount > maxZoomAmount {
        currentZoomAmount := maxZoomAmount;
      } else if currentZoomAmount < minZoomAmount {
        currentZoomAmount := minZoomAmount;
      } else {
        notifications := notifications + [deltaY];
      }
    }

    /** SetZoomLimits replaces the limits and does not re-clamp the current zoom. */
    method SetZoomLimits(minZoom: real, maxZoom: real)
      modifies this
      ensures minZoomAmount == minZoom && maxZoomAmount == maxZoom
      ensures currentZoomAmount == old(currentZoomAmount) && zoomModifier == old(zoomModifier) && notifications == old(notifications)
    {
      minZoomAmount := minZoom;
      maxZoomAmount := maxZoom;
    }

    /** SetZoomModifier replaces the modifier and leaves the zoom alone. */
    method SetZoomModifier(modifier: real)
      modifies this
      ensures zoomModifier == modifier
      ensures currentZoomAmount == old(currentZoomAmount) && minZoomAmount == old(minZoomAmount)
      ensures maxZoomAmount == old(maxZoomAmount) && notifications == old(notifications)
    {
      zoomModifier := modifier;
    }
  }
}
