/**
 * ZoomUpdater, Editor revision
 * (Assets/_Project/Editor/EditorUtils/ZoomUpdater.cs): the same Ctrl +
 * wheel zoom as the EditorScripts revision, with public read access to the
 * initial and current amounts.
 */
module EditorZoom {
  import opened Base
  import opened ScriptsZoom

  class ZoomUpdater {
    var initialZoomAmount: real
    var currentZoomAmount: real
    var maxZoomAmount: real
    var minZoomAmount: real
    var zoomModifier: real
    /** The payloads OnZoomed has been invoked with, in order. */
    var notifications: seq<real>

    /** The zoom starts at the initial amount, 0. */
    constructor ()
      ensures initialZoomAmount == 0.0 && currentZoomAmount == initialZoomAmount
      ensures minZoomAmount == -10.0 && maxZoomAmount == 70.0 && zoomModifier == 1.0 && notifications == []
    {
      initialZoomAmount := 0.0;
      currentZoomAmount := 0.0;
      maxZoomAmount := 70.0;
      minZoomAmount := -10.0;
      zoomModifier := 1.0;
      notifications := [];
    }

    function InitialZoomAmount(): real
      reads this
    {
      initialZoomAmount
    }

    function CurrentZoomAmount(): real
      reads this
    {
      currentZoomAmount
    }

    method SetZoomLimits(minZoom: real, maxZoom: real)
      modifies this
      ensures minZoomAmount == minZoom && maxZoomAmount == maxZoom
      ensures currentZoomAmount == old(currentZoomAmount) && initialZoomAmount == old(initialZoomAmount)
      ensures zoomModifier == old(zoomModifier) && notifications == old(notifications)
    {
      minZoomAmount := minZoom;
      maxZoomAmount := maxZoom;
    }

    method SetZoomModifier(modifier: real)
      modifies this
      ensures zoomModifier == modifier
      ensures currentZoomAmount == old(currentZoomAmount) && initialZoomAmount == old(initialZoomAmount)
      ensures minZoomAmount == old(minZoomAmount) && maxZoomAmount == old(maxZoomAmount) && notifications == old(notifications)
    {
      zoomModifier := modifier;
    }

    /** OnMouseZoom: ignored without Ctrl, otherwise one ZoomStep. */
    method OnMouseZoom(ctrlKey: bool, deltaY: real)
      modifies this
      ensures !ctrlKey ==> currentZoomAmount == old(currentZoomAmount) && notifications == old(notifications)
      ensures ctrlKey ==>
        var z := ZoomStep(old(currentZoomAmount), deltaY, zoomModifier, minZoomAmount, maxZoomAmount);
        currentZoomAmount == z.amount
        && notifications == old(notifications) + if z.notified.Some? then [z.notified.value] else []
      ensures initialZoomAmount == old(initialZoomAmount) && maxZoomAmount == old(maxZoomAmount)
      ensures minZoomAmount == old(minZoomAmount) && zoomModifier == old(zoomModifier)
    {
      if !ctrlKey {
        return;
      }
      currentZoomAmount := currentZoomAmount + deltaY * zoomModifier;
      if currentZoomAmount > maxZoomAmount {
        currentZoomAmount := maxZoomAmount;
      } else if currentZoomAmount < minZoomAmount {
        currentZoomAmount := minZoomAmount;
      } else {
        notifications := notifications + [deltaY];
      }
    }
  }
}
