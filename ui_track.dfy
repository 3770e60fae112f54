/**
 * UITrack (Assets/_Project/EditorScripts/Track/UITrack.cs): the base of
 * every timeline row. It owns the description and information containers
 * and a resize debounce: a geometry change arms a timer, each editor
 * update counts it down by the frame's delta time, and when it runs out
 * OnResize is invoked once.
 *
 * Editor delta times, the resolved width of the element the row adapts to
 * and the visual elements themselves are parameters or plain flags.
 */
module Timeline {
  import opened Base
  import opened UnityMath

  /** The debounce: whether the timer is running, and its remaining time. */
  datatype Debounce = Debounce(armed: bool, timer: real)

  /** The debounce after one update, and whether OnResize was invoked. */
  datatype DebounceStep = DebounceStep(state: Debounce, fired: bool)

  /** TrackUpdate's timer logic for one editor update. */
  function DebounceUpdate(d: Debounce, delta: real): (r: DebounceStep)
    ensures !d.armed ==> r == DebounceStep(d, false)
    ensures r.fired ==> r.state == Debounce(false, 0.0)
    ensures d.armed && !r.fired ==> r.state == Debounce(true, d.timer - delta)
  {
    if !d.armed then DebounceStep(d, false)
    else
      var t := d.timer - delta;
      if t <= 0.0 then DebounceStep(Debounce(false, 0.0), true)
      else DebounceStep(Debounce(true, t), false)
  }

  /** The debounce after a run of updates with no resize in between, and how often OnResize fired. */
  datatype DebounceRun = DebounceRun(state: Debounce, firings: nat)

  function RunDebounce(d: Debounce, deltas: seq<real>): DebounceRun
    decreases |deltas|
  {
    if deltas == [] then DebounceRun(d, 0)
    else
      var front := RunDebounce(d, deltas[..|deltas| - 1]);
      var step := DebounceUpdate(front.state, deltas[|deltas| - 1]);
      DebounceRun(step.state, front.firings + if step.fired then 1 else 0)
  }

  /** A running timer is always positive: one that reaches 0 disarms. */
  predicate DebounceValid(d: Debounce)
  {
    d.armed ==> d.timer > 0.0
  }

  /**
   * The debounce's meaning: once armed with a positive timer T, a run of
   * updates with non-negative deltas fires OnResize exactly once if the
   * deltas add up to T, and otherwise leaves T minus their total running;
   * an unarmed debounce never fires.
   */
  lemma {:induction false} DebounceFiresOnce(d: Debounce, deltas: seq<real>)
    requires DebounceValid(d)
    requires forall k :: 0 <= k < |deltas| ==> deltas[k] >= 0.0
    ensures var r := RunDebounce(d, deltas);
      DebounceValid(r.state)
      && r.firings == (if d.armed && Sum(deltas) >= d.timer then 1 else 0)
      && (d.armed && Sum(deltas) < d.timer ==> r.state == Debounce(true, d.timer - Sum(deltas)))
      && (d.armed && Sum(deltas) >= d.timer ==> r.state == Debounce(false, 0.0))
      && (!d.armed ==> r.state == d)
    decreases |deltas|
  {
    if deltas != [] {
      var front := deltas[..|deltas| - 1];
      var last := deltas[|deltas| - 1];
      assert Sum(deltas) == Sum(front) + last;
      DebounceFiresOnce(d, front);
    }
  }

  /** The Title every row's description label is created with, until a subclass renames it. */
  const DescriptionTitle := "Description"

  /** The order the constructor runs the row's set-up steps in. */
  datatype Phase = PreInitialization | DescriptionPhase | InformationPhase

  class UITrack {
    var resizeDebounceTimer: real
    var resizeDebounceDuration: real
    var shouldStartResizeTimer: bool
    /** How many times OnResize has been invoked. */
    var resizeEvents: nat
    var hasDescription: bool
    var hasInformation: bool
    /** How many information containers have been created so far. */
    var informationCreated: nat
    /** The width last copied onto the information container. */
    var informationWidth: Option<real>
    /** The set-up steps, in the order they ran. */
    var initialization: seq<Phase>

    function State(): Debounce
      reads this
    {
      Debounce(shouldStartResizeTimer, resizeDebounceTimer)
    }

    predicate Valid()
      reads this
    {
      DebounceValid(State()) && resizeDebounceDuration > 0.0
    }

    /** Construction runs PreInitialization, then the description, then the information. */
    constructor ()
      ensures Valid()
      ensures initialization == [PreInitialization, DescriptionPhase, InformationPhase]
      ensures hasDescription && hasInformation && informationCreated == 1 && informationWidth.None?
      ensures State() == Debounce(false, 0.0) && resizeDebounceDuration == 1.0 && resizeEvents == 0
    {
      resizeDebounceTimer := 0.0;
      resizeDebounceDuration := 1.0;
      shouldStartResizeTimer := false;
      resizeEvents := 0;
      initialization := [PreInitialization];
      hasDescription := true;
      initialization := initialization + [DescriptionPhase];
      hasInformation := true;
      informationCreated := 1;
      informationWidth := None;
      initialization := initialization + [InformationPhase];
    }

    /** TrackUpdate: one editor update of the debounce; OnResize fires when the timer runs out. */
    method TrackUpdate(delta: real) returns (fired: bool)
      requires Valid()
      modifies this
      ensures Valid()
      ensures DebounceUpdate(old(State()), delta) == DebounceStep(State(), fired)
      ensures resizeEvents == old(resizeEvents) + if fired then 1 else 0
      ensures resizeDebounceDuration == old(resizeDebounceDuration)
      ensures hasDescription == old(hasDescription) && hasInformation == old(hasInformation)
      ensures informationCreated == old(informationCreated) && informationWidth == old(informationWidth)
      ensures initialization == old(initialization)
    {
      fired := false;
      if shouldStartResizeTimer {
        resizeDebounceTimer := resizeDebounceTimer - delta;
        if resizeDebounceTimer <= 0.0 {
          resizeDebounceTimer := 0.0;
          shouldStartResizeTimer := false;
          resizeEvents := resizeEvents + 1;
          fired := true;
        }
      }
    }

    /**
     * ElementResized: (re)start the debounce from the full duration, and
     * copy the adapted element's width when both it and the container exist.
     */
    method ElementResized(adaptedWidth: Option<real>)
      requires Valid()
      modifies this
      ensures Valid()
      ensures State() == Debounce(true, resizeDebounceDuration) && resizeDebounceDuration == old(resizeDebounceDuration)
      ensures informationWidth == if hasInformation && adaptedWidth.Some? then adaptedWidth else old(informationWidth)
      ensures resizeEvents == old(resizeEvents)
      ensures hasDescription == old(hasDescription) && hasInformation == old(hasInformation)
      ensures informationCreated == old(informationCreated) && initialization == old(initialization)
    {
      shouldStartResizeTimer := true;
      resizeDebounceTimer := resizeDebounceDuration;
      if hasInformation && adaptedWidth.Some? {
        informationWidth := adaptedWidth;
      }
    }

    /** ToggleVisibility: remove the information container, or create a fresh one. */
    method ToggleVisibility()
      modifies this
      ensures hasInformation == !old(hasInformation)
      ensures informationCreated == old(informationCreated) + if old(hasInformation) then 0 else 1
      ensures hasDescription == old(hasDescription) && informationWidth == old(informationWidth)
      ensures State() == old(State()) && resizeEvents == old(resizeEvents)
      ensures resizeDebounceDuration == old(resizeDebounceDuration) && initialization == old(initialization)
    {
      if !hasInformation {
        hasInformation := true;
        informationCreated := informationCreated + 1;
      } else {
        hasInformation := false;
      }
    }

    /** DeleteTrack: both containers end up removed, whether or not they existed. */
    method DeleteTrack()
      modifies this
      ensures !hasDescription && !hasInformation
      ensures informationCreated == old(informationCreated) && informationWidth == old(informationWidth)
      ensures State() == old(State()) && resizeEvents == old(resizeEvents)
      ensures resizeDebounceDuration == old(resizeDebounceDuration) && initialization == old(initialization)
    {
      hasDescription := false;
      hasInformation := false;
    }
  }
}
