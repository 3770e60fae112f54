/**
 * LineSwitcher (Assets/_Project/TestGameFiles/LineSwitcher.cs): a test-game
 * component that moves its object between a list of lines with the arrow
 * keys and cycles the controlled sprite through a list of colours with
 * Space. Line and colour indices wrap around modulo the list lengths.
 *
 * Inspector references are constructor parameters; an unassigned reference
 * (a real null, which `?.` detects) is None. Destroyed Unity objects are
 * not modelled. The keys pressed in a frame are a parameter of Update.
 */
module LineSwitching {
  import opened Base
  import opened UnityMath

  /** A Unity colour. */
  datatype Color = Color(r: real, g: real, b: real, a: real)

  /** A line object the switcher can be parented to. */
  datatype Line = Line(id: nat)

  /** The object whose sprite is recoloured: its name and whether it has a SpriteRenderer. */
  datatype Target = Target(name: string, hasRenderer: bool)

  datatype SwitchEvent = OnRight | OnLeft | OnChangeColor

  /** The keys that went down this frame. */
  datatype Keys = Keys(left: bool, right: bool, space: bool)

  function LineCount(lines: Option<seq<Option<Line>>>): nat
  {
    if lines.Some? then |lines.value| else 0
  }

  function ColorCount(colors: Option<seq<Color>>): nat
  {
    if colors.Some? then |colors.value| else 0
  }

  /** GoLeft's index step: +1 modulo the line count. */
  function LeftOf(line: int, count: int): (r: int)
    requires count > 0
    ensures 0 <= line < count ==> 0 <= r < count && r == (if line == count - 1 then 0 else line + 1)
  {
    if 0 <= line < count then CsModWrap(line + 1, count); CsMod(line + 1, count) else CsMod(line + 1, count)
  }

  /** GoRight's index step: −1 + count modulo the line count. */
  function RightOf(line: int, count: int): (r: int)
    requires count > 0
    ensures 0 <= line < count ==> 0 <= r < count && r == (if line == 0 then count - 1 else line - 1)
  {
    if 0 <= line < count then CsModWrap(line - 1 + count, count); CsMod(line - 1 + count, count) else CsMod(line - 1 + count, count)
  }

  /** NextColor's index step: +1 modulo the colour count. */
  function NextColorOf(color: int, count: int): (r: int)
    requires count > 0
    ensures 0 <= color < count ==> 0 <= r < count && r == (if color == count - 1 then 0 else color + 1)
  {
    if 0 <= color < count then CsModWrap(color + 1, count); CsMod(color + 1, count) else CsMod(color + 1, count)
  }

  /** GoLeft and GoRight undo each other. */
  lemma LeftRightInverse(line: int, count: int)
    requires 0 <= line < count
    ensures RightOf(LeftOf(line, count), count) == line
    ensures LeftOf(RightOf(line, count), count) == line
  {
  }

  /** The colour index after k presses of Space. */
  function ColorAfter(color: int, count: int, k: nat): int
    requires count > 0
    decreases k
  {
    if k == 0 then color else NextColorOf(ColorAfter(color, count, k - 1), count)
  }

  /** Within one lap, k presses of Space advance the colour index by k, wrapping once past the end. */
  lemma {:induction false} ColorAfterWraps(color: int, count: int, k: nat)
    requires 0 <= color < count && k <= count
    ensures ColorAfter(color, count, k) == (if color + k < count then color + k else color + k - count)
    decreases k
  {
    if k > 0 {
      ColorAfterWraps(color, count, k - 1);
    }
  }

  /** Pressing Space as many times as there are colours comes back to the start. */
  lemma FullColorCycle(color: int, count: int)
    requires 0 <= color < count
    ensures ColorAfter(color, count, count) == color
  {
    ColorAfterWraps(color, count, count);
  }

  /** Update's dispatch: at most one action per frame, Left before Right before Space. */
  function ActionOf(keys: Keys): (a: Option<SwitchEvent>)
    ensures keys.left ==> a == Some(OnLeft)
    ensures !keys.left && keys.right ==> a == Some(OnRight)
    ensures !keys.left && !keys.right && keys.space ==> a == Some(OnChangeColor)
    ensures !keys.left && !keys.right && !keys.space ==> a.None?
  {
    if keys.left then Some(OnLeft) else if keys.right then Some(OnRight) else if keys.space then Some(OnChangeColor) else None
  }

  /** The key that triggers each action. */
  predicate Pressed(keys: Keys, e: SwitchEvent)
  {
    match e
    case OnLeft => keys.left
    case OnRight => keys.right
    case OnChangeColor => keys.space
  }

  /** Update's order of tests: Left first, then Right, then Space. */
  function Priority(e: SwitchEvent): nat
  {
    match e
    case OnLeft => 0
    case OnRight => 1
    case OnChangeColor => 2
  }

  /**
   * Update runs the pressed action of highest priority and nothing else: an
   * action is chosen exactly when some key is pressed, its key is pressed,
   * and every other pressed key ranks below it.
   */
  lemma ActionIsHighestPriorityPressed(keys: Keys)
    ensures ActionOf(keys).None? <==> forall e :: !Pressed(keys, e)
    ensures ActionOf(keys).Some? ==>
      Pressed(keys, ActionOf(keys).value)
      && forall e :: Pressed(keys, e) && e != ActionOf(keys).value ==> Priority(ActionOf(keys).value) < Priority(e)
  {
    if ActionOf(keys).None? {
      forall e ensures !Pressed(keys, e) {
        match e
        case OnLeft =>
        case OnRight =>
        case OnChangeColor =>
      }
    } else {
      assert Pressed(keys, ActionOf(keys).value);
    }
  }

  /** The message of the first configuration check Awake fails, if any. */
  function AwakeError(target: Option<Target>, colors: Option<seq<Color>>, lines: Option<seq<Option<Line>>>): (r: Option<string>)
    ensures r.None? <==> target.Some? && target.value.hasRenderer && ColorCount(colors) > 0 && LineCount(lines) > 0
  {
    if target.None? then Some("LineSwitcher: GameObject to control is not assigned.")
    else if !target.value.hasRenderer then Some("LineSwitcher: No SpriteRenderer found on " + target.value.name + ".")
    else if ColorCount(colors) == 0 then Some("LineSwitcher: No colors available in AvailableColors.")
    else if LineCount(lines) == 0 then Some("LineSwitcher: Lines list is null or empty.")
    else None
  }

  class LineSwitcher {
    const lines: Option<seq<Option<Line>>>
    const colors: Option<seq<Color>>
    const target: Option<Target>
    var enabled: bool
    var currentLine: int
    var currentColor: int
    /** The SpriteRenderer's colour, once Awake has set it. */
    var rendererColor: Option<Color>
    /** The line the switcher's transform is parented to. */
    var parent: Option<Line>
    /** The OnRight, OnLeft and OnChangeColor invocations, in order. */
    var events: seq<SwitchEvent>
    var errors: seq<string>

    /** Both indices stay inside their lists whenever the list is not empty. */
    predicate Valid()
      reads this
    {
      0 <= currentLine && (LineCount(lines) > 0 ==> currentLine < LineCount(lines))
      && 0 <= currentColor && (ColorCount(colors) > 0 ==> currentColor < ColorCount(colors))
    }

    /** Both indices start at 0; the component starts enabled. */
    constructor (lines: Option<seq<Option<Line>>>, colors: Option<seq<Color>>, target: Option<Target>)
      ensures this.lines == lines && this.colors == colors && this.target == target
      ensures enabled && currentLine == 0 && currentColor == 0
      ensures rendererColor.None? && parent.None? && events == [] && errors == []
      ensures Valid()
    {
      this.lines := lines;
      this.colors := colors;
      this.target := target;
      enabled := true;
      currentLine := 0;
      currentColor := 0;
      rendererColor := None;
      parent := None;
      events := [];
      errors := [];
    }

    /**
     * Awake: any missing piece of configuration logs its error and disables
     * the component; otherwise the sprite takes the current colour and the
     * switcher moves onto the current line, which must exist.
     */
    method Awake()
      requires Valid()
      requires AwakeError(target, colors, lines).None? ==> lines.value[currentLine].Some?
      modifies this
      ensures Valid()
      ensures currentLine == old(currentLine) && currentColor == old(currentColor) && events == old(events)
      ensures AwakeError(target, colors, lines).Some? ==>
        !enabled && errors == old(errors) + [AwakeError(target, colors, lines).value]
        && rendererColor == old(rendererColor) && parent == old(parent)
      ensures AwakeError(target, colors, lines).None? ==>
        enabled == old(enabled) && errors == old(errors)
        && rendererColor == Some(colors.value[currentColor]) && parent == lines.value[currentLine]
    {
      var error := AwakeError(target, colors, lines);
      if error.Some? {
        errors := errors + [error.value];
        enabled := false;
        return;
      }
      rendererColor := Some(colors.value[currentColor]);
      parent := lines.value[currentLine];
    }

    /** GoRight: with lines, step the index back and follow the line if it still exists. */
    method GoRight()
      requires Valid()
      modifies this
      ensures Valid()
      ensures enabled == old(enabled) && currentColor == old(currentColor) && rendererColor == old(rendererColor)
      ensures errors == old(errors)
      ensures LineCount(lines) == 0 ==> currentLine == old(currentLine) && parent == old(parent) && events == old(events)
      ensures LineCount(lines) > 0 ==>
        currentLine == RightOf(old(currentLine), LineCount(lines)) && events == old(events) + [OnRight]
        && parent == (if lines.value[currentLine].Some? then lines.value[currentLine] else old(parent))
    {
      if LineCount(lines) == 0 {
        return;
      }
      var n := |lines.value|;
      currentLine := CsMod(currentLine - 1 + n, n);
      var targetLine := lines.value[currentLine];
      if targetLine.Some? {
        parent := targetLine;
      }
      events := events + [OnRight];
    }

    /** GoLeft: with lines, step the index forward and follow the line if it still exists. */
    method GoLeft()
      requires Valid()
      modifies this
      ensures Valid()
      ensures enabled == old(enabled) && currentColor == old(currentColor) && rendererColor == old(rendererColor)
      ensures errors == old(errors)
      ensures LineCount(lines) == 0 ==> currentLine == old(currentLine) && parent == old(parent) && events == old(events)
      ensures LineCount(lines) > 0 ==>
        currentLine == LeftOf(old(currentLine), LineCount(lines)) && events == old(events) + [OnLeft]
        && parent == (if lines.value[currentLine].Some? then lines.value[currentLine] else old(parent))
    {
      if LineCount(lines) == 0 {
        return;
      }
      var n := |lines.value|;
      currentLine := CsMod(currentLine + 1, n);
      var targetLine := lines.value[currentLine];
      if targetLine.Some? {
        parent := targetLine;
      }
      events := events + [OnLeft];
    }

    /** NextColor: with colours, step the colour index and recolour the sprite. */
    method NextColor()
      requires Valid()
      modifies this
      ensures Valid()
      ensures enabled == old(enabled) && currentLine == old(currentLine) && parent == old(parent)
      ensures errors == old(errors)
      ensures ColorCount(colors) == 0 ==>
        currentColor == old(currentColor) && rendererColor == old(rendererColor) && events == old(events)
      ensures ColorCount(colors) > 0 ==>
        currentColor == NextColorOf(old(currentColor), ColorCount(colors)) && events == old(events) + [OnChangeColor]
        && rendererColor == Some(colors.value[currentColor])
    {
      if ColorCount(colors) == 0 {
        return;
      }
      currentColor := CsMod(currentColor + 1, |colors.value|);
      rendererColor := Some(colors.value[currentColor]);
      events := events + [OnChangeColor];
    }

    /**
     * Update: nothing once disabled; otherwise the one action ActionOf picks,
     * with that action's full effect (GoLeft, GoRight or NextColor).
     */
    method Update(keys: Keys)
      requires Valid()
      modifies this
      ensures Valid() && enabled == old(enabled) && errors == old(errors)
      ensures !enabled || ActionOf(keys).None? ==>
        currentLine == old(currentLine) && currentColor == old(currentColor) && events == old(events)
        && parent == old(parent) && rendererColor == old(rendererColor)
      ensures enabled && (ActionOf(keys) == Some(OnLeft) || ActionOf(keys) == Some(OnRight)) ==>
        currentColor == old(currentColor) && rendererColor == old(rendererColor)
        && (LineCount(lines) == 0 ==> currentLine == old(currentLine) && parent == old(parent) && events == old(events))
        && (LineCount(lines) > 0 ==>
              currentLine == (if ActionOf(keys) == Some(OnLeft) then LeftOf(old(currentLine), LineCount(lines))
                              else RightOf(old(currentLine), LineCount(lines)))
              && events == old(events) + [ActionOf(keys).value]
              && parent == (if lines.value[currentLine].Some? then lines.value[currentLine] else old(parent)))
      ensures enabled && ActionOf(keys) == Some(OnChangeColor) ==>
        currentLine == old(currentLine) && parent == old(parent)
        && (ColorCount(colors) == 0 ==>
              currentColor == old(currentColor) && rendererColor == old(rendererColor) && events == old(events))
        && (ColorCount(colors) > 0 ==>
              currentColor == NextColorOf(old(currentColor), ColorCount(colors))
              && rendererColor == Some(colors.value[currentColor]) && events == old(events) + [OnChangeColor])
    {
      if !enabled {
        return;
      }
      if keys.left {
        GoLeft();
      } else if keys.right {
        GoRight();
      } else if keys.space {
        NextColor();
      }
    }
  }
}
