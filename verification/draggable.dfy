/**
 * `useDraggable(el, options)` and `clamp` (src/draggable.ts). The DOM is
 * abstracted: a pointer event is its client coordinates, button and
 * `isPrimary` flag, and the element's bounding rectangle is a parameter.
 * Coordinates are integers.
 */
module Draggable {
  import opened Wrappers

  datatype Position = Position(x: int, y: int)

  datatype Axis = X | Y | Both

  datatype PointerEvent = PointerEvent(clientX: int, clientY: int, button: int, isPrimary: bool)

  /** The left and top of `el.getBoundingClientRect()`. */
  datatype Rect = Rect(left: int, top: int)

  /**
   * The options `useDraggable` reads; absent fields take their defaults.
   * `onStart` is modelled by whether it returns `false` for a position and event.
   */
  datatype DragOptions = DragOptions(
    initialPosition: Option<Position>,
    onStart: Option<(Position, PointerEvent) -> bool>,
    ignoreMultiPointer: bool,
    leftClick: Option<bool>,
    axis: Option<Axis>,
    bindOnMount: Option<bool>)

  /** `Math.min(Math.max(val, min), max)` */
  function Clamp(min: int, val: int, max: int): (r: int)
    ensures min <= max ==> min <= r <= max
    ensures min <= val <= max ==> r == val
    ensures val < min <= max ==> r == min
    ensures min > max ==> r == max
  {
    if (if val > min then val else min) < max then (if val > min then val else min) else max
  }

  /**
   * With `min <= max` the result lies in `[min, max]`, equals `val` when
   * `val` already does, and clamping twice changes nothing. With `min > max`
   * the result is `max`.
   */
  lemma ClampBounds(min: int, val: int, max: int)
    ensures min <= max ==> min <= Clamp(min, val, max) <= max
    ensures min <= val <= max ==> Clamp(min, val, max) == val
    ensures min <= max ==> Clamp(min, Clamp(min, val, max), max) == Clamp(min, val, max)
    ensures min > max ==> Clamp(min, val, max) == max
  {
  }

  /** `/(both|x)/.test(axis)` */
  predicate CanMoveX(axis: Axis)
  {
    axis == Both || axis == X
  }

  /** `/(both|y)/.test(axis)` */
  predicate CanMoveY(axis: Axis)
  {
    axis == Both || axis == Y
  }

  /** The pointerdown guard: the conditions under which the event is ignored. */
  predicate IgnoresDown(ignoreMultiPointer: bool, leftClick: bool, dragging: bool, e: PointerEvent)
  {
    (ignoreMultiPointer && e.isPrimary) || dragging || (leftClick && e.button != 0)
  }

  /** The position a pointermove gives: movable axes follow the pointer, a locked one keeps its coordinate. */
  function MovedTo(axis: Axis, current: Position, start: Position, e: PointerEvent): (p: Position)
    ensures p.x == if CanMoveX(axis) then e.clientX - start.x else current.x
    ensures p.y == if CanMoveY(axis) then e.clientY - start.y else current.y
  {
    Position(if CanMoveX(axis) then e.clientX - start.x else current.x,
             if CanMoveY(axis) then e.clientY - start.y else current.y)
  }

  /** Locking an axis pins that coordinate; `Both` moves the element so the grab point stays under the pointer. */
  lemma AxisLock(current: Position, start: Position, e: PointerEvent)
    ensures MovedTo(X, current, start, e).y == current.y
    ensures MovedTo(Y, current, start, e).x == current.x
    ensures MovedTo(Both, current, start, e) == Position(e.clientX - start.x, e.clientY - start.y)
  {
  }

  class Drag {
    const axis: Axis
    const leftClick: bool
    const ignoreMultiPointer: bool
    const initialPosition: Position
    const onStart: Option<(Position, PointerEvent) -> bool>
    /** The `position` signal. */
    var position: Position
    /** The `startPosition` signal; `None` is `undefined`. */
    var start: Option<Position>
    /** How many sets of pointer listeners are attached. */
    var listeners: nat
    /** Whether the `cleanup` variable holds a function. */
    var hasCleanup: bool

    ghost predicate Valid()
      reads this
    {
      hasCleanup ==> listeners > 0
    }

    /**
     * The hook's setup: options take their defaults (`leftClick` true, the
     * initial position {0, 0}, `axis` 'both', `bindOnMount` true), the
     * position starts as a copy of the initial position, and with
     * `bindOnMount` the listeners are attached on mount.
     */
    constructor (options: DragOptions)
      ensures Valid()
      ensures axis == options.axis.GetOr(Both)
      ensures leftClick == options.leftClick.GetOr(true)
      ensures ignoreMultiPointer == options.ignoreMultiPointer
      ensures initialPosition == options.initialPosition.GetOr(Position(0, 0))
      ensures onStart == options.onStart
      ensures position == initialPosition && start == None
      ensures options.bindOnMount.GetOr(true) ==> listeners == 1 && hasCleanup
      ensures !options.bindOnMount.GetOr(true) ==> listeners == 0 && !hasCleanup
    {
      axis := options.axis.GetOr(Both);
      leftClick := options.leftClick.GetOr(true);
      ignoreMultiPointer := options.ignoreMultiPointer;
      initialPosition := options.initialPosition.GetOr(Position(0, 0));
      onStart := options.onStart;
      position := options.initialPosition.GetOr(Position(0, 0));
      start := None;
      if options.bindOnMount.GetOr(true) {
        listeners, hasCleanup := 1, true;
      } else {
        listeners, hasCleanup := 0, false;
      }
    }

    /** `isDragging`, as written: true exactly when no start position is recorded. */
    function IsDragging(): (dragging: bool)
      reads this
      ensures dragging <==> start == None
    {
      start.None?
    }

    /** `isDraggable`: whether a cleanup function is held. */
    function IsDraggable(): (draggable: bool)
      reads this
      ensures Valid() && draggable ==> listeners > 0
    {
      hasCleanup
    }

    /** `enable` (`bindEvents`): attaches one more set of listeners and keeps its cleanup. */
    method Enable()
      requires Valid()
      modifies this
      ensures Valid() && IsDraggable()
      ensures listeners == old(listeners) + 1
      ensures position == old(position) && start == old(start)
    {
      listeners := listeners + 1;
      hasCleanup := true;
    }

    /** `disable`: detaches the set of listeners whose cleanup is held, if any, and forgets it. */
    method Disable()
      requires Valid()
      modifies this
      ensures Valid() && !IsDraggable()
      ensures listeners == if old(hasCleanup) then old(listeners) - 1 else old(listeners)
      ensures position == old(position) && start == old(start)
    {
      if hasCleanup {
        listeners := listeners - 1;
      }
      hasCleanup := false;
    }

    /** `resetPosition`: a copy of the initial position. */
    method ResetPosition()
      modifies this
      ensures position == initialPosition
      ensures start == old(start) && listeners == old(listeners) && hasCleanup == old(hasCleanup)
    {
      position := initialPosition;
    }

    /**
     * A pointerdown on the handle. Ignored without listeners, when a start
     * is already recorded, for a non-left button under `leftClick`, or for a
     * primary pointer under `ignoreMultiPointer`; cancelled when `onStart`
     * returns false. Otherwise the start is the pointer relative to the rect.
     * A second set of listeners sees the start the first one recorded and
     * does nothing.
     */
    method PointerDown(e: PointerEvent, rect: Rect)
      modifies this
      ensures position == old(position) && listeners == old(listeners) && hasCleanup == old(hasCleanup)
      ensures var pos := Position(e.clientX - rect.left, e.clientY - rect.top);
              start == if old(listeners) > 0
                          && !IgnoresDown(ignoreMultiPointer, leftClick, old(start).Some?, e)
                          && !(onStart.Some? && !onStart.value(pos, e))
                       then Some(pos) else old(start)
    {
      if listeners == 0 || IgnoresDown(ignoreMultiPointer, leftClick, start.Some?, e) {
        return;
      }
      var pos := Position(e.clientX - rect.left, e.clientY - rect.top);
      if onStart.Some? && !onStart.value(pos, e) {
        return;
      }
      start := Some(pos);
    }

    /**
     * A pointermove. Without a start nothing happens; otherwise every
     * attached set of listeners sets the position from the pointer and the
     * start, and calls `onMove` with it. Returns the positions `onMove` receives.
     */
    method PointerMove(e: PointerEvent) returns (moves: seq<Position>)
      modifies this
      ensures start == old(start) && listeners == old(listeners) && hasCleanup == old(hasCleanup)
      ensures old(start).None? || listeners == 0 ==> position == old(position) && moves == []
      ensures old(start).Some? && listeners > 0 ==>
                && position == MovedTo(axis, old(position), old(start).value, e)
                && |moves| == listeners
                && (forall i :: 0 <= i < |moves| ==> moves[i] == position)
    {
      moves := [];
      if start.None? {
        return;
      }
      var from := start.value;
      var n := 0;
      while n < listeners
        invariant 0 <= n <= listeners
        invariant start == old(start) && listeners == old(listeners) && hasCleanup == old(hasCleanup)
        invariant |moves| == n
        invariant n > 0 ==> position == MovedTo(axis, old(position), from, e)
        invariant n == 0 ==> position == old(position)
        invariant forall i :: 0 <= i < n ==> moves[i] == position
      {
        position := MovedTo(axis, position, from, e);
        moves := moves + [position];
        n := n + 1;
      }
    }

    /**
     * A pointerup. Without a start it is a no-op; otherwise the first set of
     * listeners clears the start and reports the current position to
     * `onEnd`, and any further set finds no start.
     */
    method PointerUp(e: PointerEvent) returns (ended: Option<Position>)
      modifies this
      ensures position == old(position) && listeners == old(listeners) && hasCleanup == old(hasCleanup)
      ensures old(start).None? || listeners == 0 ==> start == old(start) && ended == None
      ensures old(start).Some? && listeners > 0 ==> start == None && ended == Some(position)
    {
      if listeners == 0 || start.None? {
        return None;
      }
      start := None;
      ended := Some(position);
    }
  }

  /**
   * `enable` on a draggable that is already bound attaches a second set of
   * listeners; the following `disable` removes only the latest set, so
   * `isDraggable` is false while pointer events are still handled.
   */
  method EnableTwiceThenDisable() returns (draggable: bool, attached: nat)
    ensures !draggable && attached == 1
  {
    var d := new Drag(DragOptions(None, None, false, None, None, None));
    d.Enable();
    d.Disable();
    draggable := d.IsDraggable();
    attached := d.listeners;
  }

  /** A drag along 'x' from (0, 0): the grab point is 5,5 inside the element, y stays 0. */
  method DragTrace() returns (moved: seq<Position>, ended: Option<Position>, dragging: bool)
    ensures moved == [Position(35, 0)] && ended == Some(Position(35, 0)) && dragging
  {
    var d := new Drag(DragOptions(None, None, false, None, Some(X), None));
    d.PointerDown(PointerEvent(15, 25, 0, true), Rect(10, 20));
    moved := d.PointerMove(PointerEvent(40, 90, 0, true));
    ended := d.PointerUp(PointerEvent(40, 90, 0, true));
    dragging := d.IsDragging();
  }
}
