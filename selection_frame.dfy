/**
 * The transformation state of `SelectionFrame` in
 * src/components/selection_frame.rs: the lock that keeps a drag from
 * overlapping another, the integrate-on-move flag, the pending translation
 * and scale, and the pointer handlers of the move button that take and
 * release the lock.
 *
 * No `RefCell` modelled here is held across a call back into the
 * operations modelled here: `set_integrate_on_move` holds the lock's cell
 * only across its own read and write. So their `try_borrow`s cannot be
 * refused and the model keeps the plain values. The one exception is
 * `reset_transformation` when the user's `get_bounds` closure calls back
 * into it during `integrate_transformation`. That path lies in the
 * geometry this model leaves out. A pointer handler is the opaque id of its closure; the
 * host runs a handler only while it is registered.
 */
module SelectionFrames {
  import opened Wrappers
  import opened Host
  import opened SharedEvents

  /** `Vector` of src/common/vector.rs, as exact reals. */
  datatype Vector = Vector(x: real, y: real)

  const Zero: Vector := Vector(0.0, 0.0)

  /** The closures the frame installs on its move button. */
  const DownHandler: nat := 0
  const MoveHandler: nat := 1
  const UpHandler: nat := 2

  class SelectionFrame {
    var locked: bool
    var integrateOnMove: bool
    var translation: Vector
    var scale: real
    /** The move button, the target of the three pointer listeners. */
    const button: EventTarget
    const moveDown: SharedEventListener
    const moveMove: SharedEventListener
    const moveUp: SharedEventListener

    /**
     * The three listeners are live and distinct on the button; the down
     * handler is always installed, and the move and up handlers are installed
     * exactly while the lock is held.
     */
    ghost predicate Valid()
      reads this, moveDown, moveMove, moveUp, button
    {
      moveDown != moveMove && moveMove != moveUp && moveDown != moveUp &&
      moveDown.target == button && moveMove.target == button && moveUp.target == button &&
      moveDown.eventname == "pointerdown" && moveMove.eventname == "pointermove" && moveUp.eventname == "pointerup" &&
      moveDown.Valid() && moveMove.Valid() && moveUp.Valid() &&
      !moveDown.dropped && !moveMove.dropped && !moveUp.dropped &&
      moveDown.handler.Some? && moveDown.handler.value.handler == DownHandler &&
      (locked <==> moveMove.handler.Some?) && (locked <==> moveUp.handler.Some?) &&
      (moveMove.handler.Some? ==> moveMove.handler.value.handler == MoveHandler) &&
      (moveUp.handler.Some? ==> moveUp.handler.value.handler == UpHandler)
    }

    /** `new`, as far as the lock is concerned: unlocked, no pending transformation, the down handler installed. */
    constructor (button: EventTarget)
      requires button.accepting
      modifies button
      ensures Valid() && !locked && !integrateOnMove && translation == Zero && scale == 1.0
      ensures this.button == button && fresh(moveDown) && fresh(moveMove) && fresh(moveUp)
      ensures button.registrations == old(button.registrations) + {("pointerdown", moveDown.handler.value)}
    {
      this.button := button;
      var down := new SharedEventListener(button, "pointerdown");
      var move := new SharedEventListener(button, "pointermove");
      var up := new SharedEventListener(button, "pointerup");
      moveDown, moveMove, moveUp := down, move, up;
      locked, integrateOnMove, translation, scale := false, false, Zero, 1.0;
      new;
      moveDown.SetHandler(DownHandler);
    }

    /** `lock_transformation`: true exactly when the lock was free, and the lock is held afterwards either way. */
    method LockTransformation() returns (acquired: bool)
      modifies this`locked
      ensures acquired == !old(locked) && locked
    {
      if locked {
        return false;
      }
      locked := true;
      acquired := true;
    }

    /** `unlock_transformation`. */
    method UnlockTransformation()
      modifies this`locked
      ensures !locked
    {
      locked := false;
    }

    /** `set_integrate_on_move`: ignored while a drag holds the lock, stored otherwise. */
    method SetIntegrateOnMove(value: bool)
      requires Valid()
      modifies this`integrateOnMove
      ensures Valid()
      ensures integrateOnMove == if locked then old(integrateOnMove) else value
    {
      if locked {
        return;
      }
      integrateOnMove := value;
    }

    /** `reset_transformation`: no translation and unit scale. */
    method ResetTransformation() returns (r: Outcome<Unit>)
      requires Valid()
      modifies this`translation, this`scale
      ensures Valid() && r == Pass && translation == Zero && scale == 1.0
    {
      translation := Zero;
      scale := 1.0;
      r := Pass;
    }

    /**
     * The pointer-down handler: with the primary button alone pressed it
     * takes the lock and, only if that succeeds, installs the move and up
     * handlers; otherwise it changes nothing.
     */
    method OnMoveDown(buttons: int)
      requires Valid() && button.accepting
      modifies this`locked, moveMove, moveUp, button
      ensures Valid()
      ensures buttons != 1 || old(locked) ==> locked == old(locked) && button.registrations == old(button.registrations)
      ensures buttons == 1 && !old(locked) ==>
                locked && button.registrations == old(button.registrations) + {("pointermove", moveMove.handler.value), ("pointerup", moveUp.handler.value)}
    {
      if buttons != 1 {
        return;
      }
      var acquired := LockTransformation();
      if !acquired {
        return;
      }
      moveMove.SetHandler(MoveHandler);
      moveUp.SetHandler(UpHandler);
    }

    /**
     * The pointer-up handler, which runs only while it is installed, that is
     * while the lock is held: it releases the lock and removes the move and
     * up handlers, its own included.
     */
    method OnMoveUp()
      requires Valid() && button.accepting && locked
      modifies this`locked, moveMove, moveUp, button
      ensures Valid() && !locked
      ensures button.registrations == old(button.registrations) - {("pointermove", old(moveMove.handler).value), ("pointerup", old(moveUp.handler).value)}
    {
      UnlockTransformation();
      moveMove.RemoveHandler();
      moveUp.RemoveHandler();
    }
  }

  /**
   * During a drag: the first press takes the lock and installs the move
   * handler, a second press changes nothing, and the flag cannot be changed.
   */
  method PressTwice() returns (firstLocked: bool, dragging: set<nat>, secondLocked: bool, flagMidDrag: bool)
    ensures firstLocked && dragging == {MoveHandler} && secondLocked && !flagMidDrag
  {
    var button := new EventTarget(true);
    var frame := new SelectionFrame(button);
    frame.OnMoveDown(1);
    firstLocked := frame.locked;
    dragging := Handlers(button.registrations, "pointermove");
    frame.OnMoveDown(1);
    secondLocked := frame.locked;
    frame.SetIntegrateOnMove(true);
    flagMidDrag := frame.integrateOnMove;
  }

  /** Releasing the pointer ends the drag: the move handler is gone, and the flag can be set again. */
  method PressRelease() returns (afterRelease: set<nat>, locked: bool, flagAfter: bool)
    ensures afterRelease == {} && !locked && flagAfter
  {
    var button := new EventTarget(true);
    var frame := new SelectionFrame(button);
    frame.OnMoveDown(1);
    frame.OnMoveUp();
    afterRelease := Handlers(button.registrations, "pointermove");
    locked := frame.locked;
    frame.SetIntegrateOnMove(true);
    flagAfter := frame.integrateOnMove;
  }

  /** A press with another button combination takes no lock and installs nothing. */
  method SecondaryPress(buttons: int) returns (locked: bool, moving: set<nat>)
    requires buttons != 1
    ensures !locked && moving == {}
  {
    var button := new EventTarget(true);
    var frame := new SelectionFrame(button);
    frame.OnMoveDown(buttons);
    locked := frame.locked;
    moving := Handlers(button.registrations, "pointermove");
  }
}
