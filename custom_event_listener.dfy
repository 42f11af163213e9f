/**
 * The single-handler event channels of src/events/custom_event_listener.rs.
 *
 * A handler closure is an opaque `HandlerId`; running it is recorded by
 * appending `(handler, argument)` to the listener's `calls`. Because a running
 * handler may call back into its own listener, `fire` is split into
 * `BeginFire` (the loan and the call) and `EndFire` (returning the loan); the
 * client methods at the end of the module write such nested calls between
 * the two halves.
 */
module CustomEvents {
  import opened Wrappers

  /** An opaque stand-in for a boxed handler closure. */
  type HandlerId = nat

  /**
   * `CustomEventListener<A>`: one handler slot and a loan flag. While a fire
   * runs the handler, the handler is out of the slot and `loaned` is set; it
   * goes back only if `loaned` is still set when the handler returns.
   */
  class CustomEventListener<A> {
    var handler: Option<HandlerId>
    var loaned: bool
    /** Every handler invocation so far, with its argument, oldest first. */
    var calls: seq<(HandlerId, A)>

    /** While the flag is set the slot is empty: the handler is with the running fire. */
    ghost predicate Valid()
      reads this
    {
      loaned ==> handler == None
    }

    constructor ()
      ensures Valid()
      ensures handler == None && !loaned && calls == []
    {
      handler, loaned, calls := None, false, [];
    }

    /** Refused (the handler is handed back) while a fire holds the loan. */
    method SetHandler(h: HandlerId) returns (r: Result<Option<HandlerId>, HandlerId>)
      requires Valid()
      modifies this
      ensures Valid() && calls == old(calls)
      ensures old(loaned) ==> r == Err(h) && handler == old(handler) && loaned
      ensures !old(loaned) ==> r == Ok(old(handler)) && handler == Some(h) && !loaned
    {
      var loan := LoanHandler();
      if loan.Err? {
        return Err(h);
      }
      ReturnHandler(Some(h));
      r := Ok(loan.value);
    }

    /** `SetHandler` that hands back the listener itself, alone or with the refused handler. */
    method WithHandler(h: HandlerId) returns (r: Result<CustomEventListener<A>, (CustomEventListener<A>, HandlerId)>)
      requires Valid()
      modifies this
      ensures Valid() && calls == old(calls)
      ensures old(loaned) ==> r == Err((this, h)) && handler == old(handler) && loaned
      ensures !old(loaned) ==> r == Ok(this) && handler == Some(h) && !loaned
    {
      var outcome := SetHandler(h);
      match outcome
      case Ok(_) => r := Ok(this);
      case Err(refused) => r := Err((this, refused));
    }

    /** Never fails: clears the flag too, so a running fire will not put its loan back. */
    method RemoveHandler()
      modifies this
      ensures Valid()
      ensures handler == None && !loaned && calls == old(calls)
    {
      loaned := false;
      handler := None;
    }

    /** `loan_handler`: take the handler out of the slot and set the flag; fails if already set. */
    method LoanHandler() returns (r: Result<Option<HandlerId>, Unit>)
      requires Valid()
      modifies this
      ensures Valid() && loaned && calls == old(calls)
      ensures old(loaned) ==> r == Err(Unit) && handler == old(handler)
      ensures !old(loaned) ==> r == Ok(old(handler)) && handler == None
    {
      if loaned {
        return Err(Unit);
      }
      var loan := handler;
      handler := None;
      loaned := true;
      r := Ok(loan);
    }

    /** `return_handler`: restore the loan only if the flag is still set; always clear the flag. */
    method ReturnHandler(loan: Option<HandlerId>)
      modifies this
      ensures Valid() && !loaned && calls == old(calls)
      ensures handler == if old(loaned) then loan else old(handler)
    {
      if loaned {
        handler := loan;
      }
      loaned := false;
    }

    /**
     * The first half of `fire`: the loan (whose failure returns at once,
     * before any handler runs and without touching the flag) and the call of
     * the loaned handler.
     */
    method BeginFire(argument: A) returns (r: Result<Option<HandlerId>, Unit>)
      requires Valid()
      modifies this
      ensures Valid() && loaned
      ensures old(loaned) ==> r == Err(Unit) && handler == old(handler) && calls == old(calls)
      ensures !old(loaned) ==> r == Ok(old(handler)) && handler == None
      ensures !old(loaned) ==> calls == old(calls) + (if old(handler).Some? then [(old(handler).value, argument)] else [])
    {
      r := LoanHandler();
      if r.Ok? && r.value.Some? {
        calls := calls + [(r.value.value, argument)];
      }
    }

    /** The second half of `fire`: return the loan and report whether a handler ran. */
    method EndFire(loan: Option<HandlerId>) returns (r: Result<bool, Unit>)
      modifies this
      ensures Valid() && !loaned && calls == old(calls)
      ensures handler == if old(loaned) then loan else old(handler)
      ensures r == Ok(loan.Some?)
    {
      ReturnHandler(loan);
      r := Ok(loan.Some?);
    }

    /** `fire` with a handler that makes no call on this listener. */
    method Fire(argument: A) returns (r: Result<bool, Unit>)
      requires Valid()
      modifies this
      ensures Valid()
      ensures old(loaned) ==> r == Err(Unit) && handler == old(handler) && loaned && calls == old(calls)
      ensures !old(loaned) ==> r == Ok(old(handler).Some?) && handler == old(handler) && !loaned
      ensures !old(loaned) ==> calls == old(calls) + (if old(handler).Some? then [(old(handler).value, argument)] else [])
    {
      var loan := BeginFire(argument);
      if loan.Err? {
        return Err(Unit);
      }
      r := EndFire(loan.value);
    }
  }

  /**
   * `CustomRefEventListener<A>`: one handler slot in a `RefCell`, mutably
   * borrowed for as long as `fire` runs the handler, so that every call the
   * handler makes on its own listener is refused.
   */
  class CustomRefEventListener<A> {
    var handler: Option<HandlerId>
    /** The slot is mutably borrowed by a running fire. */
    var borrowed: bool
    var calls: seq<(HandlerId, A)>

    constructor ()
      ensures handler == None && !borrowed && calls == []
    {
      handler, borrowed, calls := None, false, [];
    }

    method SetHandler(h: HandlerId) returns (r: Result<Option<HandlerId>, HandlerId>)
      modifies this
      ensures borrowed == old(borrowed) && calls == old(calls)
      ensures old(borrowed) ==> r == Err(h) && handler == old(handler)
      ensures !old(borrowed) ==> r == Ok(old(handler)) && handler == Some(h)
    {
      if borrowed {
        return Err(h);
      }
      r := Ok(handler);
      handler := Some(h);
    }

    method WithHandler(h: HandlerId) returns (r: Result<CustomRefEventListener<A>, (CustomRefEventListener<A>, HandlerId)>)
      modifies this
      ensures borrowed == old(borrowed) && calls == old(calls)
      ensures old(borrowed) ==> r == Err((this, h)) && handler == old(handler)
      ensures !old(borrowed) ==> r == Ok(this) && handler == Some(h)
    {
      var outcome := SetHandler(h);
      match outcome
      case Ok(_) => r := Ok(this);
      case Err(refused) => r := Err((this, refused));
    }

    method RemoveHandler() returns (r: Result<Option<HandlerId>, Unit>)
      modifies this
      ensures borrowed == old(borrowed) && calls == old(calls)
      ensures old(borrowed) ==> r == Err(Unit) && handler == old(handler)
      ensures !old(borrowed) ==> r == Ok(old(handler)) && handler == None
    {
      if borrowed {
        return Err(Unit);
      }
      r := Ok(handler);
      handler := None;
    }

    /**
     * The first half of `fire`: refused while borrowed; with an empty slot
     * the borrow ends at once and the result is `Ok(false)`; otherwise the
     * borrow is held and the handler runs until `EndFire`.
     */
    method BeginFire(argument: A) returns (r: Result<bool, Unit>)
      modifies this
      ensures handler == old(handler)
      ensures old(borrowed) ==> r == Err(Unit) && borrowed && calls == old(calls)
      ensures !old(borrowed) ==> r == Ok(handler.Some?) && borrowed == handler.Some?
      ensures !old(borrowed) ==> calls == old(calls) + (if handler.Some? then [(handler.value, argument)] else [])
    {
      if borrowed {
        return Err(Unit);
      }
      if handler.None? {
        return Ok(false);
      }
      borrowed := true;
      calls := calls + [(handler.value, argument)];
      r := Ok(true);
    }

    /** The handler has returned: its borrow of the slot ends. */
    method EndFire()
      requires borrowed
      modifies this
      ensures !borrowed && handler == old(handler) && calls == old(calls)
    {
      borrowed := false;
    }

    /** `fire` with a handler that makes no call on this listener. */
    method Fire(argument: A) returns (r: Result<bool, Unit>)
      modifies this
      ensures handler == old(handler)
      ensures old(borrowed) ==> r == Err(Unit) && borrowed && calls == old(calls)
      ensures !old(borrowed) ==> r == Ok(handler.Some?) && !borrowed
      ensures !old(borrowed) ==> calls == old(calls) + (if handler.Some? then [(handler.value, argument)] else [])
    {
      r := BeginFire(argument);
      if r == Ok(true) {
        EndFire();
      }
    }
  }

  /** A handler that fires its own listener again: the inner fire is refused, the outer one completes and restores it. */
  method ReentrantFire<A>(h: HandlerId, outer: A, inner: A)
    returns (outerResult: Result<bool, Unit>, innerResult: Result<bool, Unit>, calls: seq<(HandlerId, A)>, slot: Option<HandlerId>)
    ensures outerResult == Ok(true) && innerResult == Err(Unit)
    ensures calls == [(h, outer)] && slot == Some(h)
  {
    var l := new CustomEventListener<A>();
    var previous := l.SetHandler(h);
    var loan := l.BeginFire(outer);
    innerResult := l.Fire(inner);
    outerResult := l.EndFire(loan.value);
    calls, slot := l.calls, l.handler;
  }

  /** A handler that tries to replace itself: refused, and it is back in the slot afterwards. */
  method SetHandlerDuringFire<A>(h: HandlerId, g: HandlerId, x: A)
    returns (replaced: Result<Option<HandlerId>, HandlerId>, fired: Result<bool, Unit>, slot: Option<HandlerId>)
    ensures replaced == Err(g) && fired == Ok(true) && slot == Some(h)
  {
    var l := new CustomEventListener<A>();
    var previous := l.SetHandler(h);
    var loan := l.BeginFire(x);
    replaced := l.SetHandler(g);
    fired := l.EndFire(loan.value);
    slot := l.handler;
  }

  /** A handler that removes itself: the outer fire does not put it back. */
  method RemoveHandlerDuringFire<A>(h: HandlerId, x: A)
    returns (fired: Result<bool, Unit>, slot: Option<HandlerId>, loaned: bool)
    ensures fired == Ok(true) && slot == None && !loaned
  {
    var l := new CustomEventListener<A>();
    var previous := l.SetHandler(h);
    var loan := l.BeginFire(x);
    l.RemoveHandler();
    fired := l.EndFire(loan.value);
    slot, loaned := l.handler, l.loaned;
  }

  /** A handler that removes itself and then installs `g`: `g` survives the end of the outer fire. */
  method ReplaceAfterRemoveDuringFire<A>(h: HandlerId, g: HandlerId, x: A)
    returns (replaced: Result<Option<HandlerId>, HandlerId>, fired: Result<bool, Unit>, slot: Option<HandlerId>)
    ensures replaced == Ok(None) && fired == Ok(true) && slot == Some(g)
  {
    var l := new CustomEventListener<A>();
    var previous := l.SetHandler(h);
    var loan := l.BeginFire(x);
    l.RemoveHandler();
    replaced := l.SetHandler(g);
    fired := l.EndFire(loan.value);
    slot := l.handler;
  }

  /** Firing an empty channel reports "not handled"; after installing `a` then `b` only `b` runs. */
  method ReplaceThenFire<A>(a: HandlerId, b: HandlerId, x: A)
    returns (unhandled: Result<bool, Unit>, first: Result<Option<HandlerId>, HandlerId>,
             second: Result<Option<HandlerId>, HandlerId>, fired: Result<bool, Unit>, calls: seq<(HandlerId, A)>)
    ensures unhandled == Ok(false) && first == Ok(None) && second == Ok(Some(a))
    ensures fired == Ok(true) && calls == [(b, x)]
  {
    var l := new CustomEventListener<A>();
    unhandled := l.Fire(x);
    first := l.SetHandler(a);
    second := l.SetHandler(b);
    fired := l.Fire(x);
    calls := l.calls;
  }

  /** Inside its running handler, every call on a `CustomRefEventListener` is refused. */
  method RefListenerDuringFire<A>(h: HandlerId, g: HandlerId, x: A, y: A)
    returns (fired: Result<bool, Unit>, innerFire: Result<bool, Unit>, innerSet: Result<Option<HandlerId>, HandlerId>,
             innerRemove: Result<Option<HandlerId>, Unit>, slot: Option<HandlerId>, calls: seq<(HandlerId, A)>)
    ensures fired == Ok(true) && innerFire == Err(Unit) && innerSet == Err(g) && innerRemove == Err(Unit)
    ensures slot == Some(h) && calls == [(h, x)]
  {
    var l := new CustomRefEventListener<A>();
    var previous := l.SetHandler(h);
    fired := l.BeginFire(x);
    innerFire := l.Fire(y);
    innerSet := l.SetHandler(g);
    innerRemove := l.RemoveHandler();
    l.EndFire();
    slot, calls := l.handler, l.calls;
  }
}
