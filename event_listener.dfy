/**
 * `EventListener` of src/events/event_listener.rs: the `&mut self` twin of
 * `SharedEventListener`, owning at most one host registration at a time for
 * one event name. `wrapped`, `dropped` and the `accepting` guards mean what
 * they mean there.
 */
module Events {
  import opened Wrappers
  import opened Host

  class EventListener {
    const target: EventTarget
    const eventname: string
    var handler: Option<Closure>
    /**
     * The closures this listener has made and not leaked through `forget`;
     * they define which registrations are the listener's. A replaced or
     * removed closure stays in the set, unregistered, since it is no longer in
     * the slot. A closure given up by `forget` leaves the set, keeps its
     * `owner` and stays registered.
     */
    ghost var wrapped: set<Closure>
    ghost var dropped: bool

    ghost predicate Valid()
      reads this, target
    {
      (forall c | c in wrapped :: c.owner == this) &&
      (handler.Some? ==> handler.value in wrapped) &&
      (forall c | c in wrapped :: (eventname, c) in target.registrations <==> handler == Some(c))
    }

    /** `new`: no handler, and nothing registered on the target. */
    constructor (target: EventTarget, eventname: string)
      ensures Valid() && this.target == target && this.eventname == eventname
      ensures handler == None && wrapped == {} && !dropped
    {
      this.target, this.eventname := target, eventname;
      handler, wrapped, dropped := None, {}, false;
    }

    /** `remove_handler`: take the closure, if any, and remove its registration; with none, do nothing. */
    method RemoveHandler()
      requires Valid() && !dropped && (handler.Some? ==> target.accepting)
      modifies this`handler, target
      ensures Valid() && handler == None
      ensures target.registrations == old(target.registrations) - Backing(eventname, old(handler))
    {
      match handler
      case None =>
      case Some(closure) =>
        handler := None;
        var _ := target.RemoveEventListener(eventname, closure);
    }

    /** `set_handler`: `remove_handler`, then a fresh closure around `h` is added and kept. */
    method SetHandler(h: nat)
      requires Valid() && !dropped && target.accepting
      modifies this, target
      ensures Valid() && !dropped
      ensures handler.Some? && fresh(handler.value) && handler.value.handler == h
      ensures wrapped == old(wrapped) + {handler.value}
      ensures target.registrations == old(target.registrations) - Backing(eventname, old(handler)) + {(eventname, handler.value)}
    {
      RemoveHandler();
      var closure := new Closure(h, this);
      var _ := target.AddEventListener(eventname, closure);
      wrapped := wrapped + {closure};
      handler := Some(closure);
    }

    /** `with_handler`: `set_handler`, then the same listener back. */
    method WithHandler(h: nat) returns (r: EventListener)
      requires Valid() && !dropped && target.accepting
      modifies this, target
      ensures r == this && Valid() && !dropped
      ensures handler.Some? && fresh(handler.value) && handler.value.handler == h
      ensures wrapped == old(wrapped) + {handler.value}
      ensures target.registrations == old(target.registrations) - Backing(eventname, old(handler)) + {(eventname, handler.value)}
    {
      SetHandler(h);
      r := this;
    }

    /** `Drop`: `remove_handler`. */
    method Drop()
      requires Valid() && !dropped && (handler.Some? ==> target.accepting)
      modifies this, target
      ensures Valid() && dropped && handler == None && wrapped == old(wrapped)
      ensures target.registrations == old(target.registrations) - Backing(eventname, old(handler))
    {
      RemoveHandler();
      dropped := true;
    }

    /** `forget`: the closure is taken out and leaked, still registered; the drop that follows removes nothing. */
    method Forget()
      requires Valid() && !dropped
      modifies this, target
      ensures Valid() && dropped && handler == None
      ensures wrapped == old(wrapped) - (if old(handler).Some? then {old(handler).value} else {})
      ensures target.registrations == old(target.registrations)
    {
      if handler.Some? {
        wrapped := wrapped - {handler.value};
        handler := None;
      }
      Drop();
    }
  }

  /**
   * Of the closures the listener has made and not leaked (`wrapped`), the target has registered
   * for its event only the one in its field: at most one registration, made by
   * this listener. Valid does not speak of other event names, which the
   * listener never registers under.
   */
  lemma AtMostOneRegistration(l: EventListener)
    requires l.Valid()
    ensures Registered(l.target.registrations, l.eventname, l.wrapped) == if l.handler.Some? then {l.handler.value} else {}
    ensures forall c | c in Registered(l.target.registrations, l.eventname, l.wrapped) :: c.owner == l
  {
    if l.handler.Some? {
      assert l.handler.value in Registered(l.target.registrations, l.eventname, l.wrapped);
    }
  }

  /** `EventListener::new(..).with_handler(h).forget()`: the setup idiom leaves `h` handling the event for good. */
  method SetUpAndForget(eventname: string, h: nat) returns (dispatched: set<nat>)
    ensures dispatched == {h}
  {
    var target := new EventTarget(true);
    var l := new EventListener(target, eventname);
    var same := l.WithHandler(h);
    same.Forget();
    dispatched := Handlers(target.registrations, eventname);
  }

  /** Replacing a handler and then dropping the listener leaves nothing registered for the event. */
  method ReplaceThenDrop(eventname: string, first: nat, second: nat) returns (whileHeld: set<nat>, afterDrop: set<nat>)
    ensures whileHeld == {second} && afterDrop == {}
  {
    var target := new EventTarget(true);
    var l := new EventListener(target, eventname);
    l.SetHandler(first);
    l.SetHandler(second);
    whileHeld := Handlers(target.registrations, eventname);
    l.Drop();
    afterDrop := Handlers(target.registrations, eventname);
  }
}
