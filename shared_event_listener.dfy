/**
 * `SharedEventListener` of src/events/shared_event_listener.rs: a listener
 * that owns at most one host registration at a time for one event name.
 *
 * The `RefCell` around the slot is borrowed once per call; `set_handler`
 * holds it across `deregister_handler`, `Closure::wrap` and the host call,
 * none of which calls back into the listener, so its borrows cannot be
 * refused and the model leaves it out. `wrapped` is the ghost set of the
 * closures this listener has made and not leaked through `forget`; `Valid`
 * says that of those exactly the one in the slot is
 * registered on the target. A host add or remove that fails panics through
 * `expect`, so each host call is guarded by `target.accepting` in `requires`.
 */
module SharedEvents {
  import opened Wrappers
  import opened Host

  class SharedEventListener {
    const target: EventTarget
    const eventname: string
    var handler: Option<Closure>
    /**
     * The closures this listener has made and not leaked through `forget`;
     * they define which registrations are the listener's. A replaced or
     * removed closure stays in the set, unregistered, since it is no longer in
     * the slot. A closure given up by `forget` leaves the set, keeps its
     * `owner` and stays registered.
     */
    ghost var wrapped: set<Closure>
    /** Dropped, or consumed by `forget`: the listener may no longer be used. */
    ghost var dropped: bool

    ghost predicate Valid()
      reads this, target
    {
      (forall c | c in wrapped :: c.owner == this) &&
      (handler.Some? ==> handler.value in wrapped) &&
      (forall c | c in wrapped :: (eventname, c) in target.registrations <==> handler == Some(c))
    }

    /** `new`: an empty slot, and nothing registered on the target. */
    constructor (target: EventTarget, eventname: string)
      ensures Valid() && this.target == target && this.eventname == eventname
      ensures handler == None && wrapped == {} && !dropped
    {
      this.target, this.eventname := target, eventname;
      handler, wrapped, dropped := None, {}, false;
    }

    /** `deregister_handler`: take the slot's closure, if any, and remove its registration. */
    method DeregisterHandler()
      requires Valid() && (handler.Some? ==> target.accepting)
      modifies this`handler, target
      ensures Valid() && handler == None
      ensures target.registrations == old(target.registrations) - Backing(eventname, old(handler))
    {
      match handler
      case None =>
      case Some(closure) =>
        handler := None;
        var _ := target.RemoveEventListener(eventname, closure);
    }

    /** `set_handler`: the old registration goes first, then a fresh closure around `h` is added and kept. */
    method SetHandler(h: nat)
      requires Valid() && !dropped && target.accepting
      modifies this, target
      ensures Valid() && !dropped
      ensures handler.Some? && fresh(handler.value) && handler.value.handler == h
      ensures wrapped == old(wrapped) + {handler.value}
      ensures target.registrations == old(target.registrations) - Backing(eventname, old(handler)) + {(eventname, handler.value)}
    {
      DeregisterHandler();
      var closure := new Closure(h, this);
      var _ := target.AddEventListener(eventname, closure);
      wrapped := wrapped + {closure};
      handler := Some(closure);
    }

    /** `with_handler`: `set_handler`, then the same listener back. */
    method WithHandler(h: nat) returns (r: SharedEventListener)
      requires Valid() && !dropped && target.accepting
      modifies this, target
      ensures r == this && Valid() && !dropped
      ensures handler.Some? && fresh(handler.value) && handler.value.handler == h
      ensures wrapped == old(wrapped) + {handler.value}
      ensures target.registrations == old(target.registrations) - Backing(eventname, old(handler)) + {(eventname, handler.value)}
    {
      SetHandler(h);
      r := this;
    }

    /** `remove_handler`: with an empty slot nothing happens, so a second call is a no-op. */
    method RemoveHandler()
      requires Valid() && !dropped && (handler.Some? ==> target.accepting)
      modifies this, target
      ensures Valid() && !dropped && handler == None && wrapped == old(wrapped)
      ensures target.registrations == old(target.registrations) - Backing(eventname, old(handler))
    {
      DeregisterHandler();
    }

    /** `Drop`: `remove_handler`, which removes the live registration, if any. */
    method Drop()
      requires Valid() && !dropped && (handler.Some? ==> target.accepting)
      modifies this, target
      ensures Valid() && dropped && handler == None && wrapped == old(wrapped)
      ensures target.registrations == old(target.registrations) - Backing(eventname, old(handler))
    {
      RemoveHandler();
      dropped := true;
    }

    /**
     * `forget`: the closure leaves the slot and is leaked, still registered,
     * so the drop that follows has nothing to remove.
     */
    method Forget()
      requires Valid() && !dropped
      modifies this, target
      ensures Valid() && dropped && handler == None
      ensures wrapped == old(wrapped) - (if old(handler).Some? then {old(handler).value} else {})
      ensures target.registrations == old(target.registrations)
    {
      if handler.Some? {
        wrapped := wrapped - {handler.value};
        handler := None;
      }
      Drop();
    }
  }

  /**
   * Of the closures the listener has made and not leaked (`wrapped`), the target has registered
   * for its event only the one in its slot: at most one registration, made by
   * this listener. Valid does not speak of other event names, which the
   * listener never registers under.
   */
  lemma AtMostOneRegistration(l: SharedEventListener)
    requires l.Valid()
    ensures Registered(l.target.registrations, l.eventname, l.wrapped) == if l.handler.Some? then {l.handler.value} else {}
    ensures forall c | c in Registered(l.target.registrations, l.eventname, l.wrapped) :: c.owner == l
  {
    if l.handler.Some? {
      assert l.handler.value in Registered(l.target.registrations, l.eventname, l.wrapped);
    }
  }

  /** Setting two handlers in a row leaves the target dispatching to the second alone. */
  method SetTwice(eventname: string, first: nat, second: nat) returns (dispatched: set<nat>, registrations: nat)
    ensures dispatched == {second} && registrations == 1
  {
    var target := new EventTarget(true);
    var l := new SharedEventListener(target, eventname);
    l.SetHandler(first);
    l.SetHandler(second);
    assert target.registrations == {(eventname, l.handler.value)};
    dispatched := Handlers(target.registrations, eventname);
    registrations := |target.registrations|;
  }

  /** The second of two `remove_handler` calls finds the slot empty and leaves the target as the first left it. */
  method RemoveTwice(eventname: string, h: nat) returns (afterFirst: set<nat>, afterSecond: set<nat>)
    ensures afterFirst == {} && afterSecond == {}
  {
    var target := new EventTarget(true);
    var l := new SharedEventListener(target, eventname);
    l.SetHandler(h);
    l.RemoveHandler();
    afterFirst := Handlers(target.registrations, eventname);
    l.RemoveHandler();
    afterSecond := Handlers(target.registrations, eventname);
  }

  /** A forgotten listener's handler stays registered; a dropped one's does not. */
  method ForgetThenDrop(eventname: string, kept: nat, removed: nat) returns (dispatched: set<nat>)
    ensures dispatched == {kept}
  {
    var target := new EventTarget(true);
    var a := new SharedEventListener(target, eventname);
    var b := new SharedEventListener(target, eventname);
    a.SetHandler(kept);
    ghost var leaked := a.handler.value;
    b.SetHandler(removed);
    a.Forget();
    b.Drop();
    assert target.registrations == {(eventname, leaked)};
    dispatched := Handlers(target.registrations, eventname);
  }
}
