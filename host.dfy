/**
 * The part of the browser that the host-backed listeners touch: an
 * `EventTarget` holding `(eventname, closure)` registrations, and the
 * `Closure` objects that `Closure::wrap` makes around a handler.
 *
 * A closure's identity is its reference, as a JS function's is: wrapping
 * the same handler twice gives two closures. Whether the host accepts add
 * and remove calls is fixed per target by `accepting`; when it does not,
 * the call reports an error (a thrown JS exception).
 */
module Host {
  import opened Wrappers

  /** A wrapped handler closure. */
  class Closure {
    /** The opaque handler the closure runs. */
    const handler: nat
    /** The listener that wrapped it: the registration this closure backs is that listener's. */
    ghost const owner: object

    constructor (handler: nat, ghost owner: object)
      ensures this.handler == handler && this.owner == owner
    {
      this.handler := handler;
      this.owner := owner;
    }
  }

  class EventTarget {
    /** The host's listener list: a closure is registered at most once per event name. */
    var registrations: set<(string, Closure)>
    const accepting: bool

    constructor (accepting: bool)
      ensures registrations == {} && this.accepting == accepting
    {
      registrations := {};
      this.accepting := accepting;
    }

    /** `add_event_listener_with_callback`; adding a registration that exists changes nothing. */
    method AddEventListener(eventname: string, callback: Closure) returns (r: Outcome<Unit>)
      modifies this
      ensures r == if accepting then Pass else Fail(Unit)
      ensures registrations == if accepting then old(registrations) + {(eventname, callback)} else old(registrations)
    {
      if !accepting {
        return Fail(Unit);
      }
      registrations := registrations + {(eventname, callback)};
      r := Pass;
    }

    /** `remove_event_listener_with_callback`; removing a registration that is absent changes nothing. */
    method RemoveEventListener(eventname: string, callback: Closure) returns (r: Outcome<Unit>)
      modifies this
      ensures r == if accepting then Pass else Fail(Unit)
      ensures registrations == if accepting then old(registrations) - {(eventname, callback)} else old(registrations)
    {
      if !accepting {
        return Fail(Unit);
      }
      registrations := registrations - {(eventname, callback)};
      r := Pass;
    }
  }

  /** The closures among `mine` that `registrations` holds for `eventname`. */
  ghost function Registered(registrations: set<(string, Closure)>, eventname: string, mine: set<Closure>): set<Closure>
  {
    set c | c in mine && (eventname, c) in registrations
  }

  /** The registration a handler slot stands for: none for an empty slot. */
  function Backing(eventname: string, slot: Option<Closure>): (b: set<(string, Closure)>)
    ensures slot.None? ==> b == {}
    ensures slot.Some? ==> b == {(eventname, slot.value)}
  {
    match slot
    case None => {}
    case Some(c) => {(eventname, c)}
  }

  /** What a dispatch of `eventname` on the target runs: the handlers of the closures registered for it. */
  function Handlers(registrations: set<(string, Closure)>, eventname: string): set<nat>
  {
    set p | p in registrations && p.0 == eventname :: p.1.handler
  }
}
