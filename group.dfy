/**
 * The multi-subscriber notification group of src/events/group.rs.
 *
 * `usize` ids are the id space [0, idSpace) with an explicit wrap-around;
 * the `Weak` reference of a token is a nullable reference plus the `alive`
 * flag of the group it points to; the `RefCell` around the subscriber map
 * is the `notifying` flag, set while `notify` holds its mutable borrow and
 * runs the subscribers. A subscriber callback is an opaque `SubscriberId`
 * and running it appends `(id, subscriber, argument)` to `calls`.
 */
module Groups {
  import opened Wrappers

  type Id = nat

  /** An opaque stand-in for a boxed subscriber callback. */
  type SubscriberId = nat

  /**
   * The number of values of `usize` on wasm32, the target a wasm-bindgen
   * crate is built for: `wrapping_add(1)` wraps from 2^32 - 1 to 0.
   */
  const UsizeValues: nat := 0x1_0000_0000

  /** `id.wrapping_add(1)` in an id space of `n` values. */
  function WrappingSucc(id: Id, n: nat): (r: Id)
    requires id < n
    ensures r < n
    ensures r == (id + 1) % n
  {
    if id + 1 == n then 0 else id + 1
  }

  /**
   * How many wrapping steps lead from `from` to `id`: between 1 and `n`,
   * and `n` exactly when `id` is `from` itself (the walk has gone full circle).
   */
  function Steps(from: Id, id: Id, n: nat): (k: nat)
    requires from < n && id < n
    ensures 1 <= k <= n && (k == n <==> id == from)
  {
    if from < id then id - from else id + n - from
  }

  /**
   * The outcome of the probe of `get_next_id` that stands at `current` and
   * has `left` steps to go before it is back where it started: the first
   * id on the way that is not in `keys`, or Err when all `left` are.
   */
  function Probe(current: Id, left: nat, keys: set<Id>, n: nat): Result<Id, Unit>
    requires current < n
    decreases left
  {
    var next := WrappingSucc(current, n);
    if next !in keys then Ok(next)
    else if left <= 1 then Err(Unit)
    else Probe(next, left - 1, keys, n)
  }

  /** The id `get_next_id` hands out when the last one was `last`: a probe of all `n` ids. */
  function NextId(last: Id, keys: set<Id>, n: nat): Result<Id, Unit>
    requires last < n
  {
    Probe(last, n, keys, n)
  }

  /**
   * A probe from `current` with `left <= n` steps finds the first free id
   * among the next `left`, and fails exactly when all of those are taken.
   */
  lemma {:induction false} ProbeFindsFirstFree(current: Id, left: nat, keys: set<Id>, n: nat)
    requires current < n && 1 <= left <= n
    decreases left
    ensures Probe(current, left, keys, n).Ok? ==>
              var id := Probe(current, left, keys, n).value;
              id < n && id !in keys && Steps(current, id, n) <= left &&
              forall other | 0 <= other < n && Steps(current, other, n) < Steps(current, id, n) :: other in keys
    ensures Probe(current, left, keys, n).Err? <==>
              forall other | 0 <= other < n && Steps(current, other, n) <= left :: other in keys
  {
    var next := WrappingSucc(current, n);
    assert Steps(current, next, n) == 1;
    if next in keys && left > 1 {
      ProbeFindsFirstFree(next, left - 1, keys, n);
      assert forall other | 0 <= other < n && other != next :: Steps(next, other, n) == Steps(current, other, n) - 1;
    }
  }

  /**
   * `get_next_id` hands out an id that is not in use and that comes first
   * on the wrapping walk from `last`; it fails exactly when every id of the
   * space, `last` included, is in use.
   */
  lemma NextIdSpec(last: Id, keys: set<Id>, n: nat)
    requires last < n
    ensures NextId(last, keys, n).Ok? ==>
              var id := NextId(last, keys, n).value;
              id < n && id !in keys &&
              forall other | 0 <= other < n && Steps(last, other, n) < Steps(last, id, n) :: other in keys
    ensures NextId(last, keys, n).Err? <==> forall id | 0 <= id < n :: id in keys
  {
    ProbeFindsFirstFree(last, n, keys, n);
  }

  /** No id occurs twice in `order`. */
  ghost predicate Distinct(order: seq<Id>)
  {
    forall i, j | 0 <= i < j < |order| :: order[i] != order[j]
  }

  /** `order` lists every id of `keys` exactly once and nothing else. */
  ghost predicate EnumeratesOnce(order: seq<Id>, keys: set<Id>)
  {
    Distinct(order) && forall id :: id in order <==> id in keys
  }

  /** The calls a notification makes when it visits the subscribers in `order`. */
  function Deliveries<T>(order: seq<Id>, subscribers: map<Id, SubscriberId>, argument: T): (d: seq<(Id, SubscriberId, T)>)
    requires forall id | id in order :: id in subscribers
    ensures |d| == |order|
    ensures forall i | 0 <= i < |order| :: d[i] == (order[i], subscribers[order[i]], argument)
  {
    if order == [] then []
    else
      var last := order[|order| - 1];
      Deliveries(order[..|order| - 1], subscribers, argument) + [(last, subscribers[last], argument)]
  }

  /** Dropping the last id of a distinct `order` leaves a distinct sequence without it. */
  lemma DistinctFront(order: seq<Id>)
    requires Distinct(order) && order != []
    ensures Distinct(order[..|order| - 1]) && order[|order| - 1] !in order[..|order| - 1]
  {
    var front := order[..|order| - 1];
    assert forall i | 0 <= i < |front| :: front[i] == order[i] && order[i] != order[|order| - 1];
  }

  /** Visiting the ids of a distinct `order` calls subscriber `id` once if `id` is in `order` and never otherwise. */
  lemma {:induction false} DeliveredOnce<T>(order: seq<Id>, subscribers: map<Id, SubscriberId>, argument: T, id: Id)
    requires Distinct(order) && forall k | k in order :: k in subscribers
    requires id in subscribers
    ensures multiset(Deliveries(order, subscribers, argument))[(id, subscribers[id], argument)] == if id in order then 1 else 0
  {
    if order != [] {
      var last := order[|order| - 1];
      var front := order[..|order| - 1];
      assert order == front + [last];
      DistinctFront(order);
      DeliveredOnce(front, subscribers, argument, id);
    }
  }

  /** An enumeration of `keys` is as long as `keys` is large: one call per registered subscriber. */
  lemma {:induction false} EnumerationLength(order: seq<Id>, keys: set<Id>)
    requires EnumeratesOnce(order, keys)
    ensures |order| == |keys|
  {
    if order != [] {
      var last := order[|order| - 1];
      var front := order[..|order| - 1];
      assert order == front + [last];
      DistinctFront(order);
      assert last in keys;
      EnumerationLength(front, keys - {last});
    } else {
      assert forall id | id in keys :: id in order;
      assert keys == {};
    }
  }

  /** A notification over an enumeration of the keys calls every registered subscriber exactly once, and nothing else. */
  lemma NotifiesEachOnce<T>(order: seq<Id>, subscribers: map<Id, SubscriberId>, argument: T, id: Id)
    requires EnumeratesOnce(order, subscribers.Keys)
    ensures |Deliveries(order, subscribers, argument)| == |subscribers|
    ensures id in subscribers ==> multiset(Deliveries(order, subscribers, argument))[(id, subscribers[id], argument)] == 1
    ensures forall e | e in Deliveries(order, subscribers, argument) :: e.0 in subscribers && e.1 == subscribers[e.0] && e.2 == argument
  {
    EnumerationLength(order, subscribers.Keys);
    if id in subscribers {
      DeliveredOnce(order, subscribers, argument, id);
    }
  }

  /** `GroupInternal<T>`: the subscriber map, the last id handed out, and the state of the `Rc` and the `RefCell`. */
  class GroupInternal<T> {
    const idSpace: nat
    var subscribers: map<Id, SubscriberId>
    var lastId: Id
    /** A running notification holds the subscriber map mutably borrowed. */
    var notifying: bool
    /** The owning `Group` still exists, so a token's `Weak` upgrades. */
    var alive: bool
    /** Every subscriber call so far, with its id and argument, oldest first. */
    var calls: seq<(Id, SubscriberId, T)>

    ghost predicate Valid()
      reads this
    {
      0 < idSpace && lastId < idSpace && forall id | id in subscribers :: id < idSpace
    }

    constructor (n: nat)
      requires n > 0
      ensures Valid() && idSpace == n
      ensures subscribers == map[] && lastId == 0 && !notifying && alive && calls == []
    {
      idSpace := n;
      subscribers, lastId, notifying, alive, calls := map[], 0, false, true, [];
    }

    /**
     * `get_next_id`: step `lastId` forward, wrapping around, until it is an
     * id that is not a key; fail when it is back at its start.
     */
    method GetNextId() returns (r: Result<Id, Unit>)
      requires Valid()
      modifies this`lastId
      ensures Valid()
      ensures old(notifying) ==> r == Err(Unit) && lastId == old(lastId)
      ensures !old(notifying) ==> r == NextId(old(lastId), subscribers.Keys, idSpace)
      ensures r.Ok? ==> lastId == r.value
      ensures r.Err? ==> lastId == old(lastId)
    {
      if notifying {
        return Err(Unit);
      }
      var start := lastId;
      ghost var left := idSpace;
      while true
        invariant Valid() && 1 <= left <= idSpace
        invariant left == idSpace ==> lastId == start
        invariant left < idSpace ==> Steps(start, lastId, idSpace) == idSpace - left
        invariant Probe(lastId, left, subscribers.Keys, idSpace) == NextId(start, subscribers.Keys, idSpace)
        decreases left
      {
        lastId := WrappingSucc(lastId, idSpace);
        if lastId !in subscribers {
          return Ok(lastId);
        }
        if lastId == start {
          return Err(Unit);
        }
        left := left - 1;
      }
    }

    /** The mutable borrow that `notify` takes; refused while one is held. */
    method BeginNotify() returns (r: Outcome<Unit>)
      modifies this`notifying
      ensures notifying
      ensures r == if old(notifying) then Fail(Unit) else Pass
    {
      if notifying {
        return Fail(Unit);
      }
      notifying := true;
      r := Pass;
    }

    /** The loop of `notify`: every subscriber is called once, in the map's own (unspecified) order. */
    method Deliver(argument: T) returns (ghost order: seq<Id>)
      modifies this`calls
      ensures EnumeratesOnce(order, subscribers.Keys)
      ensures calls == old(calls) + Deliveries(order, subscribers, argument)
    {
      var pending := subscribers.Keys;
      order := [];
      while pending != {}
        invariant pending <= subscribers.Keys
        invariant Distinct(order)
        invariant forall id :: id in order <==> id in subscribers.Keys - pending
        invariant calls == old(calls) + Deliveries(order, subscribers, argument)
        decreases pending
      {
        var id :| id in pending;
        assert id !in order;
        calls := calls + [(id, subscribers[id], argument)];
        assert (order + [id])[..|order|] == order;
        order := order + [id];
        pending := pending - {id};
      }
    }

    /** The borrow of `notify` ends. */
    method EndNotify()
      modifies this`notifying
      ensures !notifying
    {
      notifying := false;
    }

    /** `GroupInternal::notify` with subscribers that make no call on this group. */
    method Notify(argument: T) returns (r: Outcome<Unit>, ghost order: seq<Id>)
      modifies this`notifying, this`calls
      ensures !old(notifying) ==> !notifying
      ensures old(notifying) ==> r == Fail(Unit) && notifying && calls == old(calls)
      ensures !old(notifying) ==> r == Pass && EnumeratesOnce(order, subscribers.Keys)
      ensures !old(notifying) ==> calls == old(calls) + Deliveries(order, subscribers, argument)
    {
      order := [];
      r := BeginNotify();
      if r.Fail? {
        return;
      }
      order := Deliver(argument);
      EndNotify();
    }
  }

  /** `GroupToken<T>`: a weak reference to the group and the id of one subscription. */
  class GroupToken<T> {
    /** The `Weak`; null once `forget` has replaced it by `Weak::new()`. */
    var group: GroupInternal?<T>
    const id: Id
    /** The token has been dropped (or consumed by `deregister`/`forget`); nothing may use it. */
    ghost var dropped: bool

    constructor (group: GroupInternal<T>, id: Id)
      ensures this.group == group && this.id == id && !dropped
    {
      this.group, this.id, dropped := group, id, false;
    }

    /** `group.upgrade()` succeeds. */
    predicate Upgrades()
      reads this, group
    {
      group != null && group.alive
    }

    /** Everything of the group but its subscriber map is as it was. */
    twostate predicate OnlySubscribersChanged()
      reads this, group
    {
      group == old(group) &&
      (group != null ==>
         group.lastId == old(group.lastId) && group.notifying == old(group.notifying) &&
         group.alive == old(group.alive) && group.calls == old(group.calls))
    }

    /** `deregister_internal`: Ok without effect when the group is gone; Err while it is borrowed or when the id is absent. */
    method DeregisterInternal() returns (r: Outcome<Unit>)
      requires group != null ==> group.Valid()
      modifies group
      ensures OnlySubscribersChanged() && (group != null ==> group.Valid())
      ensures !Upgrades() ==> r == Pass && (group != null ==> group.subscribers == old(group.subscribers))
      ensures Upgrades() && group.notifying ==> r == Fail(Unit) && group.subscribers == old(group.subscribers)
      ensures Upgrades() && !group.notifying ==>
                r == (if id in old(group.subscribers) then Pass else Fail(Unit)) &&
                group.subscribers == old(group.subscribers) - {id}
    {
      if group == null || !group.alive {
        return Pass;
      }
      if group.notifying {
        return Fail(Unit);
      }
      if id !in group.subscribers {
        return Fail(Unit);
      }
      group.subscribers := group.subscribers - {id};
      r := Pass;
    }

    /** `Drop`: deregister and ignore the result. */
    method Drop()
      requires !dropped && (group != null ==> group.Valid())
      modifies this, group
      ensures dropped && OnlySubscribersChanged() && (group != null ==> group.Valid())
      ensures group != null ==>
                group.subscribers == (if Upgrades() && !group.notifying then old(group.subscribers) - {id} else old(group.subscribers))
    {
      var _ := DeregisterInternal();
      dropped := true;
    }

    /** `deregister(self)`: one removal whose result is returned, then the drop's second removal, whose result is ignored. */
    method Deregister() returns (r: Outcome<Unit>)
      requires !dropped && (group != null ==> group.Valid())
      modifies this, group
      ensures dropped && OnlySubscribersChanged() && (group != null ==> group.Valid())
      ensures !Upgrades() ==> r == Pass && (group != null ==> group.subscribers == old(group.subscribers))
      ensures Upgrades() && group.notifying ==> r == Fail(Unit) && group.subscribers == old(group.subscribers)
      ensures Upgrades() && !group.notifying ==>
                r == (if id in old(group.subscribers) then Pass else Fail(Unit)) &&
                group.subscribers == old(group.subscribers) - {id}
    {
      r := DeregisterInternal();
      Drop();
    }

    /** `GroupToken::notify`: fails when the group is gone, otherwise the group's own notify. */
    method Notify(argument: T) returns (r: Outcome<Unit>, ghost order: seq<Id>)
      modifies group
      ensures group == old(group)
      ensures group != null ==>
                group.subscribers == old(group.subscribers) && group.lastId == old(group.lastId) && group.alive == old(group.alive)
      ensures !Upgrades() ==> r == Fail(Unit) && (group != null ==> group.calls == old(group.calls))
      ensures r.Fail? && group != null ==> group.notifying == old(group.notifying)
      ensures Upgrades() && old(group.notifying) ==> r == Fail(Unit) && group.calls == old(group.calls)
      ensures Upgrades() && !old(group.notifying) ==>
                r == Pass && !group.notifying && EnumeratesOnce(order, group.subscribers.Keys) &&
                group.calls == old(group.calls) + Deliveries(order, group.subscribers, argument)
    {
      order := [];
      if group == null || !group.alive {
        r := Fail(Unit);
        return;
      }
      r, order := group.Notify(argument);
    }

    /** `forget(self)`: replace the `Weak` by an empty one, so the drop that follows removes nothing. */
    method Forget()
      requires !dropped
      modifies this
      ensures dropped && group == null
    {
      group := null;
      Drop();
    }
  }

  /** The id of the token a registration handed out, or its error. */
  function TokenId<T>(r: Result<GroupToken<T>, Unit>): Result<Id, Unit>
  {
    match r
    case Ok(token) => Ok(token.id)
    case Err(e) => Err(e)
  }

  /** `Group<T>`: the owner of the group's `Rc`. */
  class Group<T> {
    const internal: GroupInternal<T>

    ghost predicate Valid()
      reads this, internal
    {
      internal.Valid() && internal.alive
    }

    /** `Group::new` over the ids of a wasm32 `usize`. */
    constructor ()
      ensures Valid() && fresh(internal) && internal.idSpace == UsizeValues
      ensures internal.subscribers == map[] && internal.lastId == 0 && !internal.notifying && internal.calls == []
    {
      internal := new GroupInternal(UsizeValues);
    }

    /** `Group::new` over an id space of `n` values, that is, for a `usize` with `n` values. */
    constructor WithIdSpace(n: nat)
      requires n > 0
      ensures Valid() && fresh(internal) && internal.idSpace == n
      ensures internal.subscribers == map[] && internal.lastId == 0 && !internal.notifying && internal.calls == []
    {
      internal := new GroupInternal(n);
    }

    /** `register`: insert the subscriber under the id `get_next_id` hands out, and a token for it. */
    method Register(subscriber: SubscriberId) returns (r: Result<GroupToken<T>, Unit>)
      requires Valid()
      modifies internal`subscribers, internal`lastId
      ensures Valid()
      ensures old(internal.notifying) ==> r == Err(Unit)
      ensures !old(internal.notifying) ==> TokenId(r) == NextId(old(internal.lastId), old(internal.subscribers).Keys, internal.idSpace)
      ensures r.Err? ==> internal.subscribers == old(internal.subscribers) && internal.lastId == old(internal.lastId)
      ensures r.Ok? ==> fresh(r.value) && r.value.group == internal && !r.value.dropped
      ensures r.Ok? ==> r.value.id !in old(internal.subscribers) && internal.lastId == r.value.id
      ensures r.Ok? ==> internal.subscribers == old(internal.subscribers)[r.value.id := subscriber]
    {
      var id := internal.GetNextId();
      if id.Err? {
        return Err(id.error);
      }
      NextIdSpec(old(internal.lastId), internal.subscribers.Keys, internal.idSpace);
      // The borrow cannot be refused here: GetNextId succeeded, so no notification is running.
      internal.subscribers := internal.subscribers[id.value := subscriber];
      var token := new GroupToken(internal, id.value);
      r := Ok(token);
    }

    method Notify(argument: T) returns (r: Outcome<Unit>, ghost order: seq<Id>)
      requires Valid()
      modifies internal`notifying, internal`calls
      ensures Valid()
      ensures !old(internal.notifying) ==> !internal.notifying
      ensures old(internal.notifying) ==> r == Fail(Unit) && internal.notifying && internal.calls == old(internal.calls)
      ensures !old(internal.notifying) ==> r == Pass && EnumeratesOnce(order, internal.subscribers.Keys)
      ensures !old(internal.notifying) ==> internal.calls == old(internal.calls) + Deliveries(order, internal.subscribers, argument)
    {
      r, order := internal.Notify(argument);
    }

    /** Dropping the group's `Rc`: every token's `Weak` stops upgrading. */
    method Drop()
      modifies internal`alive
      ensures !internal.alive
    {
      internal.alive := false;
    }
  }

  /** With two ids, the third registration finds the id space exhausted instead of reusing an id. */
  method ExhaustedIdSpace(a: SubscriberId, b: SubscriberId, c: SubscriberId)
    returns (first: Result<Id, Unit>, second: Result<Id, Unit>, third: Result<Id, Unit>, lastId: Id)
    ensures first == Ok(1) && second == Ok(0) && third == Err(Unit) && lastId == 0
  {
    var g := new Group<nat>.WithIdSpace(2);
    var t1 := g.Register(a);
    first := TokenId(t1);
    var t2 := g.Register(b);
    second := TokenId(t2);
    var t3 := g.Register(c);
    third := TokenId(t3);
    lastId := g.internal.lastId;
  }

  /** Two subscribers both see a notified value, once each, in either order. */
  method NotifyTwo<T>(a: SubscriberId, b: SubscriberId, x: T) returns (round: seq<(Id, SubscriberId, T)>)
    ensures round == [(1, a, x), (2, b, x)] || round == [(2, b, x), (1, a, x)]
  {
    var g := new Group<T>();
    var ta := g.Register(a);
    var tb := g.Register(b);
    var r, order := g.Notify(x);
    EnumerationLength(order, {1, 2});
    assert order[0] in order && order[1] in order;
    round := g.internal.calls;
  }

  /** After the first of two subscribers deregisters, only the second sees the next value. */
  method DeregisterThenNotify<T>(a: SubscriberId, b: SubscriberId, y: T)
    returns (deregistered: Outcome<Unit>, round: seq<(Id, SubscriberId, T)>)
    ensures deregistered == Pass && round == [(2, b, y)]
  {
    var g := new Group<T>();
    var ta := g.Register(a);
    var tb := g.Register(b);
    deregistered := ta.value.Deregister();
    assert g.internal.subscribers == map[2 := b];
    var s, order := g.Notify(y);
    EnumerationLength(order, {2});
    assert order[0] in order;
    round := g.internal.calls;
  }

  /** A subscriber that registers on its own group during a notification is refused and leaves `lastId` alone. */
  method RegisterDuringNotify<T>(a: SubscriberId, b: SubscriberId, x: T)
    returns (nested: Result<Id, Unit>, nestedLastId: Id, notified: Outcome<Unit>)
    ensures nested == Err(Unit) && nestedLastId == 1 && notified == Pass
  {
    var g := new Group<T>();
    var ta := g.Register(a);
    notified := g.internal.BeginNotify();
    var t := g.Register(b);
    nested := TokenId(t);
    nestedLastId := g.internal.lastId;
    ghost var order := g.internal.Deliver(x);
    g.internal.EndNotify();
  }

  /** A forgotten token leaves its subscriber registered; a token of a dropped group cannot notify. */
  method ForgetThenGroupGone<T>(a: SubscriberId, x: T)
    returns (stillRegistered: bool, notified: Outcome<Unit>)
    ensures stillRegistered && notified == Fail(Unit)
  {
    var g := new Group<T>();
    var ta := g.Register(a);
    var tb := g.Register(a);
    ta.value.Forget();
    stillRegistered := 1 in g.internal.subscribers;
    g.Drop();
    ghost var order;
    notified, order := tb.value.Notify(x);
  }
}
