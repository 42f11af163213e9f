# webbit core in Dafny

A model of the event, error-handling and lifecycle core of `webbit`. `webbit` is a small Rust library for building browser UIs out of components.

The model covers these parts:

- **Single-handler event channels.** `CustomEventListener` and `CustomRefEventListener` each hold one handler. A running handler may call back into its own channel, so `fire` is split into a begin half and an end half. Client methods put the nested calls between the two halves.
- **The multi-subscriber `Group`.**
  - Ids are handed out by a wrapping probe that detects exhaustion.
  - Notifications reach each subscriber once.
  - `GroupToken` deregisters its subscriber, and `forget` leaks it.
  - A token's weak reference stops upgrading once the group is dropped.
- **The host-backed `EventListener` and `SharedEventListener`.** Each owns at most one registration on a browser `EventTarget`. The target is modelled as a set of `(eventname, closure)` pairs.
- **`Context` and the error handlers.**
  - A `Context` is a shared `RefCell` with a reader count and a writer flag. A refused borrow is reported to the context's error handler.
  - An error environment is a path that `clone_for` extends.
  - `IgnoreErr` drops errors. `StringErrorHandler` formats each error into a list that all its clones share.
  - `Result::handle` passes errors on to a handler.
- **`ComponentContent` and `Component`.** The DOM is a map from element to parent. A `Component` mounts its content's element, updates it, unmounts it, and on drop runs `destroy` and then detaches the element. A ghost trace records the order of those steps.
- **The drag lock of `SelectionFrame`.**
  - The transformation lock and the integrate-on-move flag.
  - `reset_transformation`.
  - The pointer-down and pointer-up handlers, which take and release the lock and install and remove the move handlers.
- **`Color` and its string conversions.**

Handlers and subscribers are opaque numbers. Running one appends it, with its argument, to a `calls` log. A host closure is a `Host.Closure` object: its identity tells registrations apart, and it holds a handler number and its ghost owner. Running a host closure is not modelled; `Host.Handlers` says which handlers a dispatch of an event would run. A host call that `expect`s success becomes a precondition on the host's `accepting` flag. The `destroy` that `Drop` unwraps becomes the precondition `content.Destroy() == Pass`.

Most of the source is written in the imperative style: fields are updated through `RefCell`s, and there are `HashMap` inserts and removes, DOM calls, and `Drop`. The model follows that style:

- Classes with `modifies` clauses stand for the stateful types.
- Loops with invariants stand for `get_next_id` and `notify`.
- Functions stand for the pure parts: environments, `clone_for`, `Color`, and error display.

Every method is proved against a specification. The behaviour callers rely on is proved as lemmas about those specification functions, and as client methods that state the documented scenarios on fresh objects. One of them, `Contexts.ThreeClonesOneError`, follows the crate's own test in src/lib.rs.

Module per source file:

| module | file |
|---|---|
| `Wrappers` | `Option`, `Result`, `()` |
| `CustomEvents` | src/events/custom_event_listener.rs |
| `Groups` | src/events/group.rs |
| `Host` | the browser `EventTarget` and `Closure` the listeners call into |
| `SharedEvents` | src/events/shared_event_listener.rs |
| `Events` | src/events/event_listener.rs |
| `ContextErrors` | src/errors/context_in_use_error.rs |
| `ErrorValues` | the `E: Error` values handlers receive |
| `StringEnvironment` | src/errors/string_environment.rs |
| `IgnoreErrors` | src/errors/ignore_err.rs |
| `StringErrors` | src/errors/string_error_handler.rs |
| `ErrorHandling` | src/errors/error_handling.rs |
| `Contexts` | src/context.rs |
| `Dom` | the DOM parent relation components change |
| `ComponentContents` | src/component_content.rs |
| `Components` | src/component.rs |
| `SelectionFrames` | src/components/selection_frame.rs |
| `Colors` | src/common/color.rs |

The drop of a `Component` is sometimes described as best-effort cleanup. The code unwraps the result of `destroy()` (src/component.rs:80), so a failing `destroy` panics before the element is removed. The model follows the code: `Components.Component.Drop` requires a successful `destroy`.

## Model

| member | source | states |
|---|---|---|
| CustomEvents.CustomEventListener.constructor | src/events/custom_event_listener.rs:19-21 | a new listener has an empty slot, no loan and no calls |
| CustomEvents.CustomEventListener.SetHandler | src/events/custom_event_listener.rs:23-31 | idle: returns Ok(previous handler) and stores the new one; during a fire: returns Err(handler), slot and loan flag unchanged |
| CustomEvents.CustomEventListener.WithHandler | src/events/custom_event_listener.rs:38-46 | returns Ok(self) when set_handler succeeds and Err((self, handler)) when it is refused, with set_handler's effect |
| CustomEvents.CustomEventListener.RemoveHandler | src/events/custom_event_listener.rs:55-59 | never fails; afterwards the slot is empty and the loan flag is clear |
| CustomEvents.CustomEventListener.LoanHandler | src/events/custom_event_listener.rs:77-87 | fails, changing nothing, while a loan is out; otherwise takes the handler out of the slot and sets the flag |
| CustomEvents.CustomEventListener.ReturnHandler | src/events/custom_event_listener.rs:88-95 | puts the loan back only if the flag is still set; always clears the flag |
| CustomEvents.CustomEventListener.BeginFire | src/events/custom_event_listener.rs:61-71 | a re-entered fire fails, runs nothing and keeps the outer loan; otherwise loans the handler and runs it exactly once |
| CustomEvents.CustomEventListener.EndFire | src/events/custom_event_listener.rs:72-75 | returns the loan under return_handler's rule and reports Ok(whether a handler ran) |
| CustomEvents.CustomEventListener.Fire | src/events/custom_event_listener.rs:61-75 | idle: Ok(handler present); the handler runs once and is back in the slot, flag clear; during a fire: Err, nothing runs |
| CustomEvents.CustomRefEventListener.constructor | src/events/custom_event_listener.rs:103-105 | empty slot, not borrowed |
| CustomEvents.CustomRefEventListener.SetHandler | src/events/custom_event_listener.rs:107-117 | returns the replaced handler; refused with Err(handler) while the slot is borrowed |
| CustomEvents.CustomRefEventListener.WithHandler | src/events/custom_event_listener.rs:124-132 | Ok(self) or Err((self, handler)) as set_handler succeeds or fails |
| CustomEvents.CustomRefEventListener.RemoveHandler | src/events/custom_event_listener.rs:141-145 | returns the taken handler and empties the slot; Err while borrowed |
| CustomEvents.CustomRefEventListener.BeginFire | src/events/custom_event_listener.rs:147-151 | Err while borrowed; Ok(false) with an empty slot; otherwise holds the borrow and runs the handler once |
| CustomEvents.CustomRefEventListener.EndFire | src/events/custom_event_listener.rs:151-152 | the running handler has returned and the borrow ends |
| CustomEvents.CustomRefEventListener.Fire | src/events/custom_event_listener.rs:147-153 | Ok(slot filled) and one call, or Err while borrowed |
| CustomEvents.ReentrantFire | src/events/custom_event_listener.rs:61-87 | a fire inside the handler returns Err; the outer fire returns Ok(true), the handler ran once and is back in the slot |
| CustomEvents.SetHandlerDuringFire | src/events/custom_event_listener.rs:23-31 | set_handler from inside the running handler is refused and the handler is restored afterwards |
| CustomEvents.RemoveHandlerDuringFire | src/events/custom_event_listener.rs:88-95 | remove_handler from inside the handler: the outer fire does not restore the handler |
| CustomEvents.ReplaceAfterRemoveDuringFire | src/events/custom_event_listener.rs:88-95 | a handler set after a mid-fire remove survives the end of the outer fire |
| CustomEvents.ReplaceThenFire | src/events/custom_event_listener.rs:61-75 | an empty listener fires Ok(false); after two set_handler calls only the second handler runs |
| CustomEvents.RefListenerDuringFire | src/events/custom_event_listener.rs:107-153 | inside the running handler, fire, set_handler and remove_handler on a CustomRefEventListener all return Err |
| Groups.WrappingSucc | src/events/group.rs:22 | usize::wrapping_add(1) over an id space of n values: (id + 1) mod n |
| Groups.ProbeFindsFirstFree | src/events/group.rs:21-29 | a probe of `left` steps returns the first free id on the wrapping walk, and fails exactly when all of those ids are taken |
| Groups.NextIdSpec | src/events/group.rs:17-31 | get_next_id's id is free and is the first free one after last_id; it fails exactly when every id, the start included, is taken |
| Groups.Deliveries | src/events/group.rs:34-36 | one call per visited id, in visiting order, with that id's subscriber and the shared argument |
| Groups.DeliveredOnce | src/events/group.rs:34-36 | over distinct ids, each subscriber is called once if visited and never otherwise |
| Groups.EnumerationLength | src/events/group.rs:34 | visiting every key once takes as many steps as there are subscribers |
| Groups.NotifiesEachOnce | src/events/group.rs:32-37 | notify calls every registered subscriber exactly once with the argument, and nothing else |
| Groups.GroupInternal.constructor | src/events/group.rs:14-16 | no subscribers, last_id 0 |
| Groups.GroupInternal.GetNextId | src/events/group.rs:17-31 | fails without effect while notifying; otherwise equals NextId of the old last_id, sets last_id to the id, and on exhaustion leaves last_id back at its start |
| Groups.GroupInternal.BeginNotify | src/events/group.rs:33 | the mutable borrow of notify; refused while one is held |
| Groups.GroupInternal.Deliver | src/events/group.rs:34-36 | calls every subscriber once, in some enumeration of the keys |
| Groups.GroupInternal.EndNotify | src/events/group.rs:37 | the borrow ends with notify |
| Groups.GroupInternal.Notify | src/events/group.rs:32-38 | Err while a notify runs; otherwise Ok and exactly one call per subscriber |
| Groups.GroupToken.constructor | src/events/group.rs:46-48 | a weak reference to the group and the id |
| Groups.GroupToken.DeregisterInternal | src/events/group.rs:49-54 | Ok without effect if the group is gone; Err while notifying; otherwise removes the id, Ok only if it was present |
| Groups.GroupToken.Deregister | src/events/group.rs:55-57 | deregister_internal's result; the drop that follows removes nothing more |
| Groups.GroupToken.Drop | src/events/group.rs:65-69 | removes the id when the group is alive and not notifying, and ignores the result |
| Groups.GroupToken.Notify | src/events/group.rs:58-60 | Err if the group is gone, otherwise the group's notify; a refused notify leaves a running notification's borrow as it was |
| Groups.GroupToken.Forget | src/events/group.rs:61-63 | the weak reference is emptied, so the subscriber stays registered |
| Groups.Group.constructor | src/events/group.rs:75-77 | a fresh group over all 2^32 ids of a wasm32 `usize`, with no subscribers |
| Groups.Group.WithIdSpace | src/events/group.rs:75-77 | the same over an id space of n values |
| Groups.Group.Register | src/events/group.rs:78-83 | inserts the subscriber under get_next_id's id, all other entries unchanged, and returns a token for it; Err while notifying or when ids are exhausted |
| Groups.Group.Notify | src/events/group.rs:84-86 | forwards to the group's notify: refused while a notification runs, whose borrow stays held, otherwise every subscriber once |
| Groups.Group.Drop | src/events/group.rs:72 | dropping the owning Rc makes every token's weak reference fail to upgrade |
| Groups.ExhaustedIdSpace | src/events/group.rs:17-31 | with two ids, registrations get 1, then 0 after wrapping, and the third fails |
| Groups.NotifyTwo | src/events/group.rs:32-37 | two subscribers each see the value once, in either order |
| Groups.DeregisterThenNotify | src/events/group.rs:49-57 | after one deregisters, only the other is notified |
| Groups.RegisterDuringNotify | src/events/group.rs:17-19 | a register from inside a running subscriber is refused and last_id is unchanged |
| Groups.ForgetThenGroupGone | src/events/group.rs:58-63 | a forgotten token's subscriber stays; a token of a dropped group cannot notify |
| Host.EventTarget.AddEventListener | src/events/shared_event_listener.rs:31-34 | the host adds the registration, or reports failure |
| Host.EventTarget.RemoveEventListener | src/events/shared_event_listener.rs:80-82 | the host removes the registration, or reports failure |
| SharedEvents.SharedEventListener.constructor | src/events/shared_event_listener.rs:15-17 | no handler, and nothing registered on the target |
| SharedEvents.SharedEventListener.DeregisterHandler | src/events/shared_event_listener.rs:74-83 | takes the closure and removes exactly its registration; with an empty slot, nothing |
| SharedEvents.SharedEventListener.SetHandler | src/events/shared_event_listener.rs:23-36 | removes the old registration, then adds and keeps a fresh closure; registrations change by exactly those two |
| SharedEvents.SharedEventListener.WithHandler | src/events/shared_event_listener.rs:43-46 | set_handler, then the same listener |
| SharedEvents.SharedEventListener.RemoveHandler | src/events/shared_event_listener.rs:55-60 | removes the live registration and empties the slot; with an empty slot it is a no-op |
| SharedEvents.SharedEventListener.Drop | src/events/shared_event_listener.rs:86-90 | remove_handler on drop |
| SharedEvents.SharedEventListener.Forget | src/events/shared_event_listener.rs:65-72 | empties the slot and leaves the host registration in place |
| SharedEvents.AtMostOneRegistration | src/events/shared_event_listener.rs:23-36 | of the closures the listener made, only the one in its slot is registered |
| SharedEvents.SetTwice | src/events/shared_event_listener.rs:23-36 | after two set_handler calls the target holds one registration, running the second handler |
| SharedEvents.RemoveTwice | src/events/shared_event_listener.rs:55-60 | a second remove_handler leaves the target as the first left it |
| SharedEvents.ForgetThenDrop | src/events/shared_event_listener.rs:65-90 | a forgotten listener's handler stays registered; a dropped one's does not |
| Events.EventListener.constructor | src/events/event_listener.rs:23-25 | no handler, nothing registered |
| Events.EventListener.RemoveHandler | src/events/event_listener.rs:57-63 | no-op without a handler; otherwise removes its registration and empties the field |
| Events.EventListener.SetHandler | src/events/event_listener.rs:31-40 | remove_handler first, then add and keep a fresh closure |
| Events.EventListener.WithHandler | src/events/event_listener.rs:45-48 | set_handler, then the same listener |
| Events.EventListener.Drop | src/events/event_listener.rs:74-78 | removes any live registration |
| Events.EventListener.Forget | src/events/event_listener.rs:68-71 | empties the field, keeps the registration; the drop that follows does nothing |
| Events.AtMostOneRegistration | src/events/event_listener.rs:31-40 | at most one registration per listener: the closure it holds |
| Events.SetUpAndForget | src/events/event_listener.rs:42-48 | `new().with_handler(h).forget()` leaves h handling the event for good |
| Events.ReplaceThenDrop | src/events/event_listener.rs:74-78 | after replacing, only the second handler is registered; after the drop, none |
| ContextErrors.Source | src/errors/context_in_use_error.rs:13-18 | source is never None, and it is the borrow error of the matching variant |
| ContextErrors.DisplayIgnoresVariant | src/errors/context_in_use_error.rs:12-24 | both variants display alike and differ in their source |
| StringEnvironment.Extended | src/errors/string_environment.rs:5-8 | old path, then "\n\t-> ", then the step: prefix kept, 5 + \|p\| characters added |
| StringEnvironment.ExtendPath | src/errors/string_environment.rs:5-8 | the two push_str calls give Extended |
| StringEnvironment.ExtendedByAppendsSteps | src/errors/string_environment.rs:5-8 | a chain of extensions appends each step behind its separator, in order |
| StringEnvironment.ExtendTwice | src/errors/string_environment.rs:5-8 | A then B gives old + sep + A + sep + B; an empty step still adds the separator |
| StringEnvironment.ExtendedByKeepsPrefix | src/errors/string_environment.rs:6 | every earlier path is a prefix of every later one |
| IgnoreErrors.New | src/errors/ignore_err.rs:8-10 | environment() returns the environment given to new |
| IgnoreErrors.CloneFor | src/errors/ignore_err.rs:23-27 | the clone's environment is the original's extended by the step; the original is a value and keeps its own |
| IgnoreErrors.CloneChain | src/errors/ignore_err.rs:23-27 | cloning step by step extends the environment by every step |
| StringErrors.New | src/errors/string_error_handler.rs:20-23 | a handler and a token that share one fresh, empty list |
| StringErrors.Message | src/errors/string_error_handler.rs:28 | the message is `ERROR: "`, then the error's display text, then `"\n\tin `, then the environment, each at its own position; its length is the sum of the four |
| StringErrors.InUseMessage | src/errors/string_error_handler.rs:26-29 | a refused context access is recorded as the fixed in-use text in the handler's environment, alike for a refused shared and a refused exclusive borrow |
| StringErrors.MessageNamesEnvironment | src/errors/string_error_handler.rs:28 | the message ends in the environment, so one error in two environments gives two messages |
| StringErrors.Handle | src/errors/string_error_handler.rs:26-29 | appends exactly one message; earlier messages unchanged |
| StringErrors.CloneFor | src/errors/string_error_handler.rs:39-43 | extended environment over the same shared list |
| StringErrors.HandleThroughClone | src/errors/string_error_handler.rs:39-43 | an error handled by a clone is read through the original's token, naming the clone's path |
| ErrorHandling.ErrorHandler.CloneFor | src/errors/error_handling.rs:13 | the same kind of handler on the same list, with the extended environment |
| ErrorHandling.ErrorHandler.Handle | src/errors/error_handling.rs:4 | the recording handler appends one message; the ignoring handler changes nothing |
| ErrorHandling.HandleResult | src/errors/error_handling.rs:23-32 | None exactly for Err; Ok(v) gives Some(v) and reports nothing; Err(e) is reported exactly once |
| Contexts.Cell.constructor | src/context.rs:21 | RefCell::new: no guard live |
| Contexts.Cell.TryBorrow | src/context.rs:25 | a shared guard exactly when no exclusive guard is live |
| Contexts.Cell.TryBorrowMut | src/context.rs:35 | an exclusive guard exactly when no guard is live |
| Contexts.Context.Access | src/context.rs:24-33 | Some and one more shared guard exactly when no exclusive guard is live; else None and exactly one Borrowed report; data untouched |
| Contexts.Context.AccessMut | src/context.rs:34-43 | Some exactly when no guard of either kind is live; else None and exactly one BorrowedMut report |
| Contexts.Context.AccessOr | src/context.rs:44-46 | Err(err) exactly when access gives None, and the report still happens |
| Contexts.Context.AccessMutOr | src/context.rs:47-49 | Err(err) exactly when access_mut gives None, and the report still happens |
| Contexts.Context.Handle | src/context.rs:55-57 | forwards to the context's handler |
| Contexts.Context.CloneFor | src/context.rs:67-72 | shares the cell and extends the handler's environment |
| Contexts.Make | src/context.rs:20-22 | a fresh cell around the data, with the given handler |
| Contexts.ThreeClonesOneError | src/lib.rs:31-51 | three clone_for calls, then access while access_mut is held: exactly one message, naming the whole path |
| Contexts.CloneSharesCell | src/context.rs:67-72 | an exclusive guard through a clone blocks the original and vice versa; the original's environment is unchanged |
| Dom.Document.AppendChild | src/component_content.rs:60 | append_child moves the child under the parent, or fails and changes nothing |
| Dom.Document.Remove | src/component.rs:72 | Element::remove detaches the element |
| ComponentContents.Content.constructor | src/component_content.rs:56-58 | element() is a constant, the same element on every call |
| ComponentContents.Content.MountIn | src/component_content.rs:59-63 | the default appends element() under the target, or fails with "Failed to mount component"; an override returns its own result |
| ComponentContents.DefaultsSucceed | src/component_content.rs:64-71 | the default update and destroy return Ok; only an override can fail |
| Components.Component.MakeSharable | src/component.rs:55-57 | only wraps the content: no DOM change and no call to it |
| Components.Make | src/component.rs:52-54 | wraps a fresh content of its own |
| Components.Component.MountIn | src/component.rs:59-63 | appends content.element() directly and never calls the content's own mount_in |
| Components.Component.Update | src/component.rs:65-69 | exactly the content's update result |
| Components.Component.Unmount | src/component.rs:71-75 | detaches the element and always returns Ok |
| Components.Component.Drop | src/component.rs:78-83 | destroy exactly once, then the element's removal |
| Components.MountOverrideIgnored | src/component.rs:59-63 | a content whose mount_in would fail is still mounted; the drop detaches it even though another holder keeps the content |
| Components.MountRefused | src/component.rs:59-63 | a refused append fails the mount and leaves the element detached; unmount still succeeds |
| SelectionFrames.SelectionFrame.constructor | src/components/selection_frame.rs:73-115 | unlocked, flag clear, no translation, unit scale, down handler installed |
| SelectionFrames.SelectionFrame.LockTransformation | src/components/selection_frame.rs:257-264 | true exactly when the lock was free; the lock is held afterwards either way |
| SelectionFrames.SelectionFrame.UnlockTransformation | src/components/selection_frame.rs:265-269 | the lock is free |
| SelectionFrames.SelectionFrame.SetIntegrateOnMove | src/components/selection_frame.rs:244-251 | ignored while the lock is held, stored otherwise |
| SelectionFrames.SelectionFrame.ResetTransformation | src/components/selection_frame.rs:286-290 | translation zero, scale 1 |
| SelectionFrames.SelectionFrame.OnMoveDown | src/components/selection_frame.rs:115-173 | with the primary button alone, installs the move and up handlers only if the lock is taken; otherwise nothing changes |
| SelectionFrames.SelectionFrame.OnMoveUp | src/components/selection_frame.rs:151-171 | unlocks and removes both the move and the up handler |
| SelectionFrames.PressTwice | src/components/selection_frame.rs:125-127 | a second press during a drag changes nothing, and the flag cannot be set mid-drag |
| SelectionFrames.PressRelease | src/components/selection_frame.rs:168-170 | releasing removes the move handler and frees the lock, after which the flag can be set |
| SelectionFrames.SecondaryPress | src/components/selection_frame.rs:120-122 | a press with other buttons takes no lock and installs nothing |
| Colors.FromString | src/common/color.rs:17-21 | `Color::from(s).value() == s` |
| Colors.FromStr | src/common/color.rs:11-15 | an owned copy with the same content |
| Colors.IntoString | src/common/color.rs:23-27 | converting back gives a colour equal to the original |
| Colors.RoundTrip | src/common/color.rs:17-27 | `String::from(Color::from(s)) == s`, and the converse |

The plain accessors state nothing beyond the field they read (`Contexts.Context.Environment` and `Components.Component.Deref` carry an ensures that only names that field); the contracts of `New`, `CloneFor`, `Handle`, `Make` and `FromString` state what they return. They are `StringErrors.Get` (src/errors/string_error_handler.rs:9-11), `Colors.Value` (src/common/color.rs:6-8), `IgnoreErrors.Environment` (src/errors/ignore_err.rs:17-19), `StringErrors.Environment` (src/errors/string_error_handler.rs:33-35), `ErrorHandling.ErrorHandler.Environment` (src/errors/error_handling.rs:11), `Contexts.Context.Environment` (src/context.rs:61-63) and `Components.Component.Deref` (src/component.rs:85-91). The single text of `ContextErrors.Display` (src/errors/context_in_use_error.rs:20-24) is stated by `ContextErrors.DisplayIgnoresVariant`, and that of `ErrorValues.Display` by `StringErrors.InUseMessage`.

## Left out

- Closures, wasm `Closure` memory and the JS calls they make: running a host closure is not modelled, and running a custom listener's handler or a group's subscriber is one entry in `calls`.
- Event payloads (`E: FromWasmAbi`, `PointerEvent`) are not modelled. The pointer handlers receive only the pressed-buttons value they test.
- CustomEvents.CustomEventListener.Fire and CustomEvents.CustomRefEventListener.Fire model a handler that makes no call on its own listener. Nested calls are written by client methods between `BeginFire` and `EndFire`.
- Groups.GroupInternal.Notify and Groups.GroupInternal.Deliver model subscribers that make no call on their group. A subscriber that calls back is written between `BeginNotify` and `EndNotify`, as in `RegisterDuringNotify`.
- The `HashMap` iteration order of `notify` is unspecified. The model leaves it open: `Deliver` returns the order it used, of which only "each key once" is known.
- Dropping the `Group` while a `GroupToken::notify` holds an upgraded `Rc` is not modelled. `alive` turns false at `Group.Drop`.
- `Rc` counts and `Weak` are not modelled beyond the `alive` flag. `Drop` of values other than tokens, listeners and components is not modelled.
- `RefCell` borrows that are never held across a call back into the same cell's operations cannot be refused, so they always succeed in the model. This covers `last_id` in `get_next_id` (held through the probe loop), the listener slots (held across the host calls in `set_handler`), the error list, and the selection frame's flags.
- SelectionFrames.SelectionFrame.ResetTransformation: always returns Pass. The source's `reset_transformation` returns Err when the user's `get_bounds` closure calls back into `reset`, `open` or `close` while `integrate_transformation` holds the translation and scale borrows (src/components/selection_frame.rs:286-287, 293-294). That refusal is not modelled, because that closure and the geometry around it are left out.
- Host `add_event_listener`/`remove_event_listener` failures panic through `expect`. Each such call is a precondition (`target.accepting`), not a recovered error.
- `append_child` failure is modelled for a parent that takes no children and for appending an element to itself. Failures from ancestor cycles are not modelled.
- `TracksEnvironment::environment_mut` is not modelled: it hands out a mutable reference into the handler, and the model's handlers are values.
- `ConsoleErrorHandler` is not modelled (console I/O).
- The generic `E: Error` accepted by the handlers is a closed union, `ErrorValues.Error`: a `ContextInUseError`, or any other error known by its display text.
- The `ErrorHandler` and `TracksEnvironment` traits become one closed union over `IgnoreErr` and `StringErrorHandler`.
- `Context::new` is the datatype constructor `Contexts.Context`. `Component::new` is private and only calls `make`. `#[derive(Default)]` on the handlers is not modelled.
- Writes through the guard `access_mut` hands out are not modelled: `AccessMut` returns a copy of the value and the cell's data never changes, so only the borrow discipline is, not a write made through one clone being seen through another.
- The guards `Ref`/`RefMut` are not modelled as objects. `access` returns the value they read, and the client releases them with `Cell.ReleaseShared`/`ReleaseExclusive`.
- ComponentContents.Content.MountIn: an override of `mount_in`, `update` or `destroy` is known only by its result, not by any effect it has on the DOM.
- The selection frame's geometry is not modelled: drag, scale and affine maths, `capture_position`, `set_translation`, `set_scale`, `integrate_transformation`, `reposition`, `rerender`, `reset`, `open`, `close`, and the move handler. All of it is `f64`/nalgebra floating point or DOM styling. `Vector` uses exact reals only for the zero vector and the unit scale that `reset_transformation` assigns.
- The selection frame's click and context listeners only forward to a `CustomEventListener`. The resize listeners are commented out in the source.
- `usize` is the wasm32 `usize`, the id space [0, 2^32), with an explicit wrap in `WrappingSucc`; a build for a 64-bit host, where the space is [0, 2^64), is not modelled. `Group.WithIdSpace` takes smaller spaces so that exhaustion can be written out.
