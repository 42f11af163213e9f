/**
 * `Context<T, H>` of src/context.rs: a shared `Rc<RefCell<T>>` plus an error
 * handler. A borrow the cell refuses is reported to the handler as a
 * `ContextInUseError` instead of panicking.
 *
 * The `RefCell` is a `Cell` object whose borrow state is a count of live
 * shared guards and a flag for the live exclusive guard. A guard handed out
 * by `access` is released by the client with `ReleaseShared` (and one from
 * `access_mut` with `ReleaseExclusive`), standing for the drop of the
 * `Ref`/`RefMut`. Cloning the context shares the `Cell` reference, as
 * cloning the `Rc` does.
 */
module Contexts {
  import opened Wrappers
  import opened StringEnvironment
  import opened ErrorValues
  import opened ContextErrors
  import opened ErrorHandling
  import IgnoreErrors
  import StringErrors

  /** The `RefCell<T>` behind the `Rc`. */
  class Cell<T> {
    var data: T
    var readers: nat
    var writing: bool

    /** A `RefCell` never has an exclusive guard next to a shared one. */
    ghost predicate Valid()
      reads this
    {
      writing ==> readers == 0
    }

    constructor (data: T)
      ensures Valid() && this.data == data && readers == 0 && !writing
    {
      this.data, readers, writing := data, 0, false;
    }

    /** `try_borrow`: a shared guard unless an exclusive one is live. */
    method TryBorrow() returns (r: Result<T, BorrowError>)
      requires Valid()
      modifies this`readers
      ensures Valid()
      ensures r.Ok? <==> !writing
      ensures r.Ok? ==> r.value == data && readers == old(readers) + 1
      ensures r.Err? ==> readers == old(readers)
    {
      if writing {
        return Err(BorrowError);
      }
      readers := readers + 1;
      r := Ok(data);
    }

    /** `try_borrow_mut`: an exclusive guard only when no guard of either kind is live. */
    method TryBorrowMut() returns (r: Result<T, BorrowMutError>)
      requires Valid()
      modifies this`writing
      ensures Valid()
      ensures r.Ok? <==> !old(writing) && readers == 0
      ensures r.Ok? ==> r.value == data && writing
      ensures r.Err? ==> writing == old(writing)
    {
      if writing || readers > 0 {
        return Err(BorrowMutError);
      }
      writing := true;
      r := Ok(data);
    }

    /** The drop of a `Ref`. */
    method ReleaseShared()
      requires Valid() && readers > 0
      modifies this`readers
      ensures Valid() && readers == old(readers) - 1
    {
      readers := readers - 1;
    }

    /** The drop of a `RefMut`. */
    method ReleaseExclusive()
      requires Valid() && writing
      modifies this`writing
      ensures Valid() && !writing
    {
      writing := false;
    }
  }

  /** What `access` reports when it is refused. */
  const SharedRefused: Error := InUse(Borrowed(BorrowError))
  /** What `access_mut` reports when it is refused. */
  const ExclusiveRefused: Error := InUse(BorrowedMut(BorrowMutError))

  datatype Context<T> = Context(data: Cell<T>, errorHandler: ErrorHandler)
  {
    /** The messages a refused access reports, if the handler records any. */
    ghost function ReportsOf(before: seq<string>, refused: bool, err: Error): seq<string>
      requires errorHandler.Recording?
    {
      if refused then errorHandler.Reported(before, err) else before
    }

    /** `access`: a shared guard, or `None` and exactly one `Borrowed` report; the data is never touched. */
    method Access() returns (r: Option<T>)
      requires data.Valid()
      modifies data, errorHandler.Footprint()
      ensures data.Valid() && data.data == old(data.data) && data.writing == old(data.writing)
      ensures r.Some? <==> !data.writing
      ensures r.Some? ==> r.value == data.data && data.readers == old(data.readers) + 1
      ensures r.None? ==> data.readers == old(data.readers)
      ensures errorHandler.Recording? ==>
                errorHandler.recording.errors.messages ==
                ReportsOf(old(errorHandler.recording.errors.messages), r.None?, SharedRefused)
    {
      var result := data.TryBorrow();
      match result
      case Ok(v) =>
        r := Some(v);
      case Err(e) =>
        errorHandler.Handle(InUse(Borrowed(e)));
        r := None;
    }

    /** `access_mut`: an exclusive guard, or `None` and exactly one `BorrowedMut` report. */
    method AccessMut() returns (r: Option<T>)
      requires data.Valid()
      modifies data, errorHandler.Footprint()
      ensures data.Valid() && data.data == old(data.data) && data.readers == old(data.readers)
      ensures r.Some? <==> !old(data.writing) && data.readers == 0
      ensures r.Some? ==> r.value == data.data && data.writing
      ensures r.None? ==> data.writing == old(data.writing)
      ensures errorHandler.Recording? ==>
                errorHandler.recording.errors.messages ==
                ReportsOf(old(errorHandler.recording.errors.messages), r.None?, ExclusiveRefused)
    {
      var result := data.TryBorrowMut();
      match result
      case Ok(v) =>
        r := Some(v);
      case Err(e) =>
        errorHandler.Handle(InUse(BorrowedMut(e)));
        r := None;
    }

    /** `access_or`: `access`, with `err` in place of `None`; the report is made all the same. */
    method AccessOr<X>(err: X) returns (r: Result<T, X>)
      requires data.Valid()
      modifies data, errorHandler.Footprint()
      ensures data.Valid() && data.data == old(data.data) && data.writing == old(data.writing)
      ensures r.Err? <==> data.writing
      ensures r.Err? ==> r.error == err && data.readers == old(data.readers)
      ensures r.Ok? ==> r.value == data.data && data.readers == old(data.readers) + 1
      ensures errorHandler.Recording? ==>
                errorHandler.recording.errors.messages ==
                ReportsOf(old(errorHandler.recording.errors.messages), r.Err?, SharedRefused)
    {
      var guard := Access();
      r := match guard case Some(v) => Ok(v) case None => Err(err);
    }

    /** `access_mut_or`: `access_mut`, with `err` in place of `None`. */
    method AccessMutOr<X>(err: X) returns (r: Result<T, X>)
      requires data.Valid()
      modifies data, errorHandler.Footprint()
      ensures data.Valid() && data.data == old(data.data) && data.readers == old(data.readers)
      ensures r.Ok? <==> !old(data.writing) && data.readers == 0
      ensures r.Err? ==> r.error == err && data.writing == old(data.writing)
      ensures r.Ok? ==> r.value == data.data && data.writing
      ensures errorHandler.Recording? ==>
                errorHandler.recording.errors.messages ==
                ReportsOf(old(errorHandler.recording.errors.messages), r.Err?, ExclusiveRefused)
    {
      var guard := AccessMut();
      r := match guard case Some(v) => Ok(v) case None => Err(err);
    }

    /** `ErrorHandler::handle` of the context: forwarded to its handler. */
    method Handle(err: Error)
      modifies errorHandler.Footprint()
      ensures errorHandler.Recording? ==>
                errorHandler.recording.errors.messages == errorHandler.Reported(old(errorHandler.recording.errors.messages), err)
    {
      errorHandler.Handle(err);
    }

    /** `TracksEnvironment::environment`: the handler's. */
    function Environment(): (e: string)
      ensures e == errorHandler.Environment()
    {
      errorHandler.Environment()
    }

    /** `clone_for`: the same cell, and the handler's clone one step further down the path. */
    function CloneFor(sub: string): (c: Context<T>)
      ensures c.data == data && c.Environment() == Extended(Environment(), sub)
      ensures c.errorHandler.Recording? == errorHandler.Recording? && c.errorHandler.Footprint() == errorHandler.Footprint()
    {
      Context(data, errorHandler.CloneFor(sub))
    }
  }

  /** `Context::make`: a fresh cell around `data`, with no guard live. */
  method Make<T>(data: T, handler: ErrorHandler) returns (c: Context<T>)
    ensures fresh(c.data) && c.data.Valid() && c.data.data == data && c.data.readers == 0 && !c.data.writing
    ensures c.errorHandler == handler
  {
    var cell := new Cell(data);
    c := Context(cell, handler);
  }

  /**
   * The crate's own test: a context cloned three times whose exclusive guard
   * is live while a shared one is asked for records exactly one message,
   * naming the whole path.
   */
  method ThreeClonesOneError() returns (outer: Option<int>, inner: Option<int>, errors: seq<string>)
    ensures outer == Some(7) && inner == None
    ensures errors == [StringErrors.MessageHead + InUseText + StringErrors.MessageMiddle +
                       "Workspace" + Separator + "SelectionFrame" + Separator + "ContextMenu" + Separator + "/click"]
  {
    var handler, token := StringErrors.New("Workspace");
    var context := Make(7, Recording(handler));
    context := context.CloneFor("SelectionFrame");
    context := context.CloneFor("ContextMenu");
    context := context.CloneFor("/click");
    ghost var path := "Workspace" + Separator + "SelectionFrame" + Separator + "ContextMenu" + Separator + "/click";
    assert context.errorHandler.recording.environment == path;
    outer := context.AccessMut();
    inner := None;
    if outer.Some? {
      // `*x += *y` would run under `Some(y)`, which the live exclusive guard rules out.
      inner := context.Access();
      context.data.ReleaseExclusive();
    }
    assert token.errors.messages == [StringErrors.Message(SharedRefused, path)];
    assert StringErrors.Message(SharedRefused, path) ==
           StringErrors.MessageHead + InUseText + StringErrors.MessageMiddle +
           "Workspace" + Separator + "SelectionFrame" + Separator + "ContextMenu" + Separator + "/click";
    errors := StringErrors.Get(token);
  }

  /** An exclusive guard taken through a clone blocks the original, and one taken through the original blocks the clone. */
  method CloneSharesCell(environment: string, sub: string)
    returns (throughOriginal: Option<int>, throughClone: Option<int>, original: string, cloned: string)
    ensures throughOriginal == None && throughClone == None
    ensures original == environment && cloned == environment + "\n\t-> " + sub
  {
    var context := Make(0, Ignoring(IgnoreErrors.New(environment)));
    var clone := context.CloneFor(sub);
    var guard := clone.AccessMut();
    throughOriginal := context.Access();
    clone.data.ReleaseExclusive();
    guard := context.AccessMut();
    throughClone := clone.Access();
    original := context.Environment();
    cloned := clone.Environment();
  }
}
