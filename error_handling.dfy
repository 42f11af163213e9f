/**
 * The `ErrorHandler` / `TracksEnvironment` interfaces and `Result::handle`
 * of src/errors/error_handling.rs.
 *
 * The traits become one closed union over the two handlers the model
 * keeps; each operation of the interfaces dispatches on it. A handler's
 * `Footprint` is the shared list that handling may change: none for
 * `IgnoreErr`.
 */
module ErrorHandling {
  import opened Wrappers
  import opened StringEnvironment
  import opened ErrorValues
  import IgnoreErrors
  import StringErrors

  datatype ErrorHandler = Ignoring(ignore: IgnoreErrors.IgnoreErr) | Recording(recording: StringErrors.StringErrorHandler)
  {
    function Footprint(): set<StringErrors.ErrorList>
    {
      if Recording? then {recording.errors} else {}
    }

    /** `TracksEnvironment::environment`. */
    function Environment(): string
    {
      match this
      case Ignoring(h) => IgnoreErrors.Environment(h)
      case Recording(h) => StringErrors.Environment(h)
    }

    /** `TracksEnvironment::clone_for`: the same kind of handler, on the same list, one step further down the path. */
    function CloneFor(sub: string): (c: ErrorHandler)
      ensures c.Environment() == Extended(Environment(), sub)
      ensures c.Recording? == Recording? && c.Footprint() == Footprint()
    {
      match this
      case Ignoring(h) => Ignoring(IgnoreErrors.CloneFor(h, sub))
      case Recording(h) => Recording(StringErrors.CloneFor(h, sub))
    }

    /** What `handle(err)` leaves in a recording handler's list. */
    ghost function Reported(before: seq<string>, err: Error): seq<string>
      requires Recording?
    {
      before + [StringErrors.Message(err, recording.environment)]
    }

    /** `ErrorHandler::handle`: the ignoring handler does nothing; the recording one appends one message. */
    method Handle(err: Error)
      modifies Footprint()
      ensures Recording? ==> recording.errors.messages == Reported(old(recording.errors.messages), err)
    {
      match this
      case Ignoring(_) =>
      case Recording(h) => StringErrors.Handle(h, err);
    }
  }

  /** `Result::handle`: the value of an `Ok`; an `Err` goes to the handler, once, and gives `None`. */
  method HandleResult<T>(r: Result<T, Error>, handler: ErrorHandler) returns (o: Option<T>)
    modifies handler.Footprint()
    ensures o.None? <==> r.Err?
    ensures r.Ok? ==> o == Some(r.value)
    ensures r.Ok? && handler.Recording? ==> handler.recording.errors.messages == old(handler.recording.errors.messages)
    ensures r.Err? && handler.Recording? ==>
              handler.recording.errors.messages == handler.Reported(old(handler.recording.errors.messages), r.error)
  {
    match r
    case Ok(value) =>
      o := Some(value);
    case Err(error) =>
      handler.Handle(error);
      o := None;
  }
}
