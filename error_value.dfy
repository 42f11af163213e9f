/**
 * The errors that reach an error handler. The handlers of src/errors/ are
 * generic over any `E: Error`; the model closes that over the error the
 * library itself reports, `ContextInUseError`, and any other error, known
 * only by the text its `Display` prints.
 */
module ErrorValues {
  import ContextErrors

  datatype Error = InUse(inUse: ContextErrors.ContextInUseError) | Described(text: string)

  /** `format!("{}", err)`. */
  function Display(err: Error): (s: string)
    ensures err.InUse? ==> s == ContextErrors.InUseText
    ensures err.Described? ==> s == err.text
  {
    match err
    case InUse(e) => ContextErrors.Display(e)
    case Described(text) => text
  }
}
