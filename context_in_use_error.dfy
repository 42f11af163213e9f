/**
 * `ContextInUseError` of src/errors/context_in_use_error.rs: the error a
 * context reports when its cell refuses a borrow, with `std`'s borrow error
 * as its source.
 */
module ContextErrors {
  import opened Wrappers

  /** `std::cell::BorrowError`: carries no data the model can see. */
  datatype BorrowError = BorrowError
  /** `std::cell::BorrowMutError`. */
  datatype BorrowMutError = BorrowMutError

  datatype ContextInUseError = Borrowed(borrowError: BorrowError) | BorrowedMut(borrowMutError: BorrowMutError)

  /** The `&dyn Error` that `source` hands out: one of the two borrow errors. */
  datatype Cause = BorrowCause(BorrowError) | BorrowMutCause(BorrowMutError)

  /** `Error::source`: each variant hands out the borrow error it wraps. */
  function Source(e: ContextInUseError): (r: Option<Cause>)
    ensures r.Some?
    ensures e.Borrowed? <==> r.value.BorrowCause?
  {
    match e
    case Borrowed(b) => Some(BorrowCause(b))
    case BorrowedMut(b) => Some(BorrowMutCause(b))
  }

  const InUseText: string := "context is already in use"

  /** `Display::fmt`: one fixed text whichever the variant. */
  function Display(e: ContextInUseError): (s: string)
    ensures s == InUseText
  {
    InUseText
  }

  /** The two variants cannot be told apart by their text, only by `source`. */
  lemma DisplayIgnoresVariant(a: ContextInUseError, b: ContextInUseError)
    ensures Display(a) == Display(b)
    ensures a.Borrowed? != b.Borrowed? ==> Source(a) != Source(b)
  {
  }
}
