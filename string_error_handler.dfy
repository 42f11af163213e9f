/**
 * `StringErrorHandler` and `ErrorAccessToken` of
 * src/errors/string_error_handler.rs: a handler that formats every error it
 * is given into one message and appends it to a list that it shares, through
 * the `Rc<RefCell<Vec<String>>>`, with all its clones and its token. The
 * list's `RefCell` is borrowed only inside `handle` and `get`, which call
 * nothing back, so those borrows cannot be refused.
 */
module StringErrors {
  import opened StringEnvironment
  import opened ErrorValues
  import ContextErrors

  /** The shared `Vec<String>` of formatted messages. */
  class ErrorList {
    var messages: seq<string>

    constructor ()
      ensures messages == []
    {
      messages := [];
    }
  }

  datatype StringErrorHandler = StringErrorHandler(environment: string, errors: ErrorList)

  /** The reading end of the list, handed out by `new`. */
  datatype ErrorAccessToken = ErrorAccessToken(errors: ErrorList)

  /** `StringErrorHandler::new`: a handler and a token over one fresh, empty list. */
  method New(environment: string) returns (handler: StringErrorHandler, token: ErrorAccessToken)
    ensures fresh(handler.errors) && token.errors == handler.errors
    ensures handler.environment == environment && handler.errors.messages == []
  {
    var errors := new ErrorList();
    handler := StringErrorHandler(environment, errors);
    token := ErrorAccessToken(errors);
  }

  const MessageHead: string := "ERROR: \""
  const MessageMiddle: string := "\"\n\tin "

  /**
   * The text `handle` appends for `err` in `environment`: the head, the
   * error's display text, the middle and the environment, each at its own
   * place and nothing else.
   */
  function Message(err: Error, environment: string): (m: string)
    ensures |m| == |MessageHead| + |Display(err)| + |MessageMiddle| + |environment|
    ensures m[..|MessageHead|] == MessageHead
    ensures m[|MessageHead|..|MessageHead| + |Display(err)|] == Display(err)
    ensures m[|MessageHead| + |Display(err)|..|m| - |environment|] == MessageMiddle
    ensures m[|m| - |environment|..] == environment
  {
    MessageHead + Display(err) + MessageMiddle + environment
  }

  /** The environment is the tail of the message, so one error handled in two environments gives two messages. */
  lemma MessageNamesEnvironment(err: Error, a: string, b: string)
    ensures Message(err, a)[|Message(err, a)| - |a|..] == a
    ensures Message(err, a) == Message(err, b) ==> a == b
  {
    var m := Message(err, a);
    var front := MessageHead + Display(err) + MessageMiddle;
    assert m == front + a;
    assert Message(err, b) == front + b;
    if m == Message(err, b) {
      assert a == m[|front|..];
    }
  }

  /**
   * What `handle` records for a refused context access: the fixed in-use
   * text in the handler's environment, the same for a refused shared and a
   * refused exclusive borrow.
   */
  lemma InUseMessage(e: ContextErrors.ContextInUseError, environment: string)
    ensures Message(InUse(e), environment) == MessageHead + ContextErrors.InUseText + MessageMiddle + environment
    ensures Message(InUse(ContextErrors.Borrowed(ContextErrors.BorrowError)), environment)
         == Message(InUse(ContextErrors.BorrowedMut(ContextErrors.BorrowMutError)), environment)
  {
  }

  /** `handle`: one formatted message at the end of the shared list; the earlier ones stay as they were. */
  method Handle(h: StringErrorHandler, err: Error)
    modifies h.errors
    ensures h.errors.messages == old(h.errors.messages) + [Message(err, h.environment)]
  {
    h.errors.messages := h.errors.messages + [Message(err, h.environment)];
  }

  function Environment(h: StringErrorHandler): string
  {
    h.environment
  }

  /** `clone_for`: the extended environment over the same list, so the clone's messages reach the same token. */
  function CloneFor(h: StringErrorHandler, sub: string): (c: StringErrorHandler)
    ensures Environment(c) == Extended(Environment(h), sub) && c.errors == h.errors
  {
    StringErrorHandler(Extended(h.environment, sub), h.errors)
  }

  /** `ErrorAccessToken::get`: a copy of every message so far, oldest first. */
  function Get(token: ErrorAccessToken): seq<string>
    reads token.errors
  {
    token.errors.messages
  }

  /** Handled through a clone, a message is read through the original's token, naming the clone's environment. */
  method HandleThroughClone(environment: string, sub: string, err: Error) returns (messages: seq<string>)
    ensures messages == [MessageHead + Display(err) + MessageMiddle + environment + Separator + sub]
  {
    var handler, token := New(environment);
    var clone := CloneFor(handler, sub);
    Handle(clone, err);
    assert Message(err, clone.environment) == MessageHead + Display(err) + MessageMiddle + environment + Separator + sub;
    messages := Get(token);
  }
}
