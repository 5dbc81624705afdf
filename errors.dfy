/** The closed taxonomy of reasons a context ends with (src/error.ts).

    `ContextError` is the base error class; `DeadlineExceeded` and `Canceled`
    are its two subclasses, each with a fixed message. None of them overrides
    the `name` the base class assigns. An absent constructor message is the
    empty string, which is what JavaScript reports as `message` for it. */
module Errors {

  datatype ContextError =
    | ContextError(message: string)   // `new ContextError(message)`
    | DeadlineExceeded                // `new DeadlineExceeded()`
    | Canceled                        // `new Canceled()`

  /** The reasons a context can actually end with: the two concrete subclasses. */
  predicate IsReason(e: ContextError) {
    e.DeadlineExceeded? || e.Canceled?
  }

  type Reason = e: ContextError | IsReason(e) witness Canceled

  const DeadlineMessage := "Deadline has been exceeded"
  const CanceledMessage := "Context has been canceled"

  /** The `name` property: set once by the base constructor, never overridden. */
  function Name(e: ContextError): string {
    "ContextError"
  }

  /** The `message` property. */
  function Message(e: ContextError): string {
    match e
    case ContextError(m) => m
    case DeadlineExceeded => DeadlineMessage
    case Canceled => CanceledMessage
  }

  /** `Error.prototype.toString` (section 20.5.3.4 of ECMA-262): the name, then
      ": " and the message when the message is not empty. */
  function ToString(e: ContextError): string {
    if |Message(e)| == 0 then Name(e) else Name(e) + ": " + Message(e)
  }

  /** `new ContextError(m)` keeps `m` as its message, whatever it is, and is
      named `'ContextError'`. */
  lemma ContextErrorKeepsMessage(m: string)
    ensures Message(ContextError(m)) == m
    ensures Name(ContextError(m)) == "ContextError"
  {
  }

  /** `new ContextError('foo').toString()` is `'ContextError: foo'`; with an
      empty message only the name is printed. */
  lemma ToStringShowsNameAndMessage(m: string)
    ensures m != "" ==> ToString(ContextError(m)) == "ContextError: " + m
    ensures m == "" ==> ToString(ContextError(m)) == "ContextError"
  {
  }

  /** The two concrete reasons carry their fixed messages, keep the base name,
      and so print as `ContextError: <fixed message>`. */
  lemma FixedReasonMessages()
    ensures Message(DeadlineExceeded) == "Deadline has been exceeded"
    ensures Message(Canceled) == "Context has been canceled"
    ensures Name(DeadlineExceeded) == Name(Canceled) == "ContextError"
    ensures ToString(DeadlineExceeded) == "ContextError: " + "Deadline has been exceeded"
    ensures ToString(Canceled) == "ContextError: " + "Context has been canceled"
  {
  }

  /** Both concrete reasons are context errors that an observer can tell apart:
      by kind, and by message alone. */
  lemma ReasonsDistinguishable(a: Reason, b: Reason)
    ensures a == b <==> Message(a) == Message(b)
    ensures a != b ==> ToString(a) != ToString(b)
  {
  }
}
