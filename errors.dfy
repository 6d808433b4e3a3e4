/** Go's `error` values as this program builds, wraps and compares them. */
module GoErrors {

  datatype Option<+T> = None | Some(value: T)

  /** A Go pair `(value, err)` in which exactly one side is meaningful:
      `Ok(v)` is `(v, nil)`, `Fail(e)` is `(nil, e)`. */
  datatype Result<+T> = Ok(value: T) | Fail(error: Error)

  /** An error value held in a Go `error` interface.
      `id` is the identity of the allocation behind the interface: every
      error of this program is a pointer (`errors.New`, `fmt.Errorf`,
      `errors.Wrap`), and Go's `==` on such interfaces compares pointers.
      `message` is the text the error adds and `cause` the error it wraps. */
  datatype Error = Error(id: nat, message: string, cause: Option<Error>)

  /** Go's `a == b` on two error interfaces holding pointers: an error is
      equal to itself, and two allocations are never equal, whatever their
      text. */
  predicate Same(a: Error, b: Error): (r: bool)
    ensures a == b ==> r
    ensures a.id != b.id ==> !r
  {
    a.id == b.id
  }

  /** `errors.New(msg)`, `errors.Errorf` or `fmt.Errorf` without `%w`:
      a new allocation, here given identity `id`. */
  function New(id: nat, msg: string): (e: Error)
    ensures Text(e) == msg && e.cause.None?
  {
    Error(id, msg, None)
  }

  /** `errors.Wrap(cause, msg)` of github.com/pkg/errors: a new allocation
      that keeps `cause` and prints as `msg: <cause>`. */
  function Wrap(id: nat, cause: Error, msg: string): (e: Error)
    ensures Text(e) == msg + ": " + Text(cause) && e.cause == Some(cause)
  {
    Error(id, msg, Some(cause))
  }

  /** `err.Error()`: an error prints its own message first, and a wrapper
      then the text of its cause. */
  function Text(e: Error): (text: string)
    ensures e.message <= text
  {
    match e.cause
    case None => e.message
    case Some(c) => e.message + ": " + Text(c)
  }
}
