/**
 * Go errors as the executor uses them: a message plus whether the error
 * chain contains `context.Canceled` (what `errors.Is(err, context.Canceled)`
 * answers).
 */
module Errors {
  import opened Wrappers

  datatype Error = Error(msg: string, canceled: bool)

  /** The panic value of a nil pointer dereference, as printed by `%v`. */
  const NilDereference := "runtime error: invalid memory address or nil pointer dereference"

  /** The result of calling a step executor: it returns an error (or nil), or it panics. */
  datatype RunResult = Returned(err: Option<Error>) | Panicked(reason: string)

  /** A plain error (`errors.New`, `fmt.Errorf` without `%w`): never a cancellation. */
  function New(msg: string): (e: Error)
    ensures e.msg == msg && !e.canceled
  {
    Error(msg, false)
  }

  /** `errors.Wrap(err, prefix)` of pkg/errors: the message gains a prefix, the cause is kept. */
  function Wrap(e: Error, prefix: string): (w: Error)
    ensures w.canceled == e.canceled
    ensures w.msg == prefix + ": " + e.msg
  {
    Error(prefix + ": " + e.msg, e.canceled)
  }

  /** `errors.Wrap` applied to a possibly nil error: wrapping nil gives nil. */
  function WrapOpt(e: Option<Error>, prefix: string): (w: Option<Error>)
    ensures w.None? <==> e.None?
    ensures e.Some? ==> w == Some(Wrap(e.value, prefix))
  {
    match e
    case None => None
    case Some(err) => Some(Wrap(err, prefix))
  }
}
