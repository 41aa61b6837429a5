/**
 * Go error values as far as the noise predicate looks at them: a message
 * (err.Error()), at most one cause reached by Unwrap, and the identity of
 * the two end-of-stream sentinels io.EOF and io.ErrUnexpectedEOF.
 */
module Errors {
  import opened Wrappers

  /**
   * EOF and UnexpectedEOF are the sentinel values themselves; every other
   * error is Custom, with its own message and an optional wrapped cause.
   * The message of a Custom error is not tied to its cause's message,
   * as with an arbitrary Go type implementing `error`.
   */
  datatype Error =
    | EOF
    | UnexpectedEOF
    | Custom(msg: string, cause: Option<Error>)

  /** err.Error(): the sentinels render as "EOF" and "unexpected EOF". */
  function Message(e: Error): (m: string)
    ensures e == EOF ==> m == "EOF"
    ensures e == UnexpectedEOF ==> m == "unexpected EOF"
    ensures e.Custom? ==> m == e.msg
  {
    match e
    case EOF => "EOF"
    case UnexpectedEOF => "unexpected EOF"
    case Custom(m, _) => m
  }

  /** errors.Unwrap: the sentinels wrap nothing. */
  function Unwrap(e: Error): (r: Option<Error>)
    ensures !e.Custom? ==> r.None?
    ensures e.Custom? ==> r == e.cause
  {
    if e.Custom? then e.cause else None
  }

  /**
   * The error chain of `e`: `e` itself, then what Unwrap yields, and so on
   * until Unwrap yields nothing.
   */
  function Chain(e: Error): (c: seq<Error>)
    ensures |c| >= 1 && c[0] == e
    ensures forall k :: 0 <= k < |c| - 1 ==> Unwrap(c[k]) == Some(c[k + 1])
    ensures Unwrap(c[|c| - 1]) == None
  {
    match Unwrap(e)
    case None => [e]
    case Some(next) => [e] + Chain(next)
  }

  /**
   * errors.Is restricted to a single-cause chain and sentinel identity:
   * `e` is `target`, or it unwraps to a cause that (recursively) is.
   */
  function Is(e: Error, target: Error): (b: bool)
    ensures b <==> target in Chain(e)
  {
    e == target ||
    match Unwrap(e)
    case None => false
    case Some(next) => Is(next, target)
  }

  /** Every error is itself. */
  lemma IsReflexive(e: Error)
    ensures Is(e, e)
  {
  }

  /** Wrapping keeps every match of the wrapped error. */
  lemma WrapKeepsIs(m: string, e: Error, target: Error)
    requires Is(e, target)
    ensures Is(Custom(m, Some(e)), target)
  {
  }

  /** The "is" relation is transitive: A wraps B wraps C means A is C. */
  lemma {:induction false} IsTransitive(a: Error, b: Error, c: Error)
    requires Is(a, b) && Is(b, c)
    ensures Is(a, c)
  {
    if a != b {
      match Unwrap(a)
      case Some(next) => IsTransitive(next, b, c);
    }
  }

  /** A sentinel is only ever itself: it has no cause, and the two differ. */
  lemma SentinelsAreDistinct()
    ensures !Is(EOF, UnexpectedEOF) && !Is(UnexpectedEOF, EOF)
  {
  }
}
