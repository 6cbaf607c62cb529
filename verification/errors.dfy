/** Go-style error values as the adapter sees them.

    A Go `error` return is either nil (`None`) or an error value (`Some(e)`).
    The adapter produces three errors of its own, all in the constructor;
    every other error comes from the wrapped filesystem and is either passed
    through untouched or wrapped with `fmt.Errorf("...: %w", err)`, which keeps
    the inner error reachable through `errors.Unwrap` and `errors.Is`.
 */
module Errors {

  datatype Option<+T> = None | Some(value: T)

  /** A value-or-error return, for the Go calls that yield exactly one of the two. */
  datatype Result<+T> = Success(value: T) | Failure(error: Error)

  /** The operation and its numeric arguments named in a wrapped error's message. */
  datatype Op =
    | WriteOp
    | ReadOp
    | ReadAtOp(off: int)
    | WriteAtOp(off: int)
    | SeekOp(offset: int, whence: int)
    | CloseOp
    | TruncateOp(size: int)

  datatype Error =
    | ErrInvalid                              // os.ErrInvalid
    | NotAbsolute                             // errors.New("not an absolute path")
    | NotADirectory                           // errors.New("not a directory")
    | NotExist(path: string)                  // the wrapped filesystem's "no such file"
    | Storage(code: nat)                      // any other error of the wrapped filesystem
    | Wrapped(op: Op, name: string, inner: Error)  // fmt.Errorf("<op> <name> ...: %w", inner)

  /** `errors.Unwrap`: only a `%w`-wrapped error has an inner error. */
  function Unwrap(e: Error): (r: Option<Error>)
    ensures r.Some? <==> e.Wrapped?
    ensures r.Some? ==> r.value < e
  {
    match e
    case Wrapped(_, _, inner) => Some(inner)
    case _ => None
  }

  /** `errors.Is` along the single `Unwrap` chain, with value equality:
      `target` equals `e` or some error reached from `e` by unwrapping. */
  predicate Is(e: Error, target: Error)
    decreases e
  {
    e == target || (e.Wrapped? && Is(e.inner, target))
  }

  /** The unwrap chain of `e`: `e` itself, then `Unwrap(e)`, and so on until nil. */
  function Chain(e: Error): (c: seq<Error>)
    ensures |c| >= 1 && c[0] == e
    decreases e
  {
    match Unwrap(e)
    case None => [e]
    case Some(inner) => [e] + Chain(inner)
  }

  /** The model's `errors.Is` is exactly membership in the unwrap chain. */
  lemma {:induction false} IsMeansInChain(e: Error, target: Error)
    ensures Is(e, target) <==> target in Chain(e)
    decreases e
  {
    match e
    case Wrapped(_, _, inner) =>
      IsMeansInChain(inner, target);
      assert Chain(e) == [e] + Chain(inner);
    case _ =>
      assert Chain(e) == [e];
  }

  /** The annotation the file wrapper applies to an inner error: nil stays nil,
      a non-nil error is wrapped with `%w` under the operation and file name. */
  function Wrap(op: Op, name: string, err: Option<Error>): (r: Option<Error>)
    ensures r.None? <==> err.None?
    ensures r.Some? ==> Unwrap(r.value) == err
    ensures r.Some? ==> r.value.op == op && r.value.name == name
  {
    match err
    case None => None
    case Some(e) => Some(Wrapped(op, name, e))
  }

  /** Wrapping never changes what a caller can test for with `errors.Is`:
      any error the inner one "is", the wrapped one "is" too, and for a target
      that is not itself a wrapped error the converse holds as well. */
  lemma WrapKeepsIdentity(op: Op, name: string, e: Error, target: Error)
    ensures Is(e, target) ==> Is(Wrap(op, name, Some(e)).value, target)
    ensures !target.Wrapped? ==> (Is(Wrap(op, name, Some(e)).value, target) <==> Is(e, target))
  {
  }

  /** Wrapping lengthens the unwrap chain by exactly the new annotation. */
  lemma WrapExtendsChain(op: Op, name: string, e: Error)
    ensures Chain(Wrap(op, name, Some(e)).value) == [Wrapped(op, name, e)] + Chain(e)
  {
  }
}
