/** The file wrapper: every I/O method forwards to the wrapped handle and
    hands back its result, annotating a non-nil error with `%w`.

    The wrapped handle's behaviour is a parameter `call`, a function from the
    request the wrapper sends to the reply it gets back. That makes "the
    arguments are forwarded unchanged" a statement about which request the
    result was taken from.
 */
module BillyFile {
  import opened Errors
  import Sfs

  newtype int64 = x: int | -0x8000_0000_0000_0000 <= x < 0x8000_0000_0000_0000

  newtype byte = x: int | 0 <= x < 256

  /** A call on the wrapped handle, with the arguments it carries. */
  datatype Request =
    | WriteReq(p: seq<byte>)
    | ReadReq(p: seq<byte>)
    | ReadAtReq(p: seq<byte>, off: int64)
    | WriteAtReq(p: seq<byte>, off: int64)
    | SeekReq(offset: int64, whence: int)
    | CloseReq
    | TruncateReq(size: int64)

  /** The wrapped handle's answer: a count or position, and a Go error. */
  datatype Reply = Reply(n: int, err: Option<Error>)

  /** The wrapper: the wrapped handle and the state of its private mutex. */
  datatype File = File(inner: Sfs.Handle, locked: bool)

  /** The wrapper's error contract: the count is the inner one, the error is
      nil exactly when the inner error is, and otherwise unwraps to it. */
  predicate Forwards(r: Reply, got: Reply)
  {
    && r.n == got.n
    && (r.err.None? <==> got.err.None?)
    && (r.err.Some? ==> Unwrap(r.err.value) == got.err)
  }

  /** The shared shape of every delegating method. */
  function Pass(op: Op, name: string, got: Reply): (r: Reply)
    ensures Forwards(r, got)
    ensures r.err.Some? ==> r.err.value.op == op && r.err.value.name == name
  {
    Reply(got.n, Wrap(op, name, got.err))
  }

  /** `Name()`: the wrapped handle's name. */
  function Name(f: File): string
  {
    f.inner.name
  }

  /** A wrapper reports the name of the handle it was built around, whatever
      the state of its mutex. */
  lemma NameIsWrappedHandleName(h: Sfs.Handle, locked: bool)
    ensures Name(File(h, locked)) == h.name
    ensures Name(File(h, locked)) == Name(File(h, !locked))
  {
  }

  function Write(f: File, p: seq<byte>, call: Request -> Reply): (r: Reply)
    ensures Forwards(r, call(WriteReq(p)))
    ensures r.err.Some? ==> r.err.value.op == WriteOp && r.err.value.name == Name(f)
  {
    Pass(WriteOp, Name(f), call(WriteReq(p)))
  }

  function Read(f: File, p: seq<byte>, call: Request -> Reply): (r: Reply)
    ensures Forwards(r, call(ReadReq(p)))
    ensures r.err.Some? ==> r.err.value.op == ReadOp && r.err.value.name == Name(f)
  {
    Pass(ReadOp, Name(f), call(ReadReq(p)))
  }

  function ReadAt(f: File, p: seq<byte>, off: int64, call: Request -> Reply): (r: Reply)
    ensures Forwards(r, call(ReadAtReq(p, off)))
    ensures r.err.Some? ==> r.err.value.op == ReadAtOp(off as int) && r.err.value.name == Name(f)
  {
    Pass(ReadAtOp(off as int), Name(f), call(ReadAtReq(p, off)))
  }

  function WriteAt(f: File, p: seq<byte>, off: int64, call: Request -> Reply): (r: Reply)
    ensures Forwards(r, call(WriteAtReq(p, off)))
    ensures r.err.Some? ==> r.err.value.op == WriteAtOp(off as int) && r.err.value.name == Name(f)
  {
    Pass(WriteAtOp(off as int), Name(f), call(WriteAtReq(p, off)))
  }

  /** `Seek`: the reply's count is the new position. */
  function Seek(f: File, offset: int64, whence: int, call: Request -> Reply): (r: Reply)
    ensures Forwards(r, call(SeekReq(offset, whence)))
    ensures r.err.Some? ==> r.err.value.op == SeekOp(offset as int, whence) && r.err.value.name == Name(f)
  {
    Pass(SeekOp(offset as int, whence), Name(f), call(SeekReq(offset, whence)))
  }

  function Close(f: File, call: Request -> Reply): (r: Option<Error>)
    ensures r.None? <==> call(CloseReq).err.None?
    ensures r.Some? ==> Unwrap(r.value) == call(CloseReq).err && r.value.op == CloseOp && r.value.name == Name(f)
  {
    Pass(CloseOp, Name(f), call(CloseReq)).err
  }

  function Truncate(f: File, size: int64, call: Request -> Reply): (r: Option<Error>)
    ensures r.None? <==> call(TruncateReq(size)).err.None?
    ensures r.Some? ==> Unwrap(r.value) == call(TruncateReq(size)).err
    ensures r.Some? ==> r.value.op == TruncateOp(size as int) && r.value.name == Name(f)
  {
    Pass(TruncateOp(size as int), Name(f), call(TruncateReq(size))).err
  }

  /** The result of `Lock`/`Unlock`: the wrapper afterwards and the error returned. */
  datatype LockResult = LockResult(file: File, err: Option<Error>)

  /** `Lock()` takes the private mutex and reports nil. On a held mutex the
      Go call blocks until another goroutine unlocks, which a single-threaded
      model cannot express, so the model takes it free. */
  function Lock(f: File): (r: LockResult)
    requires !f.locked
    ensures r.err.None?
    ensures r.file.locked && r.file.inner == f.inner
  {
    LockResult(f.(locked := true), None)
  }

  /** `Unlock()` releases the mutex and reports nil. Unlocking a free mutex is
      a fatal runtime error in Go, so the mutex must be held. */
  function Unlock(f: File): (r: LockResult)
    requires f.locked
    ensures r.err.None?
    ensures !r.file.locked && r.file.inner == f.inner
  {
    LockResult(f.(locked := false), None)
  }

  /** `Unlock` undoes `Lock`, and neither touches the wrapped handle. */
  lemma LockUnlockRoundTrip(f: File)
    requires !f.locked
    ensures Unlock(Lock(f).file).file == f
    ensures Name(Lock(f).file) == Name(f)
  {
  }

  /** A forwarded reply keeps the inner error recognisable with `errors.Is`:
      anything the inner error "is", the returned error "is" too. */
  lemma ForwardedErrorsStayIdentifiable(r: Reply, got: Reply, target: Error)
    requires Forwards(r, got)
    requires got.err.Some? && Is(got.err.value, target)
    ensures r.err.Some? && Is(r.err.value, target)
  {
  }
}
