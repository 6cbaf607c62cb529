/** The filesystem adapter: construction with its four checks, and the
    composite operations whose behaviour the adapter itself decides (`Root`,
    `ReadDir`, `Chroot`, `TempFile`, `Capabilities`).

    The path-isolation helper (`basefs.NewFS`) and `filepath.Join` belong to
    other libraries and are parameters: `isolate` and `join`.
 */
module BillyFs {
  import opened Errors
  import opened Sfs
  import opened TempName
  import BillyFile

  /** The adapter. `Empty` is the `&Filesystem{}` with no wrapped filesystem
      that a failed `Chroot` returns. */
  datatype Adapter = Adapter(fs: Sfs) | Empty

  /** `filepath.IsAbs` on a Unix system: the path starts with a slash. */
  predicate IsAbs(path: string)
  {
    |path| > 0 && path[0] == '/'
  }

  /** What a base directory must be, read straight off the filesystem: a
      non-empty absolute path naming a directory that is not faulted. */
  predicate ValidBase(fs: Sfs, dir: string)
  {
    && dir != ""
    && IsAbs(dir)
    && dir in fs.nodes
    && dir !in fs.faults
    && fs.nodes[dir].kind == Directory
  }

  /** The outcome of `NewFS`: the adapter or the error, and the calls made. */
  datatype Construction = Construction(result: Result<Adapter>, calls: seq<Call>)

  /** `NewFS(fs, dir)`: four checks in order, each stopping at its failure,
      then the isolation helper. */
  function NewFS(fs: Sfs, dir: string, isolate: (Sfs, string) -> Result<Sfs>): (o: Construction)
    // empty and relative paths fail before any filesystem call
    ensures dir == "" ==> o.result == Failure(ErrInvalid) && o.calls == []
    ensures dir != "" && !IsAbs(dir) ==> o.result == Failure(NotAbsolute) && o.calls == []
    // an absolute path is looked up exactly once, first
    ensures IsAbs(dir) ==> |o.calls| >= 1 && o.calls[0] == StatCall(dir)
    ensures IsAbs(dir) && Stat(fs, dir).Failure? ==> o.result == Failure(Stat(fs, dir).error) && o.calls == [StatCall(dir)]
    ensures IsAbs(dir) && Stat(fs, dir).Success? && Stat(fs, dir).value != Directory ==>
              o.result == Failure(NotADirectory) && o.calls == [StatCall(dir)]
    // the helper runs only on a valid base, and its verdict is final
    ensures ValidBase(fs, dir) <==> o.calls == [StatCall(dir), IsolateCall(dir)]
    ensures ValidBase(fs, dir) ==> o.result == (match isolate(fs, dir)
                                                case Success(inner) => Success(Adapter(inner))
                                                case Failure(e) => Failure(e))
    ensures o.result.Success? ==> o.result.value.Adapter?
  {
    if dir == "" then Construction(Failure(ErrInvalid), [])
    else if !IsAbs(dir) then Construction(Failure(NotAbsolute), [])
    else
      match Stat(fs, dir)
      case Failure(e) => Construction(Failure(e), [StatCall(dir)])
      case Success(kind) =>
        if kind != Directory then Construction(Failure(NotADirectory), [StatCall(dir)])
        else
          match isolate(fs, dir)
          case Failure(e) => Construction(Failure(e), [StatCall(dir), IsolateCall(dir)])
          case Success(inner) => Construction(Success(Adapter(inner)), [StatCall(dir), IsolateCall(dir)])
  }

  /** `NewFS` yields an adapter exactly for a valid base the helper accepts,
      and the only errors it makes up itself are the three constructor ones. */
  lemma NewFSAcceptsExactlyValidBases(fs: Sfs, dir: string, isolate: (Sfs, string) -> Result<Sfs>)
    ensures NewFS(fs, dir, isolate).result.Success? <==> ValidBase(fs, dir) && isolate(fs, dir).Success?
    ensures NewFS(fs, dir, isolate).result.Failure? && !ValidBase(fs, dir) ==>
              (|| NewFS(fs, dir, isolate).result.error in {ErrInvalid, NotAbsolute, NotADirectory}
               || (Stat(fs, dir).Failure? && NewFS(fs, dir, isolate).result.error == Stat(fs, dir).error))
  {
  }

  /** If the helper records the base it was given, the new adapter's root is `dir`. */
  lemma NewFSRoot(fs: Sfs, dir: string, isolate: (Sfs, string) -> Result<Sfs>)
    requires ValidBase(fs, dir)
    requires isolate(fs, dir).Success? && isolate(fs, dir).value.prefix == dir
    ensures NewFS(fs, dir, isolate).result.Success?
    ensures Root(NewFS(fs, dir, isolate).result.value) == dir
  {
  }

  /** `Root()`: the helper's prefix, with "/" standing in for an empty one. */
  function Root(a: Adapter): (r: string)
    requires a.Adapter?
    ensures r != ""
    ensures a.fs.prefix != "" ==> r == a.fs.prefix
    ensures r == "/" <==> a.fs.prefix in {"", "/"}
  {
    if a.fs.prefix == "" then "/" else a.fs.prefix
  }

  /** The outcome of `ReadDir`: the entries and the error returned, and the calls made. */
  datatype Listed = Listed(entries: seq<Info>, err: Option<Error>, calls: seq<Call>)

  /** `ReadDir(path)`: open, read every entry, close on the way out. */
  function ReadDir(a: Adapter, path: string): (o: Listed)
    requires a.Adapter?
    // an open that fails is the whole call: its error, no entries, nothing left open
    ensures Open(a.fs, path).Failure? ==>
              o.err == Some(Open(a.fs, path).error) && o.entries == [] && o.calls == [OpenCall(path, false)]
    // an open that succeeds is followed by one full read and then the close
    ensures Open(a.fs, path).Success? ==> o.calls == [OpenCall(path, true), ReaddirCall(0), CloseCall]
    ensures Open(a.fs, path).Success? ==>
              o.entries == Readdir(a.fs, Open(a.fs, path).value).entries
              && o.err == Readdir(a.fs, Open(a.fs, path).value).err
    ensures HandlesLeft(o.calls) == 0
  {
    match Open(a.fs, path)
    case Failure(e) => Listed([], Some(e), [OpenCall(path, false)])
    case Success(h) =>
      var l := Readdir(a.fs, h);
      var calls := [OpenCall(path, true), ReaddirCall(0), CloseCall];
      assert calls[1..][1..] == [CloseCall] && [CloseCall][1..] == [];
      assert HandlesLeft(calls[1..][1..]) == -1;
      assert HandlesLeft(calls[1..]) == -1;
      Listed(l.entries, l.err, calls)
  }

  /** Listing a reachable path returns its entries as stored, in order, and
      two listings one after another leave no handle open. */
  lemma ReadDirListsInOrder(a: Adapter, path: string, other: string)
    requires a.Adapter? && Reachable(a.fs, path)
    ensures ReadDir(a, path).entries == a.fs.nodes[path].listing.entries
    ensures ReadDir(a, path).err == a.fs.nodes[path].listing.err
    ensures HandlesLeft(ReadDir(a, path).calls + ReadDir(a, other).calls) == 0
  {
    HandlesLeftAppend(ReadDir(a, path).calls, ReadDir(a, other).calls);
  }

  /** The calls made by listing each path of `paths` in turn. */
  function ListingTrace(a: Adapter, paths: seq<string>): seq<Call>
    requires a.Adapter?
  {
    if paths == [] then [] else ReadDir(a, paths[0]).calls + ListingTrace(a, paths[1..])
  }

  /** Any number of listings one after another leave no handle open, and
      each contributes at most three calls. */
  lemma {:induction false} ListingsLeaveNoHandleOpen(a: Adapter, paths: seq<string>)
    requires a.Adapter?
    ensures HandlesLeft(ListingTrace(a, paths)) == 0
    ensures |ListingTrace(a, paths)| <= 3 * |paths|
  {
    if paths != [] {
      ListingsLeaveNoHandleOpen(a, paths[1..]);
      HandlesLeftAppend(ReadDir(a, paths[0]).calls, ListingTrace(a, paths[1..]));
    }
  }

  /** The outcome of `Chroot`: an adapter and an error, both always present. */
  datatype Rerooted = Rerooted(adapter: Adapter, err: Option<Error>)

  /** `Chroot(path)`: hand the wrapped filesystem and `path` to the helper and
      wrap its result in a new adapter; on failure, an empty adapter and the
      helper's error. The receiver is a value and is not changed. */
  function Chroot(a: Adapter, path: string, isolate: (Sfs, string) -> Result<Sfs>): (o: Rerooted)
    requires a.Adapter?
    ensures o.err.None? <==> isolate(a.fs, path).Success?
    ensures o.err.None? ==> o.adapter == Adapter(isolate(a.fs, path).value)
    ensures o.err.Some? ==> o.adapter == Empty && o.err.value == isolate(a.fs, path).error
  {
    match isolate(a.fs, path)
    case Failure(e) => Rerooted(Empty, Some(e))
    case Success(inner) => Rerooted(Adapter(inner), None)
  }

  /** A usable adapter never comes with an error, and an error never with a
      usable adapter. */
  lemma ChrootAdapterXorError(a: Adapter, path: string, isolate: (Sfs, string) -> Result<Sfs>)
    requires a.Adapter?
    ensures Chroot(a, path, isolate).adapter.Adapter? <==> Chroot(a, path, isolate).err.None?
  {
  }

  /** The directory `TempFile` creates in: `dir`, or the filesystem's temp directory. */
  function TempTarget(fs: Sfs, dir: string): string
  {
    if dir == "" then fs.tempDir else dir
  }

  /** The outcome of `TempFile`: the wrapped file or the error, and the calls made. */
  datatype Creation = Creation(result: Result<BillyFile.File>, calls: seq<Call>)

  /** `TempFile(dir, prefix)` once the random suffix is drawn. */
  function TempFileWith(a: Adapter, dir: string, prefix: string, suffix: string,
                        join: (string, string) -> string): (o: Creation)
    requires a.Adapter?
    // exactly one create, of exactly this path
    ensures |o.calls| == 1 && o.calls[0].CreateCall?
    ensures o.calls[0].path == join(TempTarget(a.fs, dir), BaseName(prefix, suffix))
    // the create's verdict is passed through unchanged
    ensures o.result.Success? <==> Create(a.fs, o.calls[0].path).Success?
    ensures o.result.Failure? ==> o.result.error == Create(a.fs, o.calls[0].path).error
    ensures o.result.Success? ==> o.result.value == BillyFile.File(Create(a.fs, o.calls[0].path).value, false)
    ensures o.result.Success? ==> BillyFile.Name(o.result.value) == Create(a.fs, o.calls[0].path).value.name
    ensures HandlesLeft(o.calls) == (if o.result.Success? then 1 else 0)
  {
    var p := join(TempTarget(a.fs, dir), BaseName(prefix, suffix));
    match Create(a.fs, p)
    case Failure(e) => Creation(Failure(e), [CreateCall(p, false)])
    case Success(h) => Creation(Success(BillyFile.File(h, false)), [CreateCall(p, true)])
  }

  /** `TempFile(dir, prefix)`: draw `randSeq(5)`, then create once. */
  method TempFile(a: Adapter, dir: string, prefix: string, join: (string, string) -> string)
    returns (o: Creation, suffix: string)
    requires a.Adapter?
    ensures |suffix| == SuffixLength && AllLetters(suffix)
    ensures IsTempName(BaseName(prefix, suffix), prefix)
    ensures o == TempFileWith(a, dir, prefix, suffix, join)
  {
    ghost var draws;
    suffix, draws := RandSeq(SuffixLength);
    BaseNameShape(prefix, suffix);
    o := TempFileWith(a, dir, prefix, suffix, join);
  }

  /** A `TempFile` that succeeds returns a file named as `Create`'s handle is;
      since the wrapped filesystem names a created handle by its path, that
      name is the path created. */
  lemma TempFileNamesCreatedPath(a: Adapter, dir: string, prefix: string, suffix: string,
                                 join: (string, string) -> string)
    requires a.Adapter?
    requires TempFileWith(a, dir, prefix, suffix, join).result.Success?
    ensures var p := join(TempTarget(a.fs, dir), BaseName(prefix, suffix));
            BillyFile.Name(TempFileWith(a, dir, prefix, suffix, join).result.value) == Create(a.fs, p).value.name
    ensures BillyFile.Name(TempFileWith(a, dir, prefix, suffix, join).result.value)
            == join(TempTarget(a.fs, dir), BaseName(prefix, suffix))
  {
  }

  /** The go-billy capability flags. */
  datatype Capability = WriteCap | ReadCap | ReadAndWriteCap | SeekCap | TruncateCap | LockCap

  /** `Capabilities()`: every flag, whatever the wrapped filesystem supports. */
  function Capabilities(a: Adapter): (r: set<Capability>)
    ensures forall c: Capability :: c in r
  {
    var all := {WriteCap, ReadCap, ReadAndWriteCap, SeekCap, TruncateCap, LockCap};
    EveryFlagListed(all);
    all
  }

  lemma EveryFlagListed(all: set<Capability>)
    requires all == {WriteCap, ReadCap, ReadAndWriteCap, SeekCap, TruncateCap, LockCap}
    ensures forall c: Capability :: c in all
  {
    forall c: Capability ensures c in all {
      match c
      case WriteCap =>
      case ReadCap =>
      case ReadAndWriteCap =>
      case SeekCap =>
      case TruncateCap =>
      case LockCap =>
    }
  }
}
