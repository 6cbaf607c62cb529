/** The wrapped symlink-capable filesystem, reduced to what the adapter's own
    decisions depend on.

    The filesystem is a map from path to node; a path may also carry a fault,
    which `Stat` and `Open` report instead of their normal answer. `Create`
    has its own map of refusals, because the paths it cannot create (an
    existing directory, a read-only file, a storage fault) are not the paths
    `Stat` cannot answer. What a
    `Readdir(0)` on a node yields (entries in the filesystem's own order and an
    optional error) is part of the node, so it can be anything the real
    filesystem might return. The adapter's calls into the filesystem are
    recorded as a trace, which is how the model states call order, "exactly
    one attempt" and "the handle is closed".
 */
module Sfs {
  import opened Errors

  datatype Kind = RegularFile | Directory

  /** A directory entry as `Readdir` reports it: its base name and kind. */
  datatype Info = Info(name: string, kind: Kind)

  /** What `Readdir(0)` returns on a handle to a node. */
  datatype Listing = Listing(entries: seq<Info>, err: Option<Error>)

  datatype Node = Node(kind: Kind, listing: Listing)

  datatype Sfs = Sfs(
    nodes: map<string, Node>,
    faults: map<string, Error>,
    createFaults: map<string, Error>,  // what `Create` reports on a path it cannot create
    prefix: string,     // the isolation helper's base path, "" when not isolated
    tempDir: string)    // what `TempDir()` reports

  /** An open handle of the wrapped filesystem, known by the name it was opened under. */
  datatype Handle = Handle(name: string)

  /** One call the adapter makes into the wrapped filesystem or the isolation helper. */
  datatype Call =
    | StatCall(path: string)
    | IsolateCall(path: string)
    | OpenCall(path: string, ok: bool)
    | ReaddirCall(n: int)
    | CloseCall
    | CreateCall(path: string, ok: bool)

  /** A path the filesystem answers normally: present and not faulted. */
  predicate Reachable(fs: Sfs, p: string)
  {
    p in fs.nodes && p !in fs.faults
  }

  /** The error the filesystem reports for a path it cannot answer. */
  function Refusal(fs: Sfs, p: string): (e: Error)
    requires !Reachable(fs, p)
    ensures p in fs.faults ==> e == fs.faults[p]
    ensures p !in fs.faults ==> e == NotExist(p)
  {
    if p in fs.faults then fs.faults[p] else NotExist(p)
  }

  /** `Stat(p)`, following symlinks, reduced to the one `os.FileInfo` fact
      the adapter reads: whether the node is a directory. */
  function Stat(fs: Sfs, p: string): (r: Result<Kind>)
    ensures r.Success? <==> Reachable(fs, p)
    ensures r.Success? ==> r.value == fs.nodes[p].kind
    ensures r.Failure? ==> r.error == Refusal(fs, p)
  {
    if Reachable(fs, p) then Success(fs.nodes[p].kind) else Failure(Refusal(fs, p))
  }

  /** `Open(p)`, read-only. Assumed of the wrapped filesystem: it succeeds on
      exactly the paths `Stat` answers, and the handle is named by `p`. */
  function Open(fs: Sfs, p: string): (r: Result<Handle>)
    ensures r.Success? <==> Stat(fs, p).Success?
    ensures r.Success? ==> r.value.name == p
    ensures r.Failure? ==> r.error == Stat(fs, p).error
  {
    if Reachable(fs, p) then Success(Handle(p)) else Failure(Refusal(fs, p))
  }

  /** `Readdir(0)` on an open handle: whatever the node's listing holds. */
  function Readdir(fs: Sfs, h: Handle): (l: Listing)
    ensures h.name in fs.nodes ==> l == fs.nodes[h.name].listing
    ensures h.name !in fs.nodes ==> l.entries == [] && l.err == Some(NotExist(h.name))
  {
    if h.name in fs.nodes then fs.nodes[h.name].listing else Listing([], Some(NotExist(h.name)))
  }

  /** `Create(p)`, truncate-or-new. It fails with whatever error the
      filesystem gives for `p`, whether or not `Stat` answers `p`. Assumed of
      the wrapped filesystem: the handle is named by `p`. */
  function Create(fs: Sfs, p: string): (r: Result<Handle>)
    ensures r.Success? <==> p !in fs.createFaults
    ensures r.Success? ==> r.value.name == p
    ensures r.Failure? ==> r.error == fs.createFaults[p]
  {
    if p in fs.createFaults then Failure(fs.createFaults[p]) else Success(Handle(p))
  }

  /** The change one call makes to the number of open handles. */
  function Delta(c: Call): int
  {
    if (c.OpenCall? || c.CreateCall?) && c.ok then 1
    else if c.CloseCall? then -1
    else 0
  }

  /** Handles a trace leaves open: successful opens and creates minus closes. */
  function HandlesLeft(calls: seq<Call>): int
  {
    if calls == [] then 0 else Delta(calls[0]) + HandlesLeft(calls[1..])
  }

  /** Handle accounting is additive over consecutive stretches of a trace. */
  lemma {:induction false} HandlesLeftAppend(a: seq<Call>, b: seq<Call>)
    ensures HandlesLeft(a + b) == HandlesLeft(a) + HandlesLeft(b)
    decreases |a|
  {
    if a == [] {
      assert a + b == b;
    } else {
      assert (a + b)[1..] == a[1..] + b;
      HandlesLeftAppend(a[1..], b);
    }
  }
}
