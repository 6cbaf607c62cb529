# billyfs adapter model

`billyfs` presents an absfs symlink-capable filesystem as a go-billy
filesystem. Almost every method forwards one call to the wrapped filesystem.
This project models the parts where the adapter makes its own decisions:

- **construction** (`NewFS`): four checks in a fixed order, then the path-isolation helper;
- **temp files** (`TempFile`, `randSeq`): the target directory, the `prefix + "_" + 5 letters` name, and a single create attempt;
- **composite operations**: `Root`, `ReadDir` (open, read everything, close), `Chroot` and `Capabilities`;
- **the file wrapper** (`File`): the count or position passes through unchanged, the error is nil exactly when the inner error is nil, and a non-nil error is wrapped with `%w`. `Lock` and `Unlock` report nil.

Modules, one per component:

- `Errors` (errors.dfy): Go error values and nil. It defines `errors.Unwrap` and `errors.Is`, plus the `%w` annotation the file wrapper applies.
- `Sfs` (sfs.dfy): the wrapped filesystem, abstracted as a map from path to node (kind, plus what `Readdir(0)` yields), a map of paths that `Stat` and `Open` refuse, and a separate map of paths that `Create` refuses. It also defines the trace of calls the adapter makes and the open-handle count of a trace.
- `TempName` (tempname.dfy): the 52-letter alphabet, `randSeq` as a nondeterministic method, and the shape of temp names.
- `BillyFile` (billyfile.dfy): the file wrapper. The wrapped handle's behaviour is a parameter `call: Request -> Reply`, so "arguments are forwarded unchanged" means that the result is taken from `call` applied to exactly the caller's arguments.
- `BillyFs` (billyfs.dfy): the adapter and its operations. The isolation helper (`basefs.NewFS`) and `filepath.Join` come from other libraries, so they are parameters `isolate` and `join`.

What the code does, as modelled:

- `Chroot` hands `path` straight to the isolation helper (billyfs.go:168). Any resolution of a relative path is the helper's business.
- `ReadDir` does not sort. The entries come back in the order `Readdir(0)` produced them, although the doc comment at billyfs.go:187-188 says they are sorted.
- The file wrapper wraps every non-nil inner error with `%w` (billyfile.go:24, 33, 42, 51, 60, 68, 76).
- No mutex of the package's own guards the random source, and a `rand.Rand` made by `rand.New` is not safe for concurrent use, although the comment at billyfs.go:18-19 says it is thread-safe.
- Temp names are not unique. `TempFile` creates (truncating) whatever path the five drawn letters give, with no existence check and no retry, although the doc comment at billyfs.go:235-236 says that simultaneous callers will not choose the same file.

## Model

| member | source | states |
|---|---|---|
| `Errors.Wrap` | billyfile.go:22-26 | A nil inner error stays nil and a non-nil one becomes non-nil. The result unwraps to the inner error and names the operation and the file. |
| `Errors.IsMeansInChain` | billyfile.go:24-76 | The model's `errors.Is` holds exactly for the errors on the unwrap chain, which is what keeps a `%w`-wrapped error identifiable. |
| `Errors.WrapKeepsIdentity` | billyfile.go:24-76 | Anything the inner error "is", the wrapped error "is" too. For a target that is not itself a wrapped error, the converse also holds. |
| `Errors.WrapExtendsChain` | billyfile.go:24-76 | Wrapping adds exactly one link, the annotation, in front of the inner error's unwrap chain. |
| `BillyFile.Write` | billyfile.go:21-27 | The count is the inner `Write(p)` count, even when the inner call failed. The error is nil exactly when the inner error is nil, and otherwise unwraps to it under a "write" annotation. |
| `BillyFile.Read` | billyfile.go:30-36 | The same contract for `Read(p)`: the inner count always, and the inner error wrapped exactly when it is non-nil. |
| `BillyFile.ReadAt` | billyfile.go:39-45 | The buffer and offset reach the inner `ReadAt` unchanged. Its count is returned, and its error is wrapped with the offset in the annotation. |
| `BillyFile.WriteAt` | billyfile.go:48-54 | The buffer and offset reach the inner `WriteAt` unchanged. Its count is returned, and its error is wrapped with the offset in the annotation. |
| `BillyFile.Seek` | billyfile.go:57-63 | Offset and whence are forwarded unchanged, and the inner position is returned even on error. The error is nil iff the inner error is nil, and otherwise unwraps to it. |
| `BillyFile.Close` | billyfile.go:66-71 | The error is nil exactly when the inner `Close` error is nil. Otherwise it unwraps to that error under a "close" annotation naming the file. |
| `BillyFile.Truncate` | billyfile.go:74-79 | The size is forwarded unchanged. The error is nil exactly when the inner error is nil, and otherwise unwraps to it with the file name and the size in the annotation. |
| `BillyFile.NameIsWrappedHandleName` | billyfile.go:16-18 | `Name()` returns the name of the wrapped handle unchanged, whatever the state of the wrapper's mutex. |
| `BillyFile.Lock` | billyfile.go:81-84 | Lock takes the wrapper's mutex, always returns nil, and leaves the wrapped handle alone. |
| `BillyFile.Unlock` | billyfile.go:86-89 | Unlock releases the held mutex, always returns nil, and leaves the wrapped handle alone. |
| `BillyFile.LockUnlockRoundTrip` | billyfile.go:81-89 | Unlock after Lock restores the wrapper exactly, and the file's name is unaffected. |
| `BillyFile.ForwardedErrorsStayIdentifiable` | billyfile.go:21-79 | For every delegating method: if the inner call failed with an error that "is" some target, the returned error is non-nil and "is" that target too. |
| `TempName.AlphabetIsAsciiLetters` | billyfs.go:256 | The alphabet has 52 entries, each an ASCII letter at its own position, and every ASCII letter occurs in it. |
| `TempName.AlphabetEnds` | billyfs.go:256 | The alphabet runs from "a" to "z", then from "A" to "Z". |
| `TempName.RandSeq` | billyfs.go:255-262 | `randSeq(n)` returns exactly `n` characters, each a letter of the alphabet, and the result is exactly the letters its `n` draws spell (`FromDraws` of the draws made). |
| `TempName.FromDraws` | billyfs.go:257-261 | Given one alphabet index per draw, the result has one letter per draw and only letters. |
| `TempName.ToDraws` | billyfs.go:259 | Every letter string has one alphabet index per character. |
| `TempName.DrawsRoundTrip` | billyfs.go:255-262 | Draws and letter strings correspond one to one. Since `RandSeq` returns what its draws spell, every string of `n` letters is a possible `randSeq(n)`. |
| `TempName.BaseNameShape` | billyfs.go:246 | `prefix + "_" + s` has the temp-name shape exactly when `s` is five letters, and `s` can be read back from it. |
| `TempName.TempNameIsBaseName` | billyfs.go:246 | Every name of the temp-name shape is `prefix + "_" + its own suffix`. |
| `BillyFs.NewFS` | billyfs.go:40-62 | An empty dir fails with `os.ErrInvalid` and a relative dir with "not an absolute path", neither calling Stat. A failed Stat's error is returned unchanged. A non-directory fails with "not a directory". The helper runs only once all four checks pass. |
| `BillyFs.NewFSAcceptsExactlyValidBases` | billyfs.go:40-61 | NewFS returns an adapter iff dir is a non-empty absolute path naming a directory and the isolation helper succeeds. For an invalid base, the error is one of the three constructor errors or Stat's own. |
| `BillyFs.NewFSRoot` | billyfs.go:56-61 | If the isolation helper records the base it was given, the new adapter's root is `dir`. |
| `BillyFs.Root` | billyfs.go:177-183 | Root is never empty. An empty prefix becomes "/", and any other prefix is returned as it is. |
| `BillyFs.ReadDir` | billyfs.go:189-198 | If open fails, its error is returned and nothing is left open. If open succeeds, there is one `Readdir(0)` and then the close, whatever Readdir yields. Entries and error are Readdir's, in its order. |
| `BillyFs.ReadDirListsInOrder` | billyfs.go:189-198 | Listing a reachable directory returns its stored entries in stored order. Any two listings in a row leave no handle open. |
| `BillyFs.ListingsLeaveNoHandleOpen` | billyfs.go:189-198 | Any number of `ReadDir` calls one after another, on any paths, leave no handle open, because each closes the handle it opened. |
| `BillyFs.Chroot` | billyfs.go:167-174 | On success, a new adapter wraps exactly what the helper returned. On failure, the empty adapter comes back together with the helper's error, unchanged. |
| `BillyFs.ChrootAdapterXorError` | billyfs.go:167-174 | Chroot returns a usable adapter exactly when it returns no error. |
| `BillyFs.TempFileWith` | billyfs.go:242-251 | Exactly one Create, of `Join(d, prefix + "_" + suffix)`, where `d` is `dir` or, when `dir` is empty, the filesystem's temp directory. The Create's error is returned unchanged. On success its handle comes back wrapped, and the wrapper's name is that handle's name. |
| `BillyFs.TempFile` | billyfs.go:239-252 | The drawn suffix is five letters, so the created base name has the temp-name shape. Then TempFile behaves as the single create above. |
| `BillyFs.TempFileNamesCreatedPath` | billyfs.go:246-251 | A successful TempFile returns a file named as `Create`'s handle is. Under the assumption below that the wrapped filesystem names a created handle by its path, that name is the path created. |
| `BillyFs.Capabilities` | billyfs.go:129-131 | Every go-billy capability flag is reported, whatever the wrapped filesystem is. |

## Left out

- The pure one-to-one delegations (`Create`, `Open`, `OpenFile`, `Stat`, `Rename`, `Remove`, `MkdirAll`, `Chmod`, `Chown`, `Lchown`, `Chtimes`, `Lstat`, `Symlink`, `Readlink`, `Join`) are not modelled. Their meaning is the wrapped filesystem's.
- `Sfs.Stat`, `Sfs.Open`, `Sfs.Create` and `Sfs.Readdir` stand in for the wrapped absfs/basefs filesystem and make two assumptions about it. First, `Open` succeeds on exactly the paths `Stat` answers, with the same error otherwise; `BillyFs.ReadDirListsInOrder` relies on this. Second, a handle from `Open` or `Create` is named by the path it was given; the path equality in `BillyFs.TempFileNamesCreatedPath` relies on this. The adapter's own part is only passing the handle's name through, which `BillyFs.TempFileWith` states without either assumption. `Create` is not tied to `Stat`: it may fail on any path, including one `Stat` answers (an existing directory, a read-only file), so every failure of the temp file's create is covered.
- `Sfs.Stat` reports only whether the node is a directory, the one `os.FileInfo` fact the constructor reads.
- The isolation helper (`basefs.NewFS`, `basefs.Prefix`) and its chroot-escape behaviour belong to another library. The helper is the parameter `isolate`, and the prefix is a field of the wrapped filesystem.
- `filepath.Join` is the parameter `join`, left uninterpreted. `filepath.IsAbs` is modelled only for Unix, as "starts with /".
- The random source is not modelled: its time-based seed, its `sync.Once` initialisation and the shared `rand.Rand`. Each draw is an arbitrary alphabet index. Temp names are not unique, and the model does not claim they are.
- Concurrency is not modelled. That covers the thread-safety of the random source and the mutual exclusion `Lock`/`Unlock` provide between goroutines.
- Byte contents, seek, truncate and end-of-file semantics are not modelled, because they belong to the wrapped file. `Read` does not model the bytes the inner call writes into the buffer.
- `Errors.Is`: models `errors.Is` as value equality along the single `Unwrap` chain. Go's version also asks each link's own `Is(error) bool` method, follows `Unwrap() []error`, and compares with `==`, which is pointer identity for `errors.New` values. So `errors.Is(err, os.ErrNotExist)` can hold through `syscall.Errno`'s `Is` method for an error that is not on the chain. The wrapping results (`Errors.WrapKeepsIdentity`, `BillyFile.ForwardedErrorsStayIdentifiable`) are unaffected: the `%w` wrapper (`*fmt.wrapError`) has no `Is` method and a single `Unwrap`, so `errors.Is` on it is a match on the wrapper itself or `errors.Is` on the inner error, which is the step the model takes.
- The exact text of wrapped error messages is not modelled. An annotation is kept as its operation, file name and numeric arguments, not as a formatted string.
- `BillyFile.Lock`: requires the mutex to be free. On a held mutex the Go call blocks until another goroutine unlocks it, which a single-threaded model cannot express.
- `BillyFile.Unlock`: requires the mutex to be held. In Go, unlocking a free mutex is a fatal runtime error.
- `BillyFs.Root`: requires a real adapter. On the empty adapter from a failed `Chroot`, the result depends on how `basefs.Prefix` treats a nil filesystem, and that function is not part of this model.
- `BillyFs.ReadDir`: requires a real adapter, because the Go method dereferences a nil filesystem on the empty adapter. The deferred `Close`'s own error is discarded by the code, and the model has no close failures to discard.
- `BillyFs.Chroot`, `BillyFs.TempFileWith`, `BillyFs.TempFile`: require a real adapter for the same nil-filesystem reason.
- The `Sfs` model of the wrapped filesystem does not update its node map when `Create` succeeds. No modelled property depends on the new file's node.
