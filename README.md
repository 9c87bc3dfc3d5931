# DYAD synchronisation wrapper, modelled in Dafny

DYAD is a preloaded library. It interposes on `open`, `fopen`, `close` and
`fclose` so that producer and consumer jobs can share files without
coordinating by hand.

- **Producer side.** When a producer closes a write-only file under its
  managed prefix, the wrapper flushes the file. It flushes the containing
  directory too, when built with `DYAD_SYNC_DIR`. Then it publishes into the
  Flux key-value store a record saying which rank owns the file.
- **Consumer side.** When a consumer opens a file for reading under its
  managed prefix, the wrapper looks up the owner of the file. If the owner is
  another rank and storage is not shared, it fetches the bytes by RPC and
  writes them under the consumer prefix. Only then does it perform the real
  open.

The registry key of a path comes from `gen_path_key`. It writes `depth`
hexadecimal bucket numbers, each followed by `.`, and then the path itself.
The bucket at level `d` is the XOR-fold of a 128-bit MurmurHash3 of the path,
seeded with 57 plus a running sum over a table of ten primes, modulo `width`.

The project has five modules:

- `DyadRc` (`dyad_rc.dfy`): the return-code enum of `dyad_rc.h` and its two
  error macros.
- `PathKeys` (`path_key.dfy`):
  - the key as a pure function: the seeds, the buckets, the lowercase `%x`
    rendering and the decoding of a key;
  - `snprintf` into a bounded character array;
  - the imperative `gen_path_key`, proved to leave the buffer holding the
    NUL-terminated key, cut to `len - 1` characters, and to succeed exactly
    when the whole key fits.
- `WrapperSpec` (`wrapper_spec.dfy`): what every wrapper operation does, as
  functions of three things:
  - the context record;
  - the environment;
  - a `World` of fixed answers from libc, the loader and Flux.

  An operation is described by the value it returns and by the sequence of
  outside calls (`Event`s) it makes, in order. A call is recorded when it is
  made, whether it succeeds or fails. The properties of the
  protocol are lemmas about these functions: short-circuits, the gates,
  ordering on close, and the injectivity of keys.
- `Wrapper` (`wrapper.dfy`): the code as it runs.
  - `SyncContext` is a class whose fields are those of `dyad_sync_ctx_t`.
  - `Host` holds the trace of outside calls and the environment.
  - Each C function is a method that updates them. It is proved to return,
    record and leave exactly what its `WrapperSpec` function says.
- `Options`: the `Option` type.

Two source quirks are modelled as written.

- The `open` gate at `src/wrapper/wrapper.c:614` tests the mode extracted
  from the variadic argument, not the access mode of `oflag`. A write-only
  open without `O_CREAT` therefore runs the consumer protocol
  (`OpenGateTestsMode`).
- The directory test at `src/wrapper/wrapper.c:299` compares only the first
  character of the directory with `"."`. Every directory whose name starts
  with a dot skips `mkdir_as_needed` (`SkipsMkdir`, `MkdirTestsFirstCharOnly`).

The result code of `gen_path_key` is not looked at by its two callers, so an
over-long key is used cut at `PATH_MAX - 1` characters (`Topic`,
`ComputeTopic`). `TopicIdentifiesPath` shows that keys which fit still
identify their path.

Two more facts about the source shape the model.

- When `dlsym` cannot find the next definition, `open`, `fopen`, `close` and
  `fclose` return `-1`, `NULL`, `-1` and `EOF` at once, without any real call
  (`src/wrapper/wrapper.c:608-612`, `642-646`, `679-683`, `754-758`).
- `DYAD_KEY_BINS` is stored as `atoi` gives it (`src/wrapper/wrapper.c:527-528`),
  so the key width can be 0. The modulo of `src/wrapper/wrapper.c:148` is then
  undefined, but only a call that derives a key reaches it: the gate is open,
  the prefix contains the path, and the key depth is above 0. Every other call
  on such a context is modelled, and `UndefinedOnlyAtZeroModulo` states which
  calls are excluded.

## Model

| member | source | states |
|---|---|---|
| DyadRc.Code | src/dtl/dyad_rc.h:20-44 | every code lies in -19..0, and only `DYAD_RC_OK` has code 0 |
| DyadRc.FromCode | src/dtl/dyad_rc.h:20-44 | an integer names a code exactly when it lies in -19..0, and the code it names has that value |
| DyadRc.CodeRoundTrip | src/dtl/dyad_rc.h:20-44 | reading back a code's value gives the same enumerator |
| DyadRc.CodesDistinct | src/dtl/dyad_rc.h:20-44 | two enumerators with the same value are the same enumerator |
| DyadRc.CodesCoverRange | src/dtl/dyad_rc.h:20-44 | some enumerator has value c exactly when -19 <= c <= 0 |
| DyadRc.OnlyOkIsNotError | src/dtl/dyad_rc.h:20-48 | `DYAD_IS_ERROR` is false for `DYAD_RC_OK` alone and true for every other code |
| DyadRc.ErrorTestsAgree | src/dtl/dyad_rc.h:48-50 | `DYAD_IS_ERROR` and `FLUX_IS_ERROR` agree on every integer, and both mean "negative" |
| PathKeys.SeedStep | src/wrapper/wrapper.c:144-146 | each level adds `seeds[d % 10]` to the seed, modulo 2^32 |
| PathKeys.SeedIsWrappedSum | src/wrapper/wrapper.c:130-146 | the seed at level k is 57 plus the sum of the first k table entries, wrapped to 32 bits |
| PathKeys.SeedSumBound | src/wrapper/wrapper.c:130-132 | that sum is at most 104729 per level |
| PathKeys.SeedWithoutWrap | src/wrapper/wrapper.c:134-146 | up to 41000 levels the seed never wraps and equals 57 plus the plain sum |
| PathKeys.BinAt | src/wrapper/wrapper.c:147-148 | the bucket at a level is below `width` |
| PathKeys.Bins | src/wrapper/wrapper.c:144-148 | there is one bucket per level, each below `width`; with no level the width is not used |
| PathKeys.HexWellFormed | src/wrapper/wrapper.c:149 | `%x` gives at least one lowercase hex digit, never a `.`, and no leading zero unless the value is 0 |
| PathKeys.HexRoundTrip | src/wrapper/wrapper.c:149 | parsing the `%x` text gives back the value |
| PathKeys.HexLength | src/wrapper/wrapper.c:149 | a value below 16^k takes at most k digits |
| PathKeys.HexOfUint32 | src/wrapper/wrapper.c:148-149 | a 32-bit bucket takes 1 to 8 digits |
| PathKeys.RenderAppend | src/wrapper/wrapper.c:144-154 | the rendering of two lists of buckets is the concatenation of their renderings |
| PathKeys.RenderStep | src/wrapper/wrapper.c:149-150 | one more level appends exactly one `hex.` segment |
| PathKeys.RenderSplit | src/wrapper/wrapper.c:144-154 | the rendering splits at any level into prefix and suffix |
| PathKeys.RenderHasNoNul | src/wrapper/wrapper.c:149 | the segments contain no NUL, so the C string read back is the whole key |
| PathKeys.RenderLength | src/wrapper/wrapper.c:144-154 | depth levels of 32-bit buckets take between 2·depth and 9·depth characters |
| PathKeys.PathKeyLength | src/wrapper/wrapper.c:144-155 | the key is between 2·depth and 9·depth characters longer than the path |
| PathKeys.DotIndex | src/wrapper/wrapper.c:149 | finds the first `.` of a string, or reports that there is none |
| PathKeys.DotAfterHex | src/wrapper/wrapper.c:149 | the first `.` after a segment's digits is the segment's own terminator |
| PathKeys.ParseSegment | src/wrapper/wrapper.c:149 | decoding a key one level deeper strips exactly one segment |
| PathKeys.RenderParses | src/wrapper/wrapper.c:144-155 | decoding the rendering of any bucket list, followed by any text, gives back the list and the text |
| PathKeys.PathKeyDecodes | src/wrapper/wrapper.c:144-155 | decoding a key at its depth gives back its buckets and the path |
| PathKeys.PathKeyInjective | src/wrapper/wrapper.c:144-155 | equal keys at one depth and width come from equal paths with equal buckets, whatever the hash |
| PathKeys.SpliceTerminated | src/wrapper/wrapper.c:149-150 | writing text plus NUL at the cursor of a terminated buffer extends the terminated text |
| PathKeys.SnPrintf | src/wrapper/wrapper.c:149 | `snprintf` returns the full length, writes nothing when the size is 0, and otherwise writes the first size - 1 characters followed by a NUL |
| PathKeys.GenPathKey | src/wrapper/wrapper.c:127-160 | returns -1 for a NULL or empty buffer, leaving an empty buffer untouched; a zero width is accepted when the depth is 0. Otherwise the buffer holds the key cut to `len - 1` characters and NUL-terminated, the rest of it unchanged, and the result is 0 exactly when the whole key fits |
| PathKeys.WriteLevels | src/wrapper/wrapper.c:144-154 | the loop either writes every segment, leaving them NUL-terminated with the cursor at their end, or stops at the first overflow, leaving the key cut to `len - 1` characters, in which case the whole key does not fit |
| PathKeys.WriteLevel | src/wrapper/wrapper.c:146-153 | one iteration advances the seed to the next level's and moves the cursor by that level's segment, or reports the overflow with the buffer holding the cut key |
| PathKeys.LevelBin | src/wrapper/wrapper.c:146-148 | the seed and bucket the loop computes at level d are those of the key's specification |
| PathKeys.AfterLevel | src/wrapper/wrapper.c:149-153 | after a level the cursor moves by the segment length; a segment that does not fit leaves the key cut at `len - 1` |
| PathKeys.AfterPath | src/wrapper/wrapper.c:155-158 | the final `%s` leaves the full key or its cut, NUL-terminated |
| PathKeys.KeyCut | src/wrapper/wrapper.c:150-153 | an overflow at a level is also an overflow of the whole key, with the same written prefix |
| WrapperSpec.IsWronly | src/wrapper/wrapper.c:101-109 | -1 exactly when `fcntl` fails; 1 exactly when the access-mode bits equal `O_WRONLY` |
| WrapperSpec.WronlyExcludesReading | src/wrapper/wrapper.c:101-109 | status bits do not change the answer, and a write-only descriptor is neither read-only nor read-write |
| WrapperSpec.KeySetting | src/wrapper/wrapper.c:522-530 | an unset key parameter takes its default; a set one in range takes the value `atoi` gives |
| WrapperSpec.InitialRecordProperties | src/wrapper/wrapper.c:502-547 | a new context is initialised and reentrant, has depth 3 and 1024 bins unless set, has a handle exactly when `flux_open` succeeds, and keeps the default rank without one |
| WrapperSpec.MkdirTestsFirstCharOnly | src/wrapper/wrapper.c:297-301 | `strncmp (odir, ".", strlen ("."))` is 0 exactly when the directory name starts with a dot, so creation is skipped for ".", "..", ".cache/out" and every other such name, but not for "/tmp/out" or "" |
| WrapperSpec.SubscribeWithoutHandle | src/wrapper/wrapper.c:231-235 | without a Flux handle the consumer returns -1 and calls nothing |
| WrapperSpec.SubscribeShortCircuit | src/wrapper/wrapper.c:242-266 | with shared storage or the local rank as owner, the consumer returns 0 after the lookup alone |
| WrapperSpec.SubscribeOutcome | src/wrapper/wrapper.c:214-330 | the consumer returns 0 or -1. It returns 0 exactly when the owner is found and either no transfer is needed or every step of the transfer succeeds. Its first call is the lookup of the path's key |
| WrapperSpec.SubscribeFetchesOnlyRemote | src/wrapper/wrapper.c:262-315 | a fetch targets only the remote owner the registry named, without shared storage, for the user path; the bytes written are the fetched ones, into the path under the consumer prefix; the consumer never commits |
| WrapperSpec.PublishOutcome | src/wrapper/wrapper.c:355-404 | the producer commits at most one record, mapping the path's key to this rank, and returns 0 exactly when the handle exists and the transaction is created, packed and committed |
| WrapperSpec.TopicIdentifiesPath | src/wrapper/wrapper.c:226-232 | two user paths whose keys fit in the topic buffer and coincide are equal |
| WrapperSpec.OpenSyncGate | src/wrapper/wrapper.c:428-450 | outside the consumer prefix, `open_sync` returns 0 and makes no call but the "ok" marker, so there is no lookup and no fetch. Inside it, it returns the consumer protocol's code and makes exactly the protocol's calls, then the marker on success with the check flag on. It records "ok" exactly on success with the check flag on, and nothing else in the environment changes |
| WrapperSpec.CloseSyncGate | src/wrapper/wrapper.c:452-475 | outside the producer prefix, `close_sync` returns 0 and makes no call but the "ok" marker, so there is no commit. Inside it, it returns the producer protocol's code and makes exactly the protocol's calls, then the marker on success with the check flag on. It records "ok" exactly on success with the check flag on, and nothing else in the environment changes |
| WrapperSpec.PathCopy | src/wrapper/wrapper.c:896 | the copy is a prefix of the path of at most `PATH_MAX` characters, and is the whole path when that fits |
| WrapperSpec.DirSyncShape | src/wrapper/wrapper.c:887-918 | the directory barrier returns 0 or -1 and never publishes. On success it opened, flushed and closed the directory, in that order |
| WrapperSpec.UndefinedOnlyAtZeroModulo | src/wrapper/wrapper.c:148 | `open`, `fopen`, `close` and `fclose` reach the modulo by zero only on an armed context with a zero width and a non-zero depth, and only when the gate is open and the prefix contains the path; every other call, on any context, is covered by the model |
| WrapperSpec.OpenFallsThrough | src/wrapper/wrapper.c:593-634 | `open` always ends in the real open with the path, the flags and the extracted mode, and returns its result. The consumer protocol runs before it only when the gate holds; otherwise `open` is the real open alone. It never publishes |
| WrapperSpec.OpenGateTestsMode | src/wrapper/wrapper.c:599-620 | without `O_CREAT` the gate ignores the access mode, so even `O_WRONLY` synchronises; with `O_CREAT` and a non-zero mode even a read-only open does not |
| WrapperSpec.FopenFallsThrough | src/wrapper/wrapper.c:636-668 | `fopen` always ends in the real fopen with its arguments and returns its result. The consumer protocol runs before it only for mode `"r"` on an armed context and a path that is not a directory |
| WrapperSpec.NoCommitInSubscription | src/wrapper/wrapper.c:214-330 | the consumer protocol makes no registry commit |
| WrapperSpec.CloseOrdering | src/wrapper/wrapper.c:670-742 | `close` returns the real close's result. Its calls begin with exactly fsync, the directory barrier and the real close. After them come exactly `close_sync`'s calls, with its environment, when `to_sync` holds and the descriptor is write-only; otherwise nothing follows and the environment is unchanged. Any commit comes after all of those first calls. Unarmed, `close` is fsync and then the real close |
| WrapperSpec.FcloseOrdering | src/wrapper/wrapper.c:744-819 | `fclose` returns the real fclose's result. Its calls begin with exactly fflush, fsync, the directory barrier and the real fclose. After them come exactly `close_sync`'s calls, with its environment, when `to_sync` holds and the descriptor is write-only; otherwise nothing follows and the environment is unchanged |
| WrapperSpec.CloseTail | src/wrapper/wrapper.c:717-741 | after the real close the result is unchanged. `close_sync`'s calls and environment are appended exactly when there is a target and the descriptor is write-only; otherwise the calls and the environment stay as they were. Every commit follows every earlier call |
| Wrapper.ReadCString | src/wrapper/wrapper.c:232 | reads the characters before the first NUL of the topic buffer |
| Wrapper.ComputeTopic | src/wrapper/wrapper.c:226-232 | the zeroed topic buffer, filled by `gen_path_key` with `len` = `PATH_MAX`, reads back as the key cut to `PATH_MAX - 1` characters |
| Wrapper.WriteFetched | src/wrapper/wrapper.c:290-316 | the directory step and the file write make exactly the calls, and return the code, that `Store` describes |
| Wrapper.WriteFile | src/wrapper/wrapper.c:305-317 | `fopen_real`, `fwrite` and `fclose_real` make exactly the calls, and return the code, that `Written` describes |
| Wrapper.SyncContext.constructor | src/wrapper/wrapper.c:499-502 | the new context holds the default record |
| Wrapper.SyncContext.Assign | src/wrapper/wrapper.c:492 | the context afterwards holds the record assigned to it |
| Wrapper.SyncContext.ReadSettings | src/wrapper/wrapper.c:504-537 | sets the flags, key depth, key bins and namespace from the environment and raises the guard; no other field changes |
| Wrapper.SyncContext.ConnectFlux | src/wrapper/wrapper.c:539-547 | records whether `flux_open` gave a handle, takes the rank when it did, and marks the context initialised |
| Wrapper.SyncContext.SubscribeViaFlux | src/wrapper/wrapper.c:214-330 | returns the code and makes the calls `Subscription` describes; the environment is unchanged |
| Wrapper.SyncContext.PublishViaFlux | src/wrapper/wrapper.c:355-404 | returns the code and makes the calls `Publication` describes; the environment is unchanged |
| Wrapper.SyncContext.DyadOpenSync | src/wrapper/wrapper.c:406-415 | runs the consumer protocol with the guard lowered and returns its code unchanged; afterwards the guard is raised and no other field has changed |
| Wrapper.SyncContext.DyadCloseSync | src/wrapper/wrapper.c:417-426 | runs the producer protocol with the guard lowered and returns its code unchanged; afterwards the guard is raised and no other field has changed |
| Wrapper.SyncContext.OpenSync | src/wrapper/wrapper.c:428-450 | returns what `OpenSyncSpec` gives, with its calls and environment; the context is untouched unless the protocol ran. A zero width is accepted when no key is derived |
| Wrapper.SyncContext.CloseSync | src/wrapper/wrapper.c:452-475 | returns what `CloseSyncSpec` gives, with its calls and environment; the context is untouched unless the protocol ran. A zero width is accepted when no key is derived |
| Wrapper.SyncContext.SyncDirectory | src/wrapper/wrapper.c:887-918 | returns the code of `DirSync` and makes its calls; the guard is back to its saved value on every path and the context is unchanged |
| Wrapper.SyncContext.FlushDirectory | src/wrapper/wrapper.c:902-914 | the real open, fsync and close of the directory run only with the guard down, make the calls of `DirSync` and return its code, and leave the context alone |
| Wrapper.SyncInit | src/wrapper/wrapper.c:484-576 | an initialised context is kept; a stale one is reset to the defaults; without one, a fresh context is built as `InitialRecord` says |
| Wrapper.NewContext | src/wrapper/wrapper.c:499-547 | the allocated context equals `InitialRecord` of the environment and Flux |
| Wrapper.Open | src/wrapper/wrapper.c:593-634 | returns what `OpenSpec` gives, with its calls and environment; the context is as before |
| Wrapper.Fopen | src/wrapper/wrapper.c:636-668 | returns what `FopenSpec` gives, with its calls and environment; the context is as before |
| Wrapper.Barrier | src/wrapper/wrapper.c:716-719 | makes the calls of `DirBarrier` and leaves the context as it was |
| Wrapper.FlushAndClose | src/wrapper/wrapper.c:712-738 | fsync, the directory barrier and the real close make exactly those calls in that order, and the real close's result is returned; the context and environment are unchanged |
| Wrapper.FlushAndFclose | src/wrapper/wrapper.c:787-815 | fflush, fsync, the directory barrier and the real fclose make exactly those calls in that order, and the real fclose's result is returned; the context and environment are unchanged |
| Wrapper.SyncAfterClose | src/wrapper/wrapper.c:722-738 | appends the calls of `AfterClose`: `close_sync` runs only for a write-only target; the context is as before |
| Wrapper.Close | src/wrapper/wrapper.c:670-742 | returns what `CloseSpec` gives, with its calls and environment; the context is as before |
| Wrapper.Fclose | src/wrapper/wrapper.c:744-819 | returns what `FcloseSpec` gives, with its calls and environment; the context is as before |

## Left out

- MurmurHash3_x64_128 is not modelled. Every key property is proved for any
  function from (path, seed) to four 32-bit words, passed as a parameter.
- Flux is not modelled:
  - `flux_open`, `flux_get_rank`, the KVS lookup, transactions and commit,
    and the `dyad.fetch` RPC are fixed answers in `World`, recorded as
    events;
  - the registry's contents are not modelled, so the round trip of publish
    followed by lookup cannot be stated;
  - the wait for the commit's future is not modelled, because its result is
    ignored by the source.
- `dlsym` is a single answer, `World.symOk`: the wrapper's own lookup and
  the lookups of `open_real`, `close_real`, `fopen_real` and `fclose_real`
  succeed or fail together. A process where only some of the next
  definitions can be found is not modelled.
- These libc and loader helpers are fixed answers in `World`, and their
  effect on the file system is not tracked between calls: `dlsym`,
  `is_path_dir`, `is_fd_dir`, `get_path`, `fcntl`, `fileno`,
  `cmp_canonical_path_prefix`, `concat_str`, `dirname`, `mkdir_as_needed`,
  `fsync`, `fwrite`, and the real `open`, `fopen`, `close` and `fclose`.
- Logging (`DPRINTF`, `IPRINTF`, `FLUX_LOG_*`), the `DYAD_SYNC_START` barrier
  and timestamps, and the `DYAD_PERFFLOW` variants are not modelled. They are
  output, timing, or a repetition of the same control flow.
- Thread-local storage and the constructor/destructor hooks are not
  modelled. One context object is passed explicitly.
- `dyad_sync_fini` is not modelled. It only frees the context, and
  deallocation has no counterpart in Dafny; the pointer it leaves dangling is
  therefore not modelled.
- `dyad_sync_ctx_t_default` is not part of this model. It is a parameter
  record.
- The `malloc` failure and `exit (1)` in `dyad_sync_init` are not modelled.
- `enable_debug_dyad_utils` is not modelled.
- `fopen` with a NULL path and `fclose` with a NULL stream are not modelled;
  paths and streams are non-NULL in the model. For mode `"r"`, `fopen` passes
  the path to `is_path_dir` before its own NULL test
  (`src/wrapper/wrapper.c:648-653`). `fclose` tests `fp == NULL` first, but
  that test leads to `fflush (NULL)`, `fileno (NULL)` and the real fclose
  (`src/wrapper/wrapper.c:760`, `788-789`).
- `is_dyad_producer` and `is_dyad_consumer` (`src/wrapper/wrapper.c:111-125`)
  are not modelled: they are `static inline` helpers that nothing in
  `wrapper.c` calls, so no behaviour of the wrapper depends on them.
- PathKeys.SnPrintf: does not model a negative return of `snprintf` (an
  encoding error). `%x.` and `%s` of a C string always produce text.
- PathKeys.GenPathKey: requires a non-zero `width` when a buffer is given and
  the depth is above 0, because the C `%` by zero is undefined behaviour. It
  also requires a path without NUL, as `strlen` and `%s` see only C strings.
- Wrapper.Open, Wrapper.Fopen, Wrapper.Close and Wrapper.Fclose: require
  `OpenDefined`, `FopenDefined`, `CloseDefined` and `FcloseDefined`. These
  exclude only a call that derives a key with a zero width and a non-zero
  depth, where the C is undefined; the undefined division is not modelled as
  an outcome. The same exclusion appears in the requirements of `OpenSpec`,
  `FopenSpec`, `CloseSpec`, `FcloseSpec`, `OpenSync`, `CloseSync` and
  `SyncAfterClose`, and of the lemmas about them.
- PathKeys.GenPathKey: the `size_t` cursor is an unbounded integer. It
  cannot wrap for keys that fit in memory.
- Wrapper.SyncContext.SubscribeViaFlux: the fetched byte count is the length
  of the byte sequence. The conversion of `file_len` through `size_t` is not
  modelled.
