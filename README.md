# pynvm MemoryBuffer, modelled in Dafny

pynvm's `nvm/pmem.py` wraps libpmem. The only logic it implements itself is
`MemoryBuffer`. This is a file-like cursor over a fixed-length mapped byte
region. Its `write`, `read` and `seek` are each guarded by a bounds check, and
`__len__` reports the region's size. Three scoped exits (`MemoryBuffer`,
`FlushContext`, `DrainContext`) decide which libpmem durability calls run when
a `with` block ends.

The project has two modules:

- `Region` (`region.dfy`) describes the cursor on values: the region's bytes
  and the cursor position. `Write`, `Read` and `Seek` are functions. Their
  contracts state the source's branches: the error each one raises, what a
  success returns, and what it leaves behind. The lemmas relate the
  operations to each other: the write/seek/read round trip, splitting writes
  and reads, and, for any sequence of calls, the invariant
  `0 <= pos <= size` with the size fixed.
- `Pmem` (`pmem.dfy`) is the class `MemoryBuffer`. It holds an `array<bv8>`,
  a fixed `size` and a cursor `pos`. Its `Write`, `Read` and `Seek` change
  the array and the cursor in place, and each is proved to agree with the
  `Region` function of the same name. The libpmem calls (`persist`, `msync`,
  `flush`, `drain`, `unmap`) append an event to a ghost trace on the buffer.
  `unmap` also sets a ghost `dead` flag. The three exit policies are
  functions from "is an exception in flight" and the native answers to the
  events they emit. Each `Exit` method is proved to emit exactly those events.
  `Pmem.Drain`, and with it `DrainContext.Exit`, emits a drain event, which
  is what the drain wrapper is documented to do. nvm/pmem.py:236 calls
  `pmem_flush` instead. The code as written is modelled separately, in
  `Pmem.DrainContextExitAsWritten` (see the Findings row).

Exceptions are values: `Result` is `Ok(value)` or `Err(error)`, with one
`Error` constructor per kind of exception the modelled code raises. Python's `__exit__` returns
`False` on every path that does not raise. This is `Ok(false)`: an exception
in flight is never swallowed.

The native answers are parameters (`Native`):

- whether `pmem_is_pmem` calls the range persistent memory;
- the return codes of `pmem_msync` and `pmem_unmap`;
- the errno a failing call leaves.

A non-zero `msync` return raises inside `__exit__`, so `unmap` is then not
called. The model keeps that branch.

Three behaviours of the code are easy to miss:

- `read` reads to the end for every count `<= 0`, not only for the default
  count 0 (nvm/pmem.py:50).
- `seek` raises two different errors: `NegativePosition` below 0 and
  `OutOfRange` past the end (nvm/pmem.py:68-71).
- The round trip `write(d); seek(p); read(len(d))` returns `d` only when `d`
  is non-empty. An empty write returns at once (nvm/pmem.py:33-34), and
  `read(0)` means "read to the end", so the read then returns the rest of the
  region (`Region.EmptyRoundTripReadsToEnd`).

## Model

| member | source | states |
|---|---|---|
| Region.Write | nvm/pmem.py:28-42 | Empty data succeeds and changes nothing. Data that does not fit between cursor and end fails with OutOfRange and leaves the state as it was. Otherwise the data sits at [pos, pos+len), every other byte is unchanged, the cursor advances by len, the size is unchanged and the cursor stays in range. |
| Region.Read | nvm/pmem.py:44-61 | The bytes never change. For count <= 0 it fails with EndOfFile exactly when the cursor is at the end; otherwise it returns the non-empty rest of the region and moves the cursor to the end. For count > 0 it fails with OutOfRange exactly when pos+count > size; otherwise it returns exactly count bytes starting at the cursor and advances it by count. Every failure leaves the state unchanged. |
| Region.Seek | nvm/pmem.py:63-72 | Succeeds exactly when 0 <= p <= size and then sets the cursor to p. It fails with NegativePosition for p < 0 and with OutOfRange for p > size, leaving the state unchanged. The bytes never change. |
| Region.WriteSeekReadRoundTrip | tests/test_pmem.py:50-57 | For non-empty d that fits, writing d, seeking back to the start of the write and reading len(d) bytes returns d, and the cursor ends where the write left it. |
| Region.EmptyRoundTripReadsToEnd | nvm/pmem.py:33-55 | After an empty write and a seek back, read(0) returns the rest of the region, or EndOfFile at the end, rather than the empty data. |
| Region.WritesConcatenate | nvm/pmem.py:36-42 | Two consecutive writes that fit give the same result and state as one write of their concatenation. |
| Region.ReadsConcatenate | nvm/pmem.py:56-61 | Two consecutive positive-count reads return, joined, what one read of the summed count returns, and leave the same state. |
| Region.ReadToEndThenEndOfFile | nvm/pmem.py:50-55 | In every state, a read to the end (the default count) is followed by EndOfFile on the next read to the end. |
| Region.RunKeepsInvariant | nvm/pmem.py:17-72 | After any sequence of write/read/seek calls, failed ones included, 0 <= pos <= size still holds and the size is the one construction fixed. |
| Region.RunWithoutWritesKeepsBytes | nvm/pmem.py:44-72 | Any sequence of reads and seeks leaves the region's bytes unchanged. |
| Region.WrittenDataSurvivesReadsAndSeeks | nvm/pmem.py:28-72 | After a non-empty write, any reads and seeks, then a seek back to the start of the write, the seek succeeds and reading len(d) bytes returns the written data. |
| Pmem.MemoryBuffer.constructor | nvm/pmem.py:17-20 | The buffer is the given array, size equals its length, the cursor is 0, and the mapping is live with an empty trace. |
| Pmem.MemoryBuffer.Len | nvm/pmem.py:22-23 | __len__ is the length of the underlying buffer. |
| Pmem.MemoryBuffer.Write | nvm/pmem.py:28-42 | The in-place slice assignment gives the result and the new (bytes, cursor) that Region.Write gives, and keeps 0 <= pos <= size. |
| Pmem.MemoryBuffer.Read | nvm/pmem.py:44-61 | Gives the result and new cursor that Region.Read gives, with the count defaulting to 0 (read to the end). It modifies only the cursor. |
| Pmem.MemoryBuffer.Seek | nvm/pmem.py:63-72 | Gives the result and new cursor that Region.Seek gives. It modifies only the cursor. |
| Pmem.MemoryBuffer.Enter | nvm/pmem.py:74-75 | The with-block receives the buffer itself. |
| Pmem.MemoryBuffer.Exit | nvm/pmem.py:77-84 | Appends exactly the events of BufferExit to the trace, returns or raises its outcome, and releases the mapping exactly when BufferExit says. |
| Pmem.BufferExit | nvm/pmem.py:77-84 | With an exception in flight there are no events and the result is False. Otherwise the events are exactly one persist (when the range is pmem) or one msync (when it is not), followed by exactly one unmap unless msync failed. Flush and drain are never emitted. The result is never True. A normal exit raises the native error exactly when the mapping was not released. |
| Pmem.FlushContextExit | nvm/pmem.py:100-105 | With an exception in flight there are no events and the result is False. Otherwise the events are exactly one flush, followed by exactly one unmap when the unmap flag is set. It raises exactly when unmap was called and failed. |
| Pmem.DrainContextExit | nvm/pmem.py:121-126 | As FlushContextExit, with drain in place of flush (the intended drain, see Findings). |
| Pmem.DrainContextExitAsWritten | nvm/pmem.py:230-236 | On a normal exit its first event is a flush, since the drain wrapper calls pmem_flush. |
| Pmem.DrainContextAsWrittenNeverDrains | nvm/pmem.py:230-236 | As written, leaving a DrainContext is identical to leaving a FlushContext and never emits a drain. On a normal exit it differs from the intended policy. |
| Pmem.Persist | nvm/pmem.py:198-204 | Appends one persist event; it cannot fail. |
| Pmem.Msync | nvm/pmem.py:207-218 | Appends one msync event. It raises OsError(errno) exactly when the native return is non-zero, and otherwise returns 0. |
| Pmem.Flush | nvm/pmem.py:221-227 | Appends one flush event; it cannot fail. |
| Pmem.Drain | nvm/pmem.py:230-236 | Corrected drain: appends one drain event; it cannot fail. |
| Pmem.Unmap | nvm/pmem.py:174-185 | Appends one unmap event. It marks the buffer dead exactly when the native return is 0. It raises OsError(errno) exactly when the return is non-zero, and otherwise returns 0. |
| Pmem.FlushContext.constructor | nvm/pmem.py:93-95 | Stores the buffer and the unmap flag, which defaults to true. |
| Pmem.FlushContext.Enter | nvm/pmem.py:97-98 | The with-block receives the wrapped buffer. |
| Pmem.FlushContext.Exit | nvm/pmem.py:100-105 | Appends exactly the events of FlushContextExit to the buffer's trace, returns or raises its outcome, and releases the mapping exactly when it says. |
| Pmem.DrainContext.constructor | nvm/pmem.py:114-116 | Stores the buffer and the unmap flag, which defaults to true. |
| Pmem.DrainContext.Enter | nvm/pmem.py:118-119 | The with-block receives the wrapped buffer. |
| Pmem.DrainContext.Exit | nvm/pmem.py:121-126 | Appends exactly the events of DrainContextExit to the buffer's trace, returns or raises its outcome, and releases the mapping exactly when it says. |
| Pmem.WriteSeekRead | tests/test_pmem.py:50-57 | On the class, starting at cursor 0 with non-empty data that fits: write, seek(0), read(len) returns the data and leaves the cursor at len. |

## Left out

- `map` (nvm/pmem.py:155-171) is not modelled. It is a native `pmem_map` call plus errno translation. The constructor takes the mapped buffer as given.
- `is_pmem`, `check_version` and `has_hw_drain` (nvm/pmem.py:129-152, 188-195) are foreign queries. The answer of `is_pmem` is an input (`Native.isPmem`). The other two are not used by the buffer.
- `_cdata` (nvm/pmem.py:25-26) is a CFFI pointer conversion with no behaviour of its own.
- The libpmem wrappers are modelled only as trace events. Cache lines, store buffers and crash consistency are hardware and OS behaviour that the code does not describe.
- Python's duck typing is not modelled: the data are byte sequences (`seq<bv8>`), and positions and counts are integers.
- `exc_val` and `exc_tb` of `__exit__` are not modelled, only whether an exception is in flight.
- One `errno` is shared by the failing `msync` and `unmap`. Only one of them can raise in a single exit.
- Pmem.MemoryBuffer.Write: requires a live mapping on every path, including the empty write and the failed bounds check, which do not touch memory. After `unmap` the source's slice access is undefined behaviour, and the model does not tell these paths apart.
- Pmem.MemoryBuffer.Read: requires a live mapping on every path, including the failing ones, for the same reason.
- Several owners of one mapping, double unmap and concurrency are not modelled. The native wrappers require a live mapping.
- `nvm/pmemlog.py`, `nvm/pmemblk.py`: every method forwards to libpmemlog or libpmemblk, whose behaviour is not in the code. `nvm/libex.py` holds only CFFI declarations. `setup.py` is packaging.
- The file-creation helpers that tests/test_pmem.py calls (`map_file`, `FILE_CREATE`, `FILE_EXCL`) are not part of this model. They are not in nvm/pmem.py.

## Findings

| source | as written | input that shows it | evidently intended | confidence | as-written member | corrected member |
|---|---|---|---|---|---|---|
| nvm/pmem.py:230-236 | `drain` calls `pmem_flush` over the region, exactly as `flush` does | any normal exit of a `DrainContext`: its events equal those of a `FlushContext` with the same flag, and contain no drain (`Pmem.DrainContextAsWrittenNeverDrains`) | `drain` calls `pmem_drain`, which waits for flushed stores to reach persistence | not executed; high | Pmem.DrainContextExitAsWritten | Pmem.DrainContextExit |
