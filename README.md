# node-mappedbuffer: buffer lifecycle and request dispatch, in Dafny

This project models the core of the `MappedBuffer` native addon, a Node.js object that wraps one `mmap`ed region as a byte buffer. The model covers four things:

- the object's state: the mapped address `map_`, `length_`, the `released_` flag, and the pin count that queued requests hold;
- how the script-facing `new MappedBuffer(...)`, `unmap`, `fill` and `sync` read their arguments and choose between running synchronously and queueing a request;
- the life of a queued request: submission, then the work step on a worker thread, then completion on the main thread;
- the error-code table with `mb_strerror`.

Modules, one per concern:

- `Results` (results.dfy): Option and a Result whose error is a thrown message.
- `Errors` (errors.dfy): the `mb_err_code` values -1..3 and `mb_strerror`.
- `Arguments` (arguments.dfy): argument values, the C conversions (`int32_t`, `size_t`, `(char)`), and one classification function per entry point. Each function returns a call description or the message that is thrown.
- `Region` (region.dfy): the buffer's state as a value, one function per transition the source performs, and lemmas over whole runs of transitions.
- `Buffer` (buffer.dfy): the `MappedBuffer` class. Its fields are updated in place, and each method is specified by the `Region` transition it performs. `fill` is a loop over the mapped byte array.
- `Requests` (requests.dfy): the request record, written as a class. `Submit`, `Work` (`OnWork`) and `Done` (`OnWorkDone`) are its steps. Also here: the code the work step records and the callback's argument list.
- `Dispatch` (dispatch.dfy): the four entry points, built from the above.

Syscall results are parameters, so every outcome the OS could give is covered: the address `mmap` returns (a block, or `MAP_FAILED`) and the integer `munmap`/`msync` returns. The thread pool is modelled by running a request's three steps in order.

Behaviour of the source that the model keeps:

- A buffer is built over whatever `mmap` returned, `MAP_FAILED` included. This holds for the synchronous `new` and for the completion of an asynchronous map whose code is MMAP. In the second case the callback receives both an error and a buffer.
- An asynchronous `unmap` on a released buffer returns `true` and queues nothing, so its callback never runs.
- On a released buffer, the script-facing `unmap` returns `true` but the member `unmap()` returns `false`.
- A six-argument `new` is asynchronous whatever its sixth argument is. A callback placed after three arguments, or after six, is not recognised.
- `fill` checks neither its range nor the released flag. The model therefore requires the range to lie within a live mapping.
- A synchronous `sync` ignores what `msync` returns, on a released buffer too.

A caller might expect the following, but the code does not behave this way, and neither does the model:

- a failed map constructs no region;
- an asynchronous `unmap` of a released handle reports no error through its callback;
- `fill` fails with OutOfRange;
- `sync` on a released region fails;
- a call is asynchronous exactly when its last argument is callable.

## Model

| member | source | states |
|---|---|---|
| Errors.NameOf | src/mappedbuffer.cc:24-34 | a code names an enumeration member exactly when it lies in -1..3, and that member's value is the code |
| Errors.NameRoundTrip | src/mappedbuffer.cc:24-34 | every member of the enumeration survives the trip to its integer value and back |
| Errors.StrError | src/mappedbuffer.cc:84-90 | `mb_strerror` gives the fallback "Unknown system error" exactly for codes outside -1..3, and the table's message for each member's code |
| Errors.StrErrorInjective | src/mappedbuffer.cc:24-29 | the five messages are distinct, so a message identifies its code |
| Arguments.ToInt32 | src/mappedbuffer.cc:151-153 | storing into an `int32_t` keeps the value modulo 2^32 and leaves in-range values unchanged |
| Arguments.ToSize | src/mappedbuffer.cc:150 | storing into a `size_t` keeps the value modulo 2^64 and leaves representable sizes unchanged |
| Arguments.CharCast | src/mappedbuffer.cc:270 | the `(char)` cast lands in -128..127, keeps the value modulo 256, and leaves char-range values unchanged |
| Arguments.FillByteIsLowByte | src/mappedbuffer.cc:270 | the byte `memset` finally writes equals the low eight bits of the script's value, so the cast loses nothing that `memset` keeps |
| Arguments.ClassifyNew | src/mappedbuffer.cc:146-187 | three or fewer arguments throw "Bad argument"; otherwise async exactly for six arguments, or for five whose fifth is a function; size is the first argument stored into a `size_t`; protection, flags and fd are the next three stored into `int32_t`; the offset is the fifth argument for six arguments or five whose fifth is not a function, and 0 otherwise |
| Arguments.NewRoundTrip | src/mappedbuffer.cc:146-187 | every map call with a representable size is what its own argument list classifies to |
| Arguments.NewInt32Arguments | src/mappedbuffer.cc:146-187 | a call written with int32 numbers and a non-negative size maps exactly the size, protection, flags, fd and offset it names, sync with five numbers and async at offset 0 with a callback fifth |
| Arguments.NewCallbackPosition | src/mappedbuffer.cc:157-185 | a six-argument call is async even when its last argument is not a function; a callback after three or six arguments leaves the call sync; four arguments are sync |
| Arguments.UnmapMode | src/mappedbuffer.cc:212 | `unmap` is async exactly when it has one argument and that argument is a function |
| Arguments.UnmapCallbackPosition | src/mappedbuffer.cc:212 | a lone callback makes `unmap` async; no argument, a lone non-function, or two arguments leave it sync |
| Arguments.ClassifyFill | src/mappedbuffer.cc:263-281 | fewer than three arguments throw "Bad argument", a non-int32 value throws "Value is not a number", and nothing else throws; async exactly with four arguments whose fourth is a function; the value is cast to a char with the same low byte; start and end are the second and third arguments stored into `int32_t` |
| Arguments.FillRoundTrip | src/mappedbuffer.cc:263-281 | every fill whose value is a char is what its own argument list classifies to |
| Arguments.ClassifySync | src/mappedbuffer.cc:314-330 | fewer than two arguments throw "Bad argument", a non-int32 size throws "Value is not a number", and nothing else throws; async exactly with three arguments whose third is a function; size is the first argument and flags the second stored into `int32_t` |
| Arguments.SyncRoundTrip | src/mappedbuffer.cc:314-330 | every flush is what its own argument list classifies to |
| Region.ByteOf | src/mappedbuffer.cc:305 | `memset`'s conversion of its int argument keeps the value modulo 256 |
| Region.Constructed | src/mappedbuffer.cc:94-104 | a constructed region is live, unpinned, consistent, and holds the given mapping and length |
| Region.MemberUnmap | src/mappedbuffer.cc:115-129 | the member `unmap()` always leaves the region released; it returns true exactly when the region was live; returning false means nothing changed; returning true means the region is released with a NULL address and length 0, and its pins kept |
| Region.MemberUnmapIdempotent | src/mappedbuffer.cc:115-129 | a second member `unmap()` returns false and changes nothing |
| Region.ScriptUnmap | src/mappedbuffer.cc:237-255 | the sync script-facing `unmap` returns true and changes nothing on a released region; on a live one, `munmap` returning 0 releases it (NULL address, length 0) and returns true, -1 returns false with no change, and any other value throws |
| Region.UnmapsCompared | src/mappedbuffer.cc:115-129 | with `munmap` returning 0, the two unmaps reach the same state and result on a live region; on a released one the script-facing unmap returns true while the member one returns false |
| Region.Finalized | src/mappedbuffer.cc:106-113 | the destructor leaves every consistent region released, never touches address, length or pins, and does nothing to a released region |
| Region.RepeatAt | src/mappedbuffer.cc:305 | every position of the `n` bytes `memset` writes holds the fill byte |
| Region.MemsetAt | src/mappedbuffer.cc:305 | after `memset` over `[start, end)` every byte in the range is the fill byte and every other byte is unchanged |
| Region.Filled | src/mappedbuffer.cc:305 | a fill keeps the region's size, length, released flag and pins |
| Region.Pinned | src/mappedbuffer.cc:234 | `Ref()` adds one pin and changes nothing else |
| Region.Unpinned | src/mappedbuffer.cc:506 | `Unref()` removes one pin and changes nothing else |
| Region.UnmapCompleted | src/mappedbuffer.cc:459-469 | completing an async unmap leaves the region released exactly when it was already released or the code is OK; on OK the address becomes NULL and the length 0; on any other code nothing changes |
| Region.RunKeepsReleased | src/mappedbuffer.cc:95-127 | across any run of operations, a released region stays released: `released_` never returns to false |
| Region.RunKeepsConsistent | src/mappedbuffer.cc:94-129 | every run from a consistent state ends consistent, so a live region always has an address and a positive length |
| Region.RunPinBalance | src/mappedbuffer.cc:234-523 | across any run, the pin count changes by the number of refs minus the number of unrefs |
| Region.AsyncUnmapBalanced | src/mappedbuffer.cc:212-235 | an async unmap's pin, completion and unpin leave the pin count where it was, and release the buffer exactly when it was released or the code is OK |
| Buffer.MappedBuffer.constructor | src/mappedbuffer.cc:94-104 | the new object holds the given address and length, is live and unpinned |
| Buffer.MappedBuffer.Destroy | src/mappedbuffer.cc:106-113 | the destructor runs only with no pins and performs Region.Finalized, keeping the address |
| Buffer.MappedBuffer.Unmap | src/mappedbuffer.cc:115-129 | result and new state are those of Region.MemberUnmap |
| Buffer.MappedBuffer.ScriptUnmap | src/mappedbuffer.cc:237-255 | result and new state are those of Region.ScriptUnmap; a thrown error leaves the state unchanged |
| Buffer.MappedBuffer.Fill | src/mappedbuffer.cc:305 | the in-place write over `[start, end)` leaves the contents equal to `memset` of the old contents (Region.MemsetAt); no field changes |
| Buffer.MappedBuffer.Ref | src/mappedbuffer.cc:234 | the pin count goes up by one and nothing else changes |
| Buffer.MappedBuffer.Unref | src/mappedbuffer.cc:506 | the pin count goes down by one and nothing else changes |
| Buffer.MappedBuffer.CompleteUnmap | src/mappedbuffer.cc:463-468 | the new state is Region.UnmapCompleted of the old |
| Requests.FailureCode | src/mappedbuffer.cc:378-410 | a failed map reports MMAP ("Failed mmap"), a failed unmap MUNMAP ("Failed munmap"), a failed flush MSYNC ("Failed msync"); a fill has no failure code |
| Requests.WorkCode | src/mappedbuffer.cc:360-418 | the work step leaves OK exactly when the syscall succeeded, otherwise the kind's own failure code, which always has a message in the table |
| Requests.OnWorkAsWritten | src/mappedbuffer.cc:403-416 | the work step as written finishes for every kind except a flush |
| Requests.MsyncWorkAborts | src/mappedbuffer.cc:403-416 | every async flush reaches `assert(false)`, whatever `msync` returned |
| Requests.OnWorkAsWrittenAgrees | src/mappedbuffer.cc:367-402 | for map, unmap and fill, the work step as written records exactly WorkCode |
| Requests.ErrorSlot | src/mappedbuffer.cc:428-446 | the callback's first argument is null exactly when the code is OK; otherwise it is an error carrying the code and `mb_strerror`'s message |
| Requests.CallbackArgs | src/mappedbuffer.cc:428-458 | the callback gets one argument, or two for a map, the second being the new buffer |
| Requests.ErrorSlotAfterWork | src/mappedbuffer.cc:434-446 | after a work step, the first argument is null exactly when the syscall succeeded, and an error's message is never the fallback |
| Requests.Request.constructor | src/mappedbuffer.cc:159-169 | a submitted record starts with code OK and no address |
| Requests.Request.Work | src/mappedbuffer.cc:360-418 | the work step sets only the code (WorkCode) and, for a map, the address; for a fill it writes the range (Region.Filled); no field of the target buffer changes |
| Requests.Request.Done | src/mappedbuffer.cc:420-534 | completion runs once (Executed to Completed). It returns the callback arguments: an error slot and, for a map, a fresh buffer over the obtained address, even on MMAP. An unmap's target is released only on OK. Every target loses exactly one pin |
| Requests.Submit | src/mappedbuffer.cc:218-234 | a fresh record with code OK; its target, if any, gains exactly one pin and nothing else changes; a map request pins nothing |
| Requests.Lifecycle | src/mappedbuffer.cc:360-534 | an unmap, fill or flush run from submission to completion leaves the pin count unchanged. Its one callback argument is null exactly when the syscall succeeded. The buffer ends released exactly when it was already released or an unmap's `munmap` succeeded |
| Dispatch.New | src/mappedbuffer.cc:146-202 | a bad call throws; a sync call wraps whatever `mmap` returned in a fresh live buffer; an async call queues a map request carrying the classified size, protection, flags, fd and offset, and pins nothing |
| Dispatch.Unmap | src/mappedbuffer.cc:205-257 | an async call on a released buffer returns true and queues nothing; an async call otherwise queues an unmap and pins the buffer once; a sync call behaves as Region.ScriptUnmap |
| Dispatch.Fill | src/mappedbuffer.cc:259-308 | a bad call throws before anything changes; a sync call fills at once (Region.Filled); an async call queues a fill with the cast value and range, and pins once |
| Dispatch.Sync | src/mappedbuffer.cc:310-357 | a bad call throws before anything changes; a sync call changes nothing; an async call queues a flush with the classified size and flags, and pins once |

## Findings

| source | as written | input that shows it | evidently intended | confidence | as-written member | corrected member |
|---|---|---|---|---|---|---|
| src/mappedbuffer.cc:403-416 | the `MB_ASYNC_MSYNC` case of `OnWork` has no `break`, so after recording its code it falls into `default: assert(false)` | `buf.sync(4096, MappedBuffer.MS_ASYNC, function (err) {})` on a live buffer | record MSYNC when `msync` fails, then leave the switch as the other cases do | high that the fall-through happens; the process aborts only where assertions are compiled in; not executed | Requests.OnWorkAsWritten, Requests.MsyncWorkAborts | Requests.WorkCode (used by Requests.Request.Work) |

## Left out

- The syscalls themselves. The model takes their results as parameters and holds no real memory mapping. Unmapping pages in the work step is not modelled: the buffer's fields keep the old address until completion, as in the source.
- The JavaScript object model:
  - `Wrap`, the external array view, and the script-visible `length` property. The source sets that property through a 32-bit unsigned integer, so for a mapping of 2^32 bytes or more it holds `length_` modulo 2^32; the model's `length` field is `length_` only;
  - the re-dispatch of a plain call to a construct call (src/mappedbuffer.cc:135-144);
  - `MakeCallback`, `TryCatch`, and what the callback itself does;
  - the `cb.IsEmpty()` test (a queued request always has a callback here).
- Argument conversion is abstracted: a value that is neither an int32 nor a function is represented only by its `ToInteger()` result, so `valueOf` side effects are not modelled.
- The libuv thread pool. A request's work and completion are sequential steps, and no other call interleaves between them except as a caller sequences the methods.
- `malloc`/`free` of the request records, including the records that the fill and flush completions never free (src/mappedbuffer.cc:511-526).
- `Init`, the exported constants and `PAGESIZE` (src/mappedbuffer.cc:536-580).
- src/debug.h, src/utils.h and src/mappedbuffer.h are not part of this model.
- Node's `ObjectWrap` is not part of this model. Its checks appear only as preconditions:
  - `Buffer.MappedBuffer.Unref` requires a positive pin count;
  - `Buffer.MappedBuffer.Destroy` requires none, because the object is only destroyed once unpinned.
- Dispatch.New: a sync map of size 0 fails the constructor's `assert(length_ > 0 && ...)` and aborts. The model requires a positive size instead of modelling the abort.
- Requests.Request.Done: an async map of size 0 aborts the same way in the source. The model requires a positive size.
- Requests.Request.Work: for an unmap it requires a live target. This is the source's own `assert(!req->buffer->released_)`, which a second queued unmap can violate; the abort is not modelled.
- Arguments.CharCast: assumes a signed 8-bit `char`. The byte `memset` writes is the same either way (Arguments.FillByteIsLowByte).
- Buffer.MappedBuffer: the model does not state that two buffers' memory blocks are distinct.
