/**
 * The asynchronous path: a request record is submitted (pinning its target),
 * its work step runs the syscall and records only a result code, and its
 * completion step builds the callback's arguments, applies the unmap
 * transition on success, runs the callback once and drops the pin. The
 * thread pool is modelled by running the three steps in order.
 */
module Requests {

  import opened Errors
  import opened Region
  import opened Buffer

  /** The request kinds (`mb_async_t`) with the payload each kind's record carries. */
  datatype Params =
    | MapParams(size: nat, protection: int, flags: int, fd: int, offset: int)
    | UnmapParams
    | FillParams(value: int, start: int, end: int)
    | MsyncParams(flushSize: int, flushFlags: int)

  /** The one code a kind's work step may report besides OK (a fill has none). */
  function FailureCode(p: Params): (c: int)
    ensures p.FillParams? <==> c == OK
    ensures p.MapParams? ==> c == MMAP && StrError(c) == "Failed mmap"
    ensures p.UnmapParams? ==> c == MUNMAP && StrError(c) == "Failed munmap"
    ensures p.MsyncParams? ==> c == MSYNC && StrError(c) == "Failed msync"
  {
    match p
    case MapParams(_, _, _, _, _) => MMAP
    case UnmapParams => MUNMAP
    case FillParams(_, _, _) => OK
    case MsyncParams(_, _) => MSYNC
  }

  /** Whether the syscall of a work step failed: `mmap` gave `MAP_FAILED`, or `munmap`/`msync` returned non-zero. */
  predicate SyscallFailed(p: Params, mmapFailed: bool, ret: int)
  {
    match p
    case MapParams(_, _, _, _, _) => mmapFailed
    case UnmapParams => ret != 0
    case FillParams(_, _, _) => false
    case MsyncParams(_, _) => ret != 0
  }

  /**
   * The code a work step leaves in a request that starts at OK: OK when the
   * syscall succeeded and the kind's own failure code otherwise.
   */
  function WorkCode(p: Params, mmapFailed: bool, ret: int): (c: int)
    ensures c == OK || c == FailureCode(p)
    ensures c == OK <==> !SyscallFailed(p, mmapFailed, ret)
    ensures c != OK ==> StrError(c) != UNKNOWN_SYSTEM_ERROR
  {
    if SyscallFailed(p, mmapFailed, ret) then FailureCode(p) else OK
  }

  /** The work step as the source writes it: it either finishes with a code or fails its `assert(false)`. */
  datatype WorkOutcome = Finished(code: int) | AssertionFailure

  /**
   * `OnWork` as written: the `MB_ASYNC_MSYNC` case has no `break`, so after
   * recording its code control falls into `default: assert(false)`.
   */
  function OnWorkAsWritten(p: Params, mmapFailed: bool, ret: int): (o: WorkOutcome)
    ensures o.Finished? <==> !p.MsyncParams?
  {
    match p
    case MapParams(_, _, _, _, _) => Finished(if mmapFailed then MMAP else OK)
    case UnmapParams => Finished(if ret != 0 then MUNMAP else OK)
    case FillParams(_, _, _) => Finished(OK)
    case MsyncParams(_, _) => AssertionFailure
  }

  /** Every asynchronous flush, whatever `msync` returns, ends in the failed assertion. */
  lemma MsyncWorkAborts(size: int, flags: int, ret: int)
    ensures OnWorkAsWritten(MsyncParams(size, flags), false, ret) == AssertionFailure
  {
  }

  /** For every other kind the work step as written records the code WorkCode describes. */
  lemma OnWorkAsWrittenAgrees(p: Params, mmapFailed: bool, ret: int)
    requires !p.MsyncParams?
    ensures OnWorkAsWritten(p, mmapFailed, ret) == Finished(WorkCode(p, mmapFailed, ret))
  {
  }

  /** One argument of the completion callback. */
  datatype CallbackArg = NullArg | ErrorArg(code: int, message: string) | BufferArg(buffer: MappedBuffer)

  /** The callback's first argument: null on OK, otherwise an `Error` carrying the code and `mb_strerror`'s message. */
  function ErrorSlot(code: int): (a: CallbackArg)
    ensures a.NullArg? <==> code == OK
    ensures a.ErrorArg? ==> a.code == code && a.message == StrError(code)
  {
    if code == OK then NullArg else ErrorArg(code, StrError(code))
  }

  /** The callback's argument list: the error slot, then the new buffer for a map request. */
  function CallbackArgs(p: Params, code: int, made: MappedBuffer?): (argv: seq<CallbackArg>)
    requires p.MapParams? <==> made != null
    ensures |argv| == (if p.MapParams? then 2 else 1)
    ensures argv[0] == ErrorSlot(code)
    ensures p.MapParams? ==> argv[1] == BufferArg(made)
  {
    [ErrorSlot(code)] + (if made != null then [BufferArg(made)] else [])
  }

  /**
   * After a work step the callback's first argument is null exactly when the
   * syscall succeeded, and an error otherwise whose message comes from the
   * table, never the fallback message.
   */
  lemma ErrorSlotAfterWork(p: Params, mmapFailed: bool, ret: int)
    ensures ErrorSlot(WorkCode(p, mmapFailed, ret)).NullArg? <==> !SyscallFailed(p, mmapFailed, ret)
    ensures SyscallFailed(p, mmapFailed, ret) ==>
      ErrorSlot(WorkCode(p, mmapFailed, ret)).message != UNKNOWN_SYSTEM_ERROR
  {
  }

  datatype Phase = Submitted | Executed | Completed

  /** A request record: kind and payload, the target buffer (none for a map), the result code and, for a map, the address obtained. */
  class Request {
    const params: Params
    const target: MappedBuffer?
    var code: int
    var region: Ptr
    ghost var phase: Phase

    ghost predicate Valid()
      reads this
    {
      && (params.MapParams? <==> target == null)
      && (phase == Submitted ==> code == OK)
    }

    /** The record as submission fills it: code OK, no address yet. */
    constructor (p: Params, t: MappedBuffer?)
      requires p.MapParams? <==> t == null
      ensures Valid() && params == p && target == t
      ensures code == OK && region == NullPtr && phase == Submitted
    {
      params := p;
      target := t;
      code := OK;
      region := NullPtr;
      phase := Submitted;
    }

    /**
     * `OnWork`, given the syscall's result (the address `mmap` returned, or
     * what `munmap`/`msync` returned): records the code, and for a fill writes
     * the range; no field of the target changes.
     */
    method Work(mmapResult: Ptr, ret: int)
      requires Valid() && phase == Submitted
      requires target != null ==> target.Valid()
      requires params.MapParams? ==> mmapResult != NullPtr && (mmapResult.Block? ==> mmapResult.mem.Length == params.size)
      requires params.UnmapParams? ==> target.Valid() && !target.released
      requires params.FillParams? ==> target.Valid() && CanFill(target.State(), params.start, params.end)
      modifies this, if params.FillParams? then target.mapping.Footprint() else {}
      ensures Valid() && phase == Executed
      ensures code == WorkCode(params, mmapResult == FailedPtr, ret)
      ensures region == if params.MapParams? then mmapResult else old(region)
      ensures target != null ==> unchanged(target) && target.Valid()
      ensures params.FillParams? ==>
        target.State() == Filled(old(target.State()), ByteOf(params.value), params.start, params.end)
      ensures target != null && !params.FillParams? ==> target.State() == old(target.State())
    {
      match params {
        case MapParams(_, _, _, _, _) =>
          region := mmapResult;
          if mmapResult == FailedPtr {
            code := MMAP;
          }
        case UnmapParams =>
          if ret != 0 {
            code := MUNMAP;
          }
        case FillParams(value, start, end) =>
          target.Fill(ByteOf(value), start, end);
        case MsyncParams(_, _) =>
          if ret != 0 {
            code := MSYNC;
          }
      }
      phase := Executed;
    }

    /**
     * `OnWorkDone`: for a map, wraps the address in a new buffer (even when the
     * code is MMAP); for an unmap with code OK, releases the target; returns
     * the arguments of the one callback invocation; and unpins the target.
     */
    method Done() returns (argv: seq<CallbackArg>)
      requires Valid() && phase == Executed
      requires params.MapParams? ==>
        region != NullPtr && params.size > 0 && (region.Block? ==> region.mem.Length == params.size)
      requires target != null ==> target.Valid() && target.refs > 0
      modifies this, target
      ensures Valid() && phase == Completed
      ensures code == old(code) && region == old(region)
      ensures |argv| == (if params.MapParams? then 2 else 1) && argv[0] == ErrorSlot(code)
      ensures params.MapParams? ==>
        && argv[1].BufferArg? && fresh(argv[1].buffer) && argv[1].buffer.Valid()
        && argv[1].buffer.mapping == region
        && argv[1].buffer.State() == Constructed(region.View(), params.size)
      ensures target != null ==> target.mapping.Footprint() <= old(target.mapping.Footprint()) && target.Valid()
      ensures params.UnmapParams? ==> target.State() == Unpinned(UnmapCompleted(old(target.State()), code))
      ensures target != null && !params.UnmapParams? ==> target.State() == Unpinned(old(target.State()))
    {
      var made: MappedBuffer? := null;
      match params {
        case MapParams(size, _, _, _, _) =>
          made := new MappedBuffer(region, size);
        case UnmapParams =>
          target.CompleteUnmap(code);
        case FillParams(_, _, _) =>
        case MsyncParams(_, _) =>
      }
      argv := CallbackArgs(params, code, made);
      if target != null {
        target.Unref();
      }
      phase := Completed;
    }
  }

  /** Queues a request: the record is created and its target, if any, pinned once. */
  method Submit(p: Params, t: MappedBuffer?) returns (req: Request)
    requires p.MapParams? <==> t == null
    requires t != null ==> t.Valid()
    modifies t
    ensures fresh(req) && req.Valid() && req.params == p && req.target == t
    ensures req.code == OK && req.region == NullPtr && req.phase == Submitted
    ensures t != null ==> t.mapping == old(t.mapping) && t.Valid() && t.State() == Pinned(old(t.State()))
  {
    req := new Request(p, t);
    if t != null {
      t.Ref();
    }
  }

  /**
   * An unmap, fill or flush request from submission to completion with
   * nothing in between: the pin count ends where it started, the callback
   * gets one argument, null exactly when the syscall succeeded, and the
   * buffer ends released exactly when it was, or the request was an unmap
   * whose `munmap` succeeded.
   */
  method Lifecycle(p: Params, t: MappedBuffer, ret: int) returns (argv: seq<CallbackArg>)
    requires !p.MapParams? && t.Valid()
    requires p.UnmapParams? ==> !t.released
    requires p.FillParams? ==> CanFill(t.State(), p.start, p.end)
    modifies t, t.mapping.Footprint()
    ensures t.Valid() && t.refs == old(t.refs)
    ensures t.released <==> old(t.released) || (p.UnmapParams? && ret == 0)
    ensures |argv| == 1 && (argv[0] == NullArg <==> !SyscallFailed(p, false, ret))
  {
    var req := Submit(p, t);
    req.Work(NullPtr, ret);
    argv := req.Done();
  }
}
