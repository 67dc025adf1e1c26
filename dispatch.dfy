/**
 * The script-facing entry points `new MappedBuffer(...)`, `unmap`, `fill` and
 * `sync`: each classifies its arguments, throws on a malformed call before
 * anything else happens, and then either performs the operation on the
 * calling thread or queues a request.
 */
module Dispatch {

  import opened Results
  import opened Region
  import opened Buffer
  import opened Arguments
  import opened Requests

  /** What an entry point gives back: a thrown error, a boolean, `this`, a new buffer, or `this` with a request queued. */
  datatype Reply =
    | Threw(message: string)
    | ReturnedBool(b: bool)
    | ReturnedThis
    | Built(buffer: MappedBuffer)
    | Queued(req: Request)

  /**
   * `New`, given the address the synchronous `mmap` would return: a bad call
   * throws; a synchronous call wraps that address (whatever it is) in a new
   * buffer; an asynchronous one queues a map request that pins nothing.
   */
  method New(args: seq<JsValue>, mmapResult: Ptr) returns (reply: Reply)
    requires var c := ClassifyNew(args);
      c.Ok? && c.value.mode == Synchronous ==>
        mmapResult != NullPtr && c.value.size > 0 && (mmapResult.Block? ==> mmapResult.mem.Length == c.value.size)
    ensures var c := ClassifyNew(args);
      && (c.Err? ==> reply == Threw(c.message))
      && (c.Ok? && c.value.mode == Synchronous ==>
            && reply.Built? && fresh(reply.buffer) && reply.buffer.Valid() && reply.buffer.mapping == mmapResult
            && reply.buffer.State() == Constructed(mmapResult.View(), c.value.size))
      && (c.Ok? && c.value.mode == Asynchronous ==>
            && reply.Queued? && fresh(reply.req) && reply.req.Valid() && reply.req.phase == Submitted
            && reply.req.target == null
            && reply.req.params == MapParams(c.value.size, c.value.protection, c.value.flags, c.value.fd, c.value.offset))
  {
    var c := ClassifyNew(args);
    if c.Err? {
      return Threw(c.message);
    }
    var call := c.value;
    if call.mode == Synchronous {
      var buffer := new MappedBuffer(mmapResult, call.size);
      reply := Built(buffer);
    } else {
      var req := Submit(MapParams(call.size, call.protection, call.flags, call.fd, call.offset), null);
      reply := Queued(req);
    }
  }

  /**
   * `Unmap`, given what the synchronous `munmap` would return. Async on a
   * released buffer: true, and no request, so the callback never runs.
   * Async otherwise: a pinned unmap request. Sync: Region.ScriptUnmap.
   */
  method Unmap(buf: MappedBuffer, args: seq<JsValue>, ret: int) returns (reply: Reply)
    requires buf.Valid()
    modifies buf
    ensures buf.Valid()
    ensures UnmapMode(args) == Asynchronous && old(buf.released) ==>
      reply == ReturnedBool(true) && buf.State() == old(buf.State())
    ensures UnmapMode(args) == Asynchronous && !old(buf.released) ==>
      && reply.Queued? && fresh(reply.req) && reply.req.Valid() && reply.req.phase == Submitted
      && reply.req.params == UnmapParams && reply.req.target == buf
      && buf.State() == Pinned(old(buf.State()))
    ensures UnmapMode(args) == Synchronous ==>
      match Region.ScriptUnmap(old(buf.State()), ret)
      case Ok(p) => reply == ReturnedBool(p.1) && buf.State() == p.0
      case Err(m) => reply == Threw(m) && buf.State() == old(buf.State())
  {
    if UnmapMode(args) == Asynchronous {
      if buf.released {
        return ReturnedBool(true);
      }
      var req := Submit(UnmapParams, buf);
      reply := Queued(req);
    } else {
      var r := buf.ScriptUnmap(ret);
      match r {
        case Ok(b) => reply := ReturnedBool(b);
        case Err(m) => reply := Threw(m);
      }
    }
  }

  /**
   * `Fill`: a bad call throws and changes nothing; a synchronous call writes
   * the byte over `[start, end)` at once; an asynchronous one queues a pinned
   * fill request. The source checks neither the range nor the released flag,
   * so a synchronous call must stay within a live mapping.
   */
  method Fill(buf: MappedBuffer, args: seq<JsValue>) returns (reply: Reply)
    requires buf.Valid()
    requires var c := ClassifyFill(args);
      c.Ok? && c.value.mode == Synchronous ==> CanFill(buf.State(), c.value.start, c.value.end)
    modifies buf, buf.mapping.Footprint()
    ensures buf.Valid()
    ensures var c := ClassifyFill(args);
      && (c.Err? ==> reply == Threw(c.message) && buf.State() == old(buf.State()))
      && (c.Ok? && c.value.mode == Synchronous ==>
            reply == ReturnedThis
            && buf.State() == Filled(old(buf.State()), ByteOf(c.value.value), c.value.start, c.value.end))
      && (c.Ok? && c.value.mode == Asynchronous ==>
            && reply.Queued? && fresh(reply.req) && reply.req.Valid() && reply.req.phase == Submitted
            && reply.req.params == FillParams(c.value.value, c.value.start, c.value.end) && reply.req.target == buf
            && buf.State() == Pinned(old(buf.State())))
  {
    var c := ClassifyFill(args);
    if c.Err? {
      return Threw(c.message);
    }
    var call := c.value;
    if call.mode == Asynchronous {
      var req := Submit(FillParams(call.value, call.start, call.end), buf);
      reply := Queued(req);
    } else {
      buf.Fill(ByteOf(call.value), call.start, call.end);
      reply := ReturnedThis;
    }
  }

  /**
   * `Sync`: a bad call throws; a synchronous flush ignores what `msync`
   * returns and changes nothing; an asynchronous one queues a pinned flush
   * request.
   */
  method Sync(buf: MappedBuffer, args: seq<JsValue>) returns (reply: Reply)
    requires buf.Valid()
    modifies buf
    ensures buf.Valid()
    ensures var c := ClassifySync(args);
      && (c.Err? ==> reply == Threw(c.message) && buf.State() == old(buf.State()))
      && (c.Ok? && c.value.mode == Synchronous ==> reply == ReturnedThis && buf.State() == old(buf.State()))
      && (c.Ok? && c.value.mode == Asynchronous ==>
            && reply.Queued? && fresh(reply.req) && reply.req.Valid() && reply.req.phase == Submitted
            && reply.req.params == MsyncParams(c.value.size, c.value.flags) && reply.req.target == buf
            && buf.State() == Pinned(old(buf.State())))
  {
    var c := ClassifySync(args);
    if c.Err? {
      return Threw(c.message);
    }
    var call := c.value;
    if call.mode == Asynchronous {
      var req := Submit(MsyncParams(call.size, call.flags), buf);
      reply := Queued(req);
    } else {
      reply := ReturnedThis;
    }
  }
}
