/**
 * The `MappedBuffer` object: the mapped address, its length, the released
 * flag and the pin count, updated in place. Each method is specified by the
 * transition of module Region it performs.
 */
module Buffer {

  import opened Results
  import opened Region
  import Errors

  /** The value of `map_`: NULL, the `MAP_FAILED` sentinel, or a block of mapped memory. */
  datatype Ptr = NullPtr | FailedPtr | Block(mem: array<byte>)
  {
    function Footprint(): set<object>
    {
      if Block? then {mem} else {}
    }

    /** The memory this pointer designates, as a value. */
    function View(): (m: Mapping)
      reads Footprint()
      ensures m.Null? <==> NullPtr?
      ensures m.MapFailed? <==> FailedPtr?
      ensures Block? ==> m == Bytes(mem[..])
    {
      match this
      case NullPtr => Null
      case FailedPtr => MapFailed
      case Block(a) => Bytes(a[..])
    }
  }

  class MappedBuffer {
    var mapping: Ptr
    var length: nat
    var released: bool
    var refs: nat

    /** The buffer's state as a value. */
    ghost function State(): RegionState
      reads this, mapping.Footprint()
    {
      RegionState(mapping.View(), length, released, refs)
    }

    ghost predicate Valid()
      reads this, mapping.Footprint()
    {
      Consistent(State())
    }

    /** Wraps a fresh mapping; the source asserts a non-NULL address and a positive length. */
    constructor (data: Ptr, size: nat)
      requires data != NullPtr && size > 0
      requires data.Block? ==> data.mem.Length == size
      ensures mapping == data && Valid()
      ensures State() == Constructed(data.View(), size)
    {
      mapping := data;
      length := size;
      released := false;
      refs := 0;
    }

    /**
     * The destructor, run once nothing pins the object: a live region is
     * unmapped (the result of `munmap` is ignored) and marked released.
     */
    method Destroy()
      requires Valid() && refs == 0
      modifies this
      ensures mapping == old(mapping) && Valid()
      ensures State() == Finalized(old(State()))
    {
      if !released && mapping != NullPtr && length > 0 {
        released := true;
      }
    }

    /** The member `unmap()`: false on a released buffer, otherwise release and true. */
    method Unmap() returns (ok: bool)
      requires Valid()
      modifies this
      ensures Valid()
      ensures (State(), ok) == MemberUnmap(old(State()))
    {
      if released {
        return false;
      }
      mapping := NullPtr;
      length := 0;
      released := true;
      ok := true;
    }

    /**
     * The synchronous path of the script-facing `unmap`, given the value
     * `munmap` returned: the outcome and new state of Region.ScriptUnmap.
     */
    method ScriptUnmap(ret: int) returns (r: Result<bool>)
      requires Valid()
      modifies this
      ensures Valid()
      ensures match Region.ScriptUnmap(old(State()), ret)
        case Ok(p) => r == Ok(p.1) && State() == p.0
        case Err(m) => r == Err(m) && State() == old(State())
    {
      if released {
        return Ok(true);
      }
      if ret == 0 {
        mapping := NullPtr;
        length := 0;
        released := true;
        r := Ok(true);
      } else if ret == -1 {
        r := Ok(false);
      } else {
        r := Err("Unknown munmap return value");
      }
    }

    /** `memset` over `[start, end)`: the source checks neither the range nor the released flag. */
    method Fill(value: byte, start: int, end: int)
      requires Valid() && CanFill(State(), start, end)
      modifies mapping.mem
      ensures Valid()
      ensures State() == Filled(old(State()), value, start, end)
    {
      var a := mapping.mem;
      ghost var before := a[..];
      var i := start;
      while i < end
        invariant start <= i <= end
        invariant forall k :: 0 <= k < a.Length ==> a[k] == if start <= k < i then value else before[k]
      {
        a[i] := value;
        i := i + 1;
      }
      forall k | 0 <= k < a.Length
        ensures a[..][k] == Memset(before, value, start, end)[k]
      {
        MemsetAt(before, value, start, end, k);
      }
    }

    /** `Ref()`: pin the object for an in-flight request. */
    method Ref()
      requires Valid()
      modifies this
      ensures mapping == old(mapping) && Valid()
      ensures State() == Pinned(old(State()))
    {
      refs := refs + 1;
    }

    /** `Unref()`: drop a pin; the count must be positive. */
    method Unref()
      requires Valid() && refs > 0
      modifies this
      ensures mapping == old(mapping) && Valid()
      ensures State() == Unpinned(old(State()))
    {
      refs := refs - 1;
    }

    /** The completion of an asynchronous unmap: release when the work step reported success. */
    method CompleteUnmap(code: int)
      requires Valid()
      modifies this
      ensures Valid() && (mapping == old(mapping) || mapping == NullPtr)
      ensures State() == UnmapCompleted(old(State()), code)
    {
      if code == Errors.OK {
        mapping := NullPtr;
        length := 0;
        released := true;
      }
    }
  }
}
