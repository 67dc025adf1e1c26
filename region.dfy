/**
 * The state of one mapped buffer as a value (the fields `map_`, `length_`,
 * `released_` and the pin count an in-flight request holds), every transition
 * the source applies to it, and what those transitions preserve over any run.
 * The class in buffer.dfy is specified by these functions.
 */
module Region {

  import opened Results
  import Errors

  /** One byte of mapped memory. */
  newtype byte = x: int | 0 <= x < 256

  /** The conversion `memset` applies to its `int` fill value: keep the low eight bits. */
  function ByteOf(v: int): (b: byte)
    ensures (v - b as int) % 256 == 0
  {
    (v % 256) as byte
  }

  /** What `map_` points at: nothing, the `MAP_FAILED` sentinel, or mapped bytes. */
  datatype Mapping = Null | MapFailed | Bytes(contents: seq<byte>)

  datatype RegionState = RegionState(mapping: Mapping, length: nat, released: bool, refs: nat)

  /** Holds of every state the source can reach: a live region has a mapping and a positive length. */
  ghost predicate Consistent(s: RegionState)
  {
    && (s.mapping.Bytes? ==> |s.mapping.contents| == s.length)
    && (s.mapping.Null? ==> s.length == 0 && s.released)
    && (!s.released ==> !s.mapping.Null? && s.length > 0)
  }

  /** The state the constructor creates: live, unpinned, over the given mapping. */
  function Constructed(data: Mapping, length: nat): (s: RegionState)
    requires !data.Null? && length > 0
    requires data.Bytes? ==> |data.contents| == length
    ensures Consistent(s) && !s.released && s.refs == 0
    ensures s.mapping == data && s.length == length
  {
    RegionState(data, length, false, 0)
  }

  /** A region after a successful unmap: no mapping, zero length, released; pins are untouched. */
  function Unmapped(s: RegionState): (t: RegionState)
    ensures Consistent(t) && t.released && t.refs == s.refs
    ensures t.mapping.Null? && t.length == 0
  {
    RegionState(Null, 0, true, s.refs)
  }

  /**
   * The member `unmap()`: on a released region it reports false and changes
   * nothing; otherwise it releases the region, whatever `munmap` returned.
   */
  function MemberUnmap(s: RegionState): (r: (RegionState, bool))
    ensures r.0.released
    ensures r.1 <==> !s.released
    ensures !r.1 ==> r.0 == s
    ensures r.1 ==> r.0 == Unmapped(s)
  {
    if s.released then (s, false) else (Unmapped(s), true)
  }

  /**
   * The synchronous script-facing `unmap`, given what `munmap` returned:
   * true without a syscall on a released region, release on 0, false and no
   * change on -1, an exception on anything else.
   */
  function ScriptUnmap(s: RegionState, ret: int): (r: Result<(RegionState, bool)>)
    ensures r.Err? <==> !s.released && ret != 0 && ret != -1
    ensures r.Ok? && r.value.1 ==> r.value.0.released && (s.released ==> r.value.0 == s)
    ensures r.Ok? && !r.value.1 ==> r.value.0 == s
    ensures s.released ==> r == Ok((s, true))
    ensures !s.released && ret == 0 ==> r == Ok((Unmapped(s), true))
    ensures !s.released && ret == -1 ==> r == Ok((s, false))
  {
    if s.released then Ok((s, true))
    else if ret == 0 then Ok((Unmapped(s), true))
    else if ret == -1 then Ok((s, false))
    else Err("Unknown munmap return value")
  }

  /**
   * The destructor: a live region is marked released (after an `munmap`
   * whose result is ignored); `map_` and `length_` keep their values.
   */
  function Finalized(s: RegionState): (t: RegionState)
    ensures Consistent(s) ==> t.released
    ensures t.mapping == s.mapping && t.length == s.length && t.refs == s.refs
    ensures s.released ==> t == s
  {
    if !s.released && !s.mapping.Null? && s.length > 0 then s.(released := true) else s
  }

  /** `n` copies of `b`: what `memset` writes. */
  function Repeat(b: byte, n: nat): (r: seq<byte>)
    ensures |r| == n
  {
    if n == 0 then [] else [b] + Repeat(b, n - 1)
  }

  lemma {:induction false} RepeatAt(b: byte, n: nat, k: nat)
    requires k < n
    ensures Repeat(b, n)[k] == b
  {
    if k > 0 {
      RepeatAt(b, n - 1, k - 1);
    }
  }

  /** `memset(c + start, b, end - start)` on the contents `c`. */
  function Memset(c: seq<byte>, b: byte, start: nat, end: nat): (r: seq<byte>)
    requires start <= end <= |c|
    ensures |r| == |c|
  {
    c[..start] + Repeat(b, end - start) + c[end..]
  }

  /** Every byte in `[start, end)` becomes `b`; every other byte keeps its value. */
  lemma MemsetAt(c: seq<byte>, b: byte, start: nat, end: nat, k: nat)
    requires start <= end <= |c| && k < |c|
    ensures Memset(c, b, start, end)[k] == if start <= k < end then b else c[k]
  {
    if start <= k < end {
      RepeatAt(b, end - start, k - start);
    }
  }

  /** The source writes without checking: a fill is defined only within a live, mapped region. */
  predicate CanFill(s: RegionState, start: int, end: int)
  {
    !s.released && s.mapping.Bytes? && 0 <= start <= end <= |s.mapping.contents|
  }

  /** A fill of `[start, end)` with `b`: only the contents change. */
  function Filled(s: RegionState, b: byte, start: int, end: int): (t: RegionState)
    requires CanFill(s, start, end)
    ensures t.mapping.Bytes? && |t.mapping.contents| == |s.mapping.contents|
    ensures t.length == s.length && t.released == s.released && t.refs == s.refs
  {
    s.(mapping := Bytes(Memset(s.mapping.contents, b, start, end)))
  }

  /** `Ref()`: one more pin. */
  function Pinned(s: RegionState): (t: RegionState)
    ensures t.refs == s.refs + 1 && t.(refs := s.refs) == s
  {
    s.(refs := s.refs + 1)
  }

  /** `Unref()`: one pin fewer. */
  function Unpinned(s: RegionState): (t: RegionState)
    requires s.refs > 0
    ensures t.refs == s.refs - 1 && t.(refs := s.refs) == s
  {
    s.(refs := s.refs - 1)
  }

  /** The completion of an asynchronous unmap: the region is released only when the work step reported success. */
  function UnmapCompleted(s: RegionState, code: int): (t: RegionState)
    ensures t.released <==> s.released || code == Errors.OK
    ensures code != Errors.OK ==> t == s
    ensures code == Errors.OK ==> t == Unmapped(s) && t.mapping.Null? && t.length == 0
    ensures t.refs == s.refs
  {
    if code == Errors.OK then Unmapped(s) else s
  }

  /** Every operation that changes a buffer. */
  datatype Op =
    | MemberUnmapOp
    | ScriptUnmapOp(ret: int)
    | DestroyOp
    | FillOp(value: byte, start: int, end: int)
    | RefOp
    | UnrefOp
    | UnmapDoneOp(code: int)

  /** When the source may apply an operation: a fill within bounds, an unref of a pinned region, no destruction while pinned. */
  predicate Enabled(s: RegionState, op: Op)
  {
    match op
    case DestroyOp => s.refs == 0
    case FillOp(_, start, end) => CanFill(s, start, end)
    case UnrefOp => s.refs > 0
    case _ => true
  }

  function Step(s: RegionState, op: Op): RegionState
    requires Enabled(s, op)
  {
    match op
    case MemberUnmapOp => MemberUnmap(s).0
    case ScriptUnmapOp(ret) => (match ScriptUnmap(s, ret) case Ok(p) => p.0 case Err(_) => s)
    case DestroyOp => Finalized(s)
    case FillOp(b, start, end) => Filled(s, b, start, end)
    case RefOp => Pinned(s)
    case UnrefOp => Unpinned(s)
    case UnmapDoneOp(code) => UnmapCompleted(s, code)
  }

  /** The state after a run of operations, or None when one of them is not enabled. */
  function Run(s: RegionState, ops: seq<Op>): Option<RegionState>
    decreases |ops|
  {
    if ops == [] then Some(s)
    else if !Enabled(s, ops[0]) then None
    else Run(Step(s, ops[0]), ops[1..])
  }

  /** How much a run changes the pin count. */
  function PinDelta(ops: seq<Op>): int
    decreases |ops|
  {
    if ops == [] then 0
    else (match ops[0] case RefOp => 1 case UnrefOp => -1 case _ => 0) + PinDelta(ops[1..])
  }

  /** `released_` is never reset: once a region is released, every run keeps it released. */
  lemma {:induction false} RunKeepsReleased(s: RegionState, ops: seq<Op>)
    requires s.released && Run(s, ops).Some?
    ensures Run(s, ops).value.released
    decreases |ops|
  {
    if ops != [] {
      RunKeepsReleased(Step(s, ops[0]), ops[1..]);
    }
  }

  /** Every run from a consistent state ends in a consistent state. */
  lemma {:induction false} RunKeepsConsistent(s: RegionState, ops: seq<Op>)
    requires Consistent(s) && Run(s, ops).Some?
    ensures Consistent(Run(s, ops).value)
    decreases |ops|
  {
    if ops != [] {
      RunKeepsConsistent(Step(s, ops[0]), ops[1..]);
    }
  }

  /** The pin count moves by the number of refs minus the number of unrefs, and by nothing else. */
  lemma {:induction false} RunPinBalance(s: RegionState, ops: seq<Op>)
    requires Run(s, ops).Some?
    ensures Run(s, ops).value.refs == s.refs + PinDelta(ops)
    decreases |ops|
  {
    if ops != [] {
      RunPinBalance(Step(s, ops[0]), ops[1..]);
    }
  }

  /**
   * An asynchronous unmap seen by its buffer (pin at submission, release on
   * success at completion, unpin): the pin count returns to its value before
   * submission, and the region ends released exactly when it already was or
   * the work step succeeded.
   */
  lemma AsyncUnmapBalanced(s: RegionState, code: int)
    ensures Run(s, [RefOp, UnmapDoneOp(code), UnrefOp]).Some?
    ensures var t := Run(s, [RefOp, UnmapDoneOp(code), UnrefOp]).value;
      t.refs == s.refs && (t.released <==> s.released || code == Errors.OK)
  {
    var s1 := Pinned(s);
    var s2 := UnmapCompleted(s1, code);
    assert Run(s2, [UnrefOp]) == Some(Unpinned(s2));
    assert [RefOp, UnmapDoneOp(code), UnrefOp][1..] == [UnmapDoneOp(code), UnrefOp];
    assert [UnmapDoneOp(code), UnrefOp][1..] == [UnrefOp];
  }

  /** A second member unmap is a no-op that reports false. */
  lemma MemberUnmapIdempotent(s: RegionState)
    ensures MemberUnmap(MemberUnmap(s).0) == (MemberUnmap(s).0, false)
  {
  }

  /**
   * The two unmaps agree on the state whenever `munmap` succeeds, but on an
   * already released region the script-facing one reports true and the
   * member one false.
   */
  lemma UnmapsCompared(s: RegionState)
    ensures !s.released ==> ScriptUnmap(s, 0) == Ok(MemberUnmap(s))
    ensures s.released ==> ScriptUnmap(s, 0) == Ok((s, true)) && MemberUnmap(s) == (s, false)
  {
  }
}
