/**
 * How the four script-facing entry points read their argument lists: the
 * conversions they apply to each argument and the rule that decides whether a
 * call runs synchronously or is queued with a completion callback.
 */
module Arguments {

  import opened Results
  import opened Region

  type int32 = x: int | -0x8000_0000 <= x < 0x8000_0000

  const TWO_TO_THE_32: int := 0x1_0000_0000
  const TWO_TO_THE_64: int := 0x1_0000_0000_0000_0000

  const BAD_ARGUMENT: string := "Bad argument"
  const NOT_A_NUMBER: string := "Value is not a number"

  /**
   * The argument values the entry points tell apart: a number that passes
   * `IsInt32()`, a function (`IsFunction()`), or any other value, carried as
   * the integer its `ToInteger()` yields.
   */
  datatype JsValue = Int32Value(v: int32) | FunctionValue | OtherValue(integer: int)

  /** `ToInteger()->Value()`; a function converts to NaN and so to 0. */
  function ToInteger(x: JsValue): int
  {
    match x
    case Int32Value(v) => v
    case FunctionValue => 0
    case OtherValue(i) => i
  }

  /** Storing an integer into an `int32_t`: two's-complement wrap-around. */
  function ToInt32(x: int): (r: int32)
    ensures (x - r) % TWO_TO_THE_32 == 0
    ensures -0x8000_0000 <= x < 0x8000_0000 ==> r == x
  {
    var m := x % TWO_TO_THE_32;
    if m < 0x8000_0000 then m else m - TWO_TO_THE_32
  }

  /** Storing an integer into a `size_t`: reduction modulo 2^64. */
  function ToSize(x: int): (r: nat)
    ensures r < TWO_TO_THE_64 && (x - r) % TWO_TO_THE_64 == 0
    ensures 0 <= x < TWO_TO_THE_64 ==> r == x
  {
    x % TWO_TO_THE_64
  }

  /** The `(char)` cast of the fill value, for a signed 8-bit `char`. */
  function CharCast(v: int32): (r: int)
    ensures -128 <= r < 128 && (v - r) % 256 == 0
    ensures -128 <= v < 128 ==> r == v
  {
    var m := v % 256;
    if m < 128 then m else m - 256
  }

  /** Whatever the fill value, the byte `memset` writes is its low eight bits. */
  lemma FillByteIsLowByte(v: int32)
    ensures ByteOf(CharCast(v)) == ByteOf(v)
  {
  }

  datatype Mode = Synchronous | Asynchronous

  /** The parameters `new MappedBuffer(...)` maps with, and how it runs. */
  datatype NewCall = NewCall(size: nat, protection: int32, flags: int32, fd: int32, offset: int, mode: Mode)

  /**
   * `New`: at most three arguments is an error; five arguments are async when
   * the fifth is a function (offset 0) and otherwise sync with that offset;
   * six are async with the fifth as offset; any other count is sync at offset 0.
   */
  function ClassifyNew(args: seq<JsValue>): (r: Result<NewCall>)
    ensures r.Err? <==> |args| <= 3
    ensures r.Err? ==> r.message == BAD_ARGUMENT
    ensures r.Ok? ==> (r.value.mode == Asynchronous <==> |args| == 6 || (|args| == 5 && args[4].FunctionValue?))
    ensures r.Ok? ==> r.value.size == ToSize(ToInteger(args[0])) && r.value.size < TWO_TO_THE_64
    ensures r.Ok? ==> r.value.protection == ToInt32(ToInteger(args[1]))
    ensures r.Ok? ==> r.value.flags == ToInt32(ToInteger(args[2])) && r.value.fd == ToInt32(ToInteger(args[3]))
    ensures r.Ok? ==> r.value.offset == if |args| == 6 || (|args| == 5 && !args[4].FunctionValue?) then ToInteger(args[4]) else 0
  {
    if |args| <= 3 then Err(BAD_ARGUMENT)
    else
      var size := ToSize(ToInteger(args[0]));
      var protection := ToInt32(ToInteger(args[1]));
      var flags := ToInt32(ToInteger(args[2]));
      var fd := ToInt32(ToInteger(args[3]));
      if |args| == 5 then
        if args[4].FunctionValue? then Ok(NewCall(size, protection, flags, fd, 0, Asynchronous))
        else Ok(NewCall(size, protection, flags, fd, ToInteger(args[4]), Synchronous))
      else if |args| == 6 then Ok(NewCall(size, protection, flags, fd, ToInteger(args[4]), Asynchronous))
      else Ok(NewCall(size, protection, flags, fd, 0, Synchronous))
  }

  /** The argument list a caller writes for a call: the offset always given, a callback when async. */
  function NewArgs(c: NewCall): (args: seq<JsValue>)
    ensures |args| == (if c.mode == Asynchronous then 6 else 5)
  {
    [OtherValue(c.size), Int32Value(c.protection), Int32Value(c.flags), Int32Value(c.fd), OtherValue(c.offset)]
    + (if c.mode == Asynchronous then [FunctionValue] else [])
  }

  /** Every call with a representable size is reached by its own argument list. */
  lemma NewRoundTrip(c: NewCall)
    requires c.size < TWO_TO_THE_64
    ensures ClassifyNew(NewArgs(c)) == Ok(c)
  {
  }

  /**
   * A call written entirely with int32 numbers maps exactly what it names:
   * a non-negative size is kept as given, and so are the other fields.
   */
  lemma NewInt32Arguments(size: int32, protection: int32, flags: int32, fd: int32, offset: int32)
    requires size >= 0
    ensures var r := ClassifyNew([Int32Value(size), Int32Value(protection), Int32Value(flags), Int32Value(fd), Int32Value(offset)]);
      r == Ok(NewCall(size, protection, flags, fd, offset, Synchronous))
    ensures var r := ClassifyNew([Int32Value(size), Int32Value(protection), Int32Value(flags), Int32Value(fd), FunctionValue]);
      r == Ok(NewCall(size, protection, flags, fd, 0, Asynchronous))
  {
  }

  /**
   * The callback is recognised only in the last slot of a five-argument call:
   * a six-argument call is async whatever its last argument is, and a callback
   * after three or after six arguments is not treated as one.
   */
  lemma NewCallbackPosition(a: seq<JsValue>)
    requires |a| == 4
    ensures ClassifyNew(a + [FunctionValue]).value.mode == Asynchronous
    ensures ClassifyNew(a + [OtherValue(0), OtherValue(0)]).value.mode == Asynchronous
    ensures ClassifyNew(a).value.mode == Synchronous
    ensures ClassifyNew(a[..3] + [FunctionValue]).value.mode == Synchronous
    ensures ClassifyNew(a + [OtherValue(0), FunctionValue, FunctionValue]).value.mode == Synchronous
  {
  }

  /** `unmap` is async exactly when it is given one argument and that argument is a function. */
  function UnmapMode(args: seq<JsValue>): (m: Mode)
    ensures m == Asynchronous <==> |args| == 1 && args[0].FunctionValue?
  {
    if |args| == 1 && args[0].FunctionValue? then Asynchronous else Synchronous
  }

  /** A lone callback queues the unmap; no arguments, a lone non-function, or a callback among others does not. */
  lemma UnmapCallbackPosition(v: JsValue, w: JsValue)
    ensures UnmapMode([FunctionValue]) == Asynchronous
    ensures UnmapMode([]) == Synchronous
    ensures !v.FunctionValue? ==> UnmapMode([v]) == Synchronous
    ensures UnmapMode([v, w]) == Synchronous
  {
  }

  /** The fill value after the `(char)` cast, the byte range, and how the call runs. */
  datatype FillCall = FillCall(value: int, start: int32, end: int32, mode: Mode)

  /**
   * `Fill`: fewer than three arguments, or a first argument that is not an
   * int32, is an error raised before anything else; the call is async exactly
   * when there are four arguments and the fourth is a function.
   */
  function ClassifyFill(args: seq<JsValue>): (r: Result<FillCall>)
    ensures r.Err? <==> |args| < 3 || !args[0].Int32Value?
    ensures |args| < 3 ==> r == Err(BAD_ARGUMENT)
    ensures |args| >= 3 && !args[0].Int32Value? ==> r == Err(NOT_A_NUMBER)
    ensures r.Ok? ==> (r.value.mode == Asynchronous <==> |args| == 4 && args[3].FunctionValue?)
    ensures r.Ok? ==> -128 <= r.value.value < 128 && ByteOf(r.value.value) == ByteOf(args[0].v)
    ensures r.Ok? ==> r.value.start == ToInt32(ToInteger(args[1])) && r.value.end == ToInt32(ToInteger(args[2]))
  {
    if |args| < 3 then Err(BAD_ARGUMENT)
    else if !args[0].Int32Value? then Err(NOT_A_NUMBER)
    else
      var value := CharCast(args[0].v);
      var start := ToInt32(ToInteger(args[1]));
      var end := ToInt32(ToInteger(args[2]));
      var mode := if |args| == 4 && args[3].FunctionValue? then Asynchronous else Synchronous;
      FillByteIsLowByte(args[0].v);
      Ok(FillCall(value, start, end, mode))
  }

  /** The argument list a caller writes for a fill. */
  function FillArgs(c: FillCall): (args: seq<JsValue>)
    requires -128 <= c.value < 128
    ensures |args| == (if c.mode == Asynchronous then 4 else 3)
  {
    [Int32Value(c.value), Int32Value(c.start), Int32Value(c.end)] + (if c.mode == Asynchronous then [FunctionValue] else [])
  }

  /** Every fill whose value is already a `char` is reached by its own argument list. */
  lemma FillRoundTrip(c: FillCall)
    requires -128 <= c.value < 128
    ensures ClassifyFill(FillArgs(c)) == Ok(c)
  {
  }

  /** The flush size and flags and how the call runs. */
  datatype SyncCall = SyncCall(size: int32, flags: int32, mode: Mode)

  /**
   * `Sync`: fewer than two arguments, or a first argument that is not an
   * int32, is an error; the call is async exactly when there are three
   * arguments and the third is a function.
   */
  function ClassifySync(args: seq<JsValue>): (r: Result<SyncCall>)
    ensures r.Err? <==> |args| < 2 || !args[0].Int32Value?
    ensures |args| < 2 ==> r == Err(BAD_ARGUMENT)
    ensures |args| >= 2 && !args[0].Int32Value? ==> r == Err(NOT_A_NUMBER)
    ensures r.Ok? ==> (r.value.mode == Asynchronous <==> |args| == 3 && args[2].FunctionValue?)
    ensures r.Ok? ==> r.value.size == args[0].v && r.value.flags == ToInt32(ToInteger(args[1]))
  {
    if |args| < 2 then Err(BAD_ARGUMENT)
    else if !args[0].Int32Value? then Err(NOT_A_NUMBER)
    else
      var size := ToInt32(ToInteger(args[0]));
      var flags := ToInt32(ToInteger(args[1]));
      var mode := if |args| == 3 && args[2].FunctionValue? then Asynchronous else Synchronous;
      Ok(SyncCall(size, flags, mode))
  }

  /** The argument list a caller writes for a flush. */
  function SyncArgs(c: SyncCall): (args: seq<JsValue>)
    ensures |args| == (if c.mode == Asynchronous then 3 else 2)
  {
    [Int32Value(c.size), Int32Value(c.flags)] + (if c.mode == Asynchronous then [FunctionValue] else [])
  }

  /** Every flush is reached by its own argument list. */
  lemma SyncRoundTrip(c: SyncCall)
    ensures ClassifySync(SyncArgs(c)) == Ok(c)
  {
  }
}
