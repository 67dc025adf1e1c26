/**
 * The request error codes (the `mb_err_code` enumeration) and `mb_strerror`,
 * which turns a code into the message of the `Error` handed to a callback.
 */
module Errors {

  import opened Results

  /** The names of the enumeration, in declaration order. */
  datatype ErrName = Unknown | Success | MmapFailed | MunmapFailed | MsyncFailed

  const UNKNOWN: int := -1
  const OK: int := 0
  const MMAP: int := 1
  const MUNMAP: int := 2
  const MSYNC: int := 3

  const UNKNOWN_SYSTEM_ERROR: string := "Unknown system error"

  /** The integer value each name stands for. */
  function CodeOf(n: ErrName): (c: int)
    ensures -1 <= c <= 3
  {
    match n
    case Unknown => UNKNOWN
    case Success => OK
    case MmapFailed => MMAP
    case MunmapFailed => MUNMAP
    case MsyncFailed => MSYNC
  }

  /** The name a code stands for, if it is one of the enumeration's values. */
  function NameOf(c: int): (n: Option<ErrName>)
    ensures n.Some? <==> -1 <= c <= 3
    ensures n.Some? ==> CodeOf(n.value) == c
  {
    if c == UNKNOWN then Some(Unknown)
    else if c == OK then Some(Success)
    else if c == MMAP then Some(MmapFailed)
    else if c == MUNMAP then Some(MunmapFailed)
    else if c == MSYNC then Some(MsyncFailed)
    else None
  }

  /** The message the table pairs with each name. */
  function Message(n: ErrName): string
  {
    match n
    case Unknown => "Unknown error"
    case Success => "Success"
    case MmapFailed => "Failed mmap"
    case MunmapFailed => "Failed munmap"
    case MsyncFailed => "Failed msync"
  }

  /** `mb_strerror`: the table's message for a known code, a fixed message for any other. */
  function StrError(c: int): (m: string)
    ensures m == UNKNOWN_SYSTEM_ERROR <==> !(-1 <= c <= 3)
    ensures forall n: ErrName :: CodeOf(n) == c ==> m == Message(n)
  {
    match NameOf(c)
    case Some(n) => Message(n)
    case None => UNKNOWN_SYSTEM_ERROR
  }

  /** Every name survives the trip to its code and back. */
  lemma NameRoundTrip(n: ErrName)
    ensures NameOf(CodeOf(n)) == Some(n)
  {
  }

  /** Distinct codes of the table have distinct messages, so a message identifies its code. */
  lemma StrErrorInjective(a: int, b: int)
    requires -1 <= a <= 3 && -1 <= b <= 3
    requires StrError(a) == StrError(b)
    ensures a == b
  {
  }
}
