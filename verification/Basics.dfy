/** Shared vocabulary: results, machine integers, byte strings. */
module Basics {

  datatype Option<+T> = None | Some(value: T)

  /** The status codes the modelled operations return; Ok is success. */
  datatype Status =
    | Ok | Corrupt | Truncated | OutOfBounds | InvalidEnum | InvalidGeneration | ProtocolMismatch
    | VersionMismatch | Duplicate | Malformed | Stale | NotAuthoritative | NotFound | IdentityMismatch

  datatype Result<+T> = Success(value: T) | Failure(status: Status)

  type u8 = x: int | 0 <= x < 0x100
  type u16 = x: int | 0 <= x < 0x1_0000
  type u32 = x: int | 0 <= x < 0x1_0000_0000
  type u64 = x: int | 0 <= x < 0x1_0000_0000_0000_0000
  type i32 = x: int | -0x8000_0000 <= x < 0x8000_0000
  type i64 = x: int | -0x8000_0000_0000_0000 <= x < 0x8000_0000_0000_0000

  /** Strings are byte strings. */
  type Bytes = seq<u8>
  type Text = Bytes

  /** Milliseconds since the Unix epoch; zero means "no time". */
  type Timestamp = i64
  const NO_TIME: Timestamp := 0

  /** The successor of a 64-bit generation, wrapping as unsigned arithmetic does. */
  function NextGeneration(g: u64): u64 {
    (g + 1) % 0x1_0000_0000_0000_0000
  }

  /** The bytes of an ASCII literal. */
  function Ascii(s: string): (t: Text)
    ensures |t| == |s|
  {
    seq(|s|, i requires 0 <= i < |s| => if s[i] < 128 as char then s[i] as int else 63)
  }

  /** The last n elements of s, or all of s when it is shorter. */
  function LastN<T>(s: seq<T>, n: nat): seq<T> {
    if |s| <= n then s else s[|s| - n..]
  }

  /** How many elements come before the first that is not good. */
  function Leading<T>(xs: seq<T>, good: T -> bool): (n: nat)
    ensures n <= |xs|
    ensures n < |xs| ==> !good(xs[n])
    ensures forall i :: 0 <= i < n ==> good(xs[i])
  {
    if xs == [] || !good(xs[0]) then 0 else 1 + Leading(xs[1..], good)
  }
}
