/** Shared value types: options, checked results, instants and the text
    classes that the distribution contracts are written in. Text is a sequence
    of bytes, held as characters. */
module Basics {

  datatype Option<+T> = None | Some(value: T)

  /** The outcome of an operation whose only error is a receipt conflict. */
  datatype Checked<+T> = Ok(value: T) | Conflict

  /** Nanoseconds since the Unix epoch; a clock reading may be any value. */
  type Instant = int

  /** Nanoseconds; every duration the program computes fits 64 bits. */
  type Duration = int

  /** Whole seconds since the Unix epoch, the resolution receipts persist. */
  type Stamp = int

  const SECOND: Duration := 1_000_000_000
  const MAX_INT64: int := 0x7FFF_FFFF_FFFF_FFFF
  const MIN_INT64: int := -0x8000_0000_0000_0000

  /** The source's int64; every operation on it is proved not to overflow. */
  newtype Int64 = x: int | -0x8000_0000_0000_0000 <= x <= 0x7FFF_FFFF_FFFF_FFFF

  // The years 0000 to 9999, the only ones that the fixed timestamp layout
  // prints with four digits and therefore the only ones it reads back.
  const MIN_STAMP: Stamp := -62_167_219_200
  const MAX_STAMP: Stamp := 253_402_300_799

  function FormatTime(t: Instant): Stamp { t / SECOND }

  function ParseTime(s: Stamp): Instant { s * SECOND }

  predicate ValidStamp(s: Stamp) { MIN_STAMP <= s <= MAX_STAMP }

  /** Clock readings that the stored layout can represent. */
  predicate Representable(t: Instant) { ValidStamp(FormatTime(t)) }

  /** Go's Time.Sub: exact, but saturating at the 64-bit duration limits. */
  function Since(now: Instant, earlier: Instant): Duration {
    var d := now - earlier;
    if d > MAX_INT64 then MAX_INT64 else if d < MIN_INT64 then MIN_INT64 else d
  }

  /** Two's-complement wrap-around of a 64-bit result. */
  function Wrap64(x: int): int {
    (x - MIN_INT64) % 0x1_0000_0000_0000_0000 + MIN_INT64
  }

  function Min(a: int, b: int): int { if a <= b then a else b }

  function Max(a: int, b: int): int { if a >= b then a else b }

  predicate IsDigit(c: char) { '0' <= c <= '9' }

  predicate ControlFree(s: string) {
    forall i | 0 <= i < |s| :: s[i] as int >= 0x20 && s[i] as int != 0x7f
  }
}
