/** Shared vocabulary: Go's byte strings and 64-bit integers, optional values
    and results, and the suffix test of Go's `strings.HasSuffix`. */
module Prelude {

  /** A byte, written as the character with that code. */
  type Byte = c: char | c as int < 256 witness 'a'

  /** A Go `string` is a sequence of bytes. */
  type GoString = seq<Byte>

  const Min64: int := -0x8000_0000_0000_0000
  const Max64: int := 0x7FFF_FFFF_FFFF_FFFF

  /** Go's `int64`. */
  type Int64 = x: int | -0x8000_0000_0000_0000 <= x <= 0x7FFF_FFFF_FFFF_FFFF

  /** Two's-complement wrap-around of an int64 operation whose exact result is `x`. */
  function Wrap64(x: int): (r: Int64)
    ensures (r - x) % 0x1_0000_0000_0000_0000 == 0
    ensures Min64 <= x <= Max64 ==> r == x
  {
    (x + 0x8000_0000_0000_0000) % 0x1_0000_0000_0000_0000 - 0x8000_0000_0000_0000
  }

  /** Seconds from 1 January of year 1 to 1 January 1970: what Go's `time`
      package adds to a Unix time to get the seconds a `time.Time` stores. */
  const UnixToInternal: int := 62135596800

  /** The seconds stored by `time.Unix(unix, 0)`: an int64 sum, which wraps
      for the last `UnixToInternal` seconds of the int64 range. */
  function InternalSeconds(unix: Int64): (s: Int64)
    ensures unix <= Max64 - UnixToInternal ==> s == unix + UnixToInternal
    ensures unix > Max64 - UnixToInternal ==> s == unix + UnixToInternal - 0x1_0000_0000_0000_0000
  {
    Wrap64(unix + UnixToInternal)
  }

  /** `t.After(u)` for two instants on whole Unix seconds: Go compares the
      seconds they store. */
  predicate After(t: Int64, u: Int64) {
    InternalSeconds(t) > InternalSeconds(u)
  }

  /** Below the wrap-around band `After` is the order of Unix seconds. */
  lemma AfterIsLater(t: Int64, u: Int64)
    requires t <= Max64 - UnixToInternal && u <= Max64 - UnixToInternal
    ensures After(t, u) <==> t > u
  {
  }

  /** An instant in the wrap-around band stores a negative number of
      seconds, so every instant from year 1 on, up to the band, is after it. */
  lemma AfterEveryFarInstant(t: Int64, u: Int64)
    requires -UnixToInternal <= t <= Max64 - UnixToInternal
    requires u > Max64 - UnixToInternal
    ensures After(t, u)
  {
  }

  datatype Option<+T> = None | Some(value: T) {
    function GetOr(default: T): (r: T)
    {
      match this
      case Some(v) => v
      case None => default
    }
  }

  datatype Result<+T, +E> = Success(value: T) | Failure(error: E)

  /** `strings.HasSuffix(s, suffix)`. */
  predicate HasSuffix(s: string, suffix: string) {
    |suffix| <= |s| && s[|s| - |suffix|..] == suffix
  }

  /** The suffix test holds exactly when `s` is some string followed by `suffix`. */
  lemma HasSuffixIffEndsWith(s: string, suffix: string)
    ensures HasSuffix(s, suffix) <==> exists front :: s == front + suffix
  {
    if HasSuffix(s, suffix) {
      var front := s[..|s| - |suffix|];
      assert s == front + suffix;
    }
    if exists front :: s == front + suffix {
      var front :| s == front + suffix;
      assert s[|s| - |suffix|..] == suffix;
    }
  }
}
