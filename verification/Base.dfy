/** Shared vocabulary: optional values, results, error numbers, bytes and the integer widths
    the kernel saturates at. */
module Base {
  datatype Option<+T> = None | Some(value: T)

  datatype Result<+T, +E> = Ok(value: T) | Err(error: E)

  /** The error numbers the modelled code tells apart. */
  datatype Errno =
    | AGAIN | BADF | CHILD | EXIST | FAULT | INTR | INVAL | ISDIR | LOOP | MFILE | NAMETOOLONG
    | NODEV | NOENT | NOEXEC | NOMEM | NOSYS | NOTDIR | NOTEMPTY | PIPE | ROFS | SRCH | TOOBIG

  type byte = x: int | 0 <= x < 256

  const U32_MAX: nat := 0xFFFF_FFFF
  const U64_MAX: nat := 0xFFFF_FFFF_FFFF_FFFF
  const I32_MAX: nat := 0x7FFF_FFFF

  function Min(a: int, b: int): int {
    if a <= b then a else b
  }

  function Max(a: int, b: int): int {
    if a <= b then b else a
  }

  function Unit(b: bool): nat {
    if b then 1 else 0
  }

  /** `a.saturating_add(b)` on a `u32`. */
  function AddU32(a: nat, b: nat): nat {
    Min(a + b, U32_MAX)
  }

  /** `a.saturating_add(b)` on a `u64`. */
  function AddU64(a: nat, b: nat): nat {
    Min(a + b, U64_MAX)
  }

  /** `a.saturating_sub(b)` on any unsigned width. */
  function SubSat(a: nat, b: nat): nat {
    if a <= b then 0 else a - b
  }
}
