/** Shared wrappers and the integer widths of the source program. */
module Common {

  datatype Option<+T> = None | Some(value: T)

  datatype Result<+T, +E> = Ok(value: T) | Err(error: E)

  // Go's uint64 range and SQLite's signed integer range.
  const TWO64: nat := 0x1_0000_0000_0000_0000
  const MAX_UINT64: nat := 0xFFFF_FFFF_FFFF_FFFF
  const MAX_INT64: nat := 0x7FFF_FFFF_FFFF_FFFF

  /** Unsigned 64-bit addition and subtraction, wrapping as in Go. */
  function AddU64(a: nat, b: nat): nat {
    (a + b) % TWO64
  }

  function SubU64(a: nat, b: nat): nat
    requires a <= MAX_UINT64 && b <= MAX_UINT64
  {
    (a + TWO64 - b) % TWO64
  }

  /** The end of the batch that starts at `from`, as every range loop computes it. */
  function BatchEnd(from: nat, batchSize: nat, last: nat): nat
    requires from <= last <= MAX_UINT64 && 1 <= batchSize <= MAX_UINT64
  {
    var to := SubU64(AddU64(from, batchSize), 1);
    if to < from || to > last then last else to
  }

  /** The wrap test picks exactly the batch a wide integer would have given. */
  lemma BatchEndDoesNotWrap(from: nat, batchSize: nat, last: nat)
    requires from <= last <= MAX_UINT64 && 1 <= batchSize <= MAX_UINT64
    ensures var to := BatchEnd(from, batchSize, last);
            && to == (if from + batchSize - 1 > last then last else from + batchSize - 1)
            && from <= to <= last && to - from + 1 <= batchSize
  {
    var sum := from + batchSize;
    if sum < TWO64 {
      assert AddU64(from, batchSize) == sum;
      assert SubU64(sum, 1) == sum - 1;
    } else {
      assert AddU64(from, batchSize) == sum - TWO64;
    }
  }
}
