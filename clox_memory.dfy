/** The allocation macros of clox/memory.h. `reallocate` itself (memory.c) is not part of
    this model: a call of it is represented by the sizes it is asked for. */
module CloxMemory {
  /** `uint8_t`, the element type of the code buffer. */
  newtype byte = x: int | 0 <= x < 256

  /** `GROW_CAPACITY`: the next capacity of a growable array. */
  function GrowCapacity(capacity: int): (r: int)
    ensures r >= 8
  {
    if capacity < 8 then 8 else capacity * 2
  }

  /** A request to `reallocate(pointer, oldSize, newSize)`, in bytes. */
  datatype Reallocation = Reallocation(oldSize: int, newSize: int)

  /** `GROW_ARRAY(type, pointer, oldCount, newCount)` for elements of `elementSize` bytes. */
  function GrowArray(elementSize: nat, oldCount: int, newCount: int): Reallocation
  {
    Reallocation(oldCount * elementSize, newCount * elementSize)
  }

  /** `FREE_ARRAY(type, pointer, oldCount)`. */
  function FreeArray(elementSize: nat, oldCount: int): Reallocation
  {
    Reallocation(oldCount * elementSize, 0)
  }

  // ---------------------------------------------------------------------------------
  // Properties

  /** Below 8 the capacity jumps to 8; from 8 on it doubles. */
  lemma GrowCapacityCases(c: int)
    ensures c < 8 ==> GrowCapacity(c) == 8
    ensures c >= 8 ==> GrowCapacity(c) == 2 * c
  {
  }

  /** Growing always makes room: for a non-negative capacity the new one is at least 8 and
      strictly larger, and it at most doubles anything from 4 on. */
  lemma GrowCapacityGrows(c: nat)
    ensures GrowCapacity(c) > c
    ensures c >= 4 ==> GrowCapacity(c) <= 2 * c
  {
  }

  /** Growing from 0 repeatedly gives 8, 16, 32, ...: every capacity reached is 8 times a
      power of two. */
  function GrownFromZero(n: nat): (c: int)
    ensures c >= 0
  {
    if n == 0 then 0 else GrowCapacity(GrownFromZero(n - 1))
  }

  function Pow2(k: nat): (p: nat)
    ensures p >= 1
  {
    if k == 0 then 1 else 2 * Pow2(k - 1)
  }

  lemma {:induction false} GrownFromZeroIsPowerOfTwo(n: nat)
    requires n >= 1
    ensures GrownFromZero(n) == 8 * Pow2(n - 1)
  {
    if n > 1 {
      GrownFromZeroIsPowerOfTwo(n - 1);
    }
  }

  /** The element count a request is for: the request scales both counts by the element
      size, and freeing is growing to zero elements. */
  lemma ArrayRequests(elementSize: nat, oldCount: int, newCount: int)
    ensures GrowArray(elementSize, oldCount, newCount).newSize == newCount * elementSize
    ensures GrowArray(elementSize, oldCount, newCount).oldSize == FreeArray(elementSize, oldCount).oldSize
    ensures FreeArray(elementSize, oldCount) == GrowArray(elementSize, oldCount, 0)
    ensures FreeArray(elementSize, oldCount).newSize == 0
  {
  }
}
