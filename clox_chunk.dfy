/** The growable code buffer of clox/chunk.c: `count` bytes in use out of `capacity`,
    grown with `GROW_CAPACITY` when full. A NULL `code` pointer is the empty array. */
module CloxChunk {
  import opened Wrappers
  import opened CloxMemory

  /** The instructions declared in clox/chunk.h, numbered in declaration order. */
  datatype OpCode = OpConstant | OpAdd | OpSubtract | OpMultiply | OpDivide | OpNegate | OpReturn

  function Code(op: OpCode): byte
  {
    match op
    case OpConstant => 0  case OpAdd => 1     case OpSubtract => 2  case OpMultiply => 3
    case OpDivide => 4    case OpNegate => 5  case OpReturn => 6
  }

  /** The instruction a code byte stands for, if any. */
  function OpOf(b: byte): Option<OpCode>
  {
    match b
    case 0 => Some(OpConstant)  case 1 => Some(OpAdd)     case 2 => Some(OpSubtract)
    case 3 => Some(OpMultiply)  case 4 => Some(OpDivide)  case 5 => Some(OpNegate)
    case 6 => Some(OpReturn)    case _ => None
  }

  /** The capacity after one `writeChunk` into a chunk with `capacity` and `count`. */
  function NextCapacity(capacity: int, count: int): int
  {
    if capacity < count + 1 then GrowCapacity(capacity) else capacity
  }

  /** The capacity of a freshly initialised chunk after `n` writes. */
  function CapacityAfter(n: nat): int
  {
    if n == 0 then 0 else NextCapacity(CapacityAfter(n - 1), n - 1)
  }

  /** The chunk never holds more than twice the bytes it needs, once past the first 8. */
  predicate Compact(capacity: int, count: int)
  {
    capacity <= 8 || capacity < 2 * count
  }

  class Chunk {
    var count: int
    var capacity: int
    var code: array<byte>

    ghost predicate Valid()
      reads this
    {
      0 <= count <= capacity && code.Length == capacity && Compact(capacity, count)
    }

    /** The bytes written so far. */
    ghost function Contents(): seq<byte>
      reads this, code
      requires Valid()
    {
      code[..count]
    }

    /** A chunk declared and passed to `initChunk`. */
    constructor ()
      ensures Valid() && count == 0 && capacity == 0 && Contents() == []
    {
      count := 0;
      capacity := 0;
      code := new byte[0];
    }

    /** `initChunk`: no bytes, no capacity, no buffer. */
    method Init()
      modifies this
      ensures Valid() && count == 0 && capacity == 0 && Contents() == []
    {
      count := 0;
      capacity := 0;
      code := new byte[0];
    }

    /** `writeChunk`: appends `b`, first growing the buffer to `GROW_CAPACITY(capacity)`
        when it is full. Bytes already written are kept. */
    method Write(b: byte)
      requires Valid()
      modifies this, code
      ensures Valid()
      ensures Contents() == old(Contents()) + [b]
      ensures count == old(count) + 1
      ensures capacity == NextCapacity(old(capacity), old(count))
      ensures old(capacity) < old(count) + 1 ==> old(count) == old(capacity) && fresh(code)
      ensures old(capacity) >= old(count) + 1 ==> code == old(code)
    {
      if capacity < count + 1 {
        var oldCapacity := capacity;
        capacity := GrowCapacity(oldCapacity);
        code := GrowBytes(code, oldCapacity, capacity);
      }
      code[count] := b;
      count := count + 1;
    }

    /** `freeChunk`: releases the buffer (`FREE_ARRAY`) and reinitialises the chunk. */
    method Free()
      requires Valid()
      modifies this
      ensures Valid() && count == 0 && capacity == 0 && Contents() == []
    {
      Init();
    }
  }

  /** `GROW_ARRAY(byte, code, oldCount, newCount)` on a growing request: a new buffer of
      `newCount` bytes holding the first `oldCount` bytes of the old one. */
  method GrowBytes(a: array<byte>, oldCount: nat, newCount: nat) returns (r: array<byte>)
    requires oldCount <= a.Length && oldCount <= newCount
    ensures fresh(r) && r.Length == newCount
    ensures r[..oldCount] == a[..oldCount]
  {
    r := new byte[newCount];
    for i := 0 to oldCount
      invariant r[..i] == a[..i]
    {
      r[i] := a[i];
    }
  }

  // ---------------------------------------------------------------------------------
  // Properties

  /** Decoding inverts the numbering, and only the bytes 0..6 are instructions. */
  lemma OpCodeRoundTrip(op: OpCode, b: byte)
    ensures OpOf(Code(op)) == Some(op)
    ensures OpOf(b).Some? <==> b < 7
    ensures OpOf(b).Some? ==> Code(OpOf(b).value) == b
  {
  }

  /** One write keeps room for every byte and keeps the buffer compact. */
  lemma NextCapacityKeepsInvariant(capacity: int, count: int)
    requires 0 <= count <= capacity && Compact(capacity, count)
    ensures count + 1 <= NextCapacity(capacity, count)
    ensures Compact(NextCapacity(capacity, count), count + 1)
    ensures capacity == count <==> NextCapacity(capacity, count) != capacity
  {
  }

  /** After `n` writes into a fresh chunk the capacity is 0 (no write yet) or 8 times a
      power of two, it holds the `n` bytes, and it is no more than twice what they need
      beyond the first 8. */
  lemma {:induction false} CapacityAfterWrites(n: nat)
    ensures n == 0 <==> CapacityAfter(n) == 0
    ensures n <= CapacityAfter(n) && Compact(CapacityAfter(n), n)
    ensures n >= 1 ==> exists k: nat :: k < n && CapacityAfter(n) == 8 * Pow2(k)
  {
    if n >= 1 {
      CapacityAfterWrites(n - 1);
      var c := CapacityAfter(n - 1);
      if n == 1 {
        assert CapacityAfter(n) == 8 * Pow2(0);
      } else {
        var k: nat :| k < n - 1 && c == 8 * Pow2(k);
        if c < n {
          assert CapacityAfter(n) == 8 * Pow2(k + 1);
        } else {
          assert CapacityAfter(n) == 8 * Pow2(k);
        }
      }
    }
  }

  /** Capacities grow only at a full buffer, so a fresh chunk grows exactly at counts 0, 8,
      16, 32, ... */
  lemma GrowsOnlyWhenFull(count: nat)
    ensures CapacityAfter(count + 1) != CapacityAfter(count) <==> CapacityAfter(count) == count
  {
    CapacityAfterWrites(count);
  }
}
