/** The inventory counter: a 32-bit number that is read and changed only under its lock. */
module AtomicCounters {

  /** Two's complement wrap-around of int32 arithmetic. */
  function Wrap32(x: int): int {
    (x + 0x8000_0000) % 0x1_0000_0000 - 0x8000_0000
  }

  /** The one int32 that differs from x by a multiple of 2^32. */
  lemma Wrap32Exact(x: int, r: int)
    ensures Wrap32(x) == r <==> -0x8000_0000 <= r < 0x8000_0000 && (x - r) % 0x1_0000_0000 == 0
  {
  }

  class AtomicCounter {
    var isLocked: bool
    var count: int

    constructor (count: int)
      requires -0x8000_0000 <= count < 0x8000_0000
      ensures this.count == count && !isLocked
    {
      this.count, isLocked := count, false;
    }

    method Lock()
      requires !isLocked
      modifies this`isLocked
      ensures isLocked
    {
      isLocked := true;
    }

    method Unlock()
      requires isLocked
      modifies this`isLocked
      ensures !isLocked
    {
      isLocked := false;
    }

    method AtomicAdd(delta: int) returns (value: int, ok: bool)
      modifies this`count
      ensures ok == isLocked && count == (if ok then Wrap32(old(count) + delta) else old(count))
      ensures value == if ok then count else -1
    {
      if !isLocked {
        return -1, false;
      }
      count := Wrap32(count + delta);
      value, ok := count, true;
    }

    method AtomicRead() returns (value: int, ok: bool)
      ensures ok == isLocked && value == if ok then count else -1
    {
      if !isLocked {
        return -1, false;
      }
      value, ok := count, true;
    }
  }
}
