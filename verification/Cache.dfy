/** The counted caches (memory_cache.c): two wrapping counters bound the units outstanding. */
module Caches {
  import opened Words

  class MemoryCache {
    const unit: U64        // cache_unit
    var allocCnt: U64
    var freeCnt: U64
    ghost var out: int     // units outstanding

    // The counters agree with the units outstanding, however often they have wrapped around.
    ghost predicate Counts()
      reads this
    {
      (allocCnt - freeCnt) % TWO64 == out % TWO64
    }

    constructor (unit: U64)
      ensures this.unit == unit && Counts() && out == 0
    {
      this.unit, allocCnt, freeCnt, out := unit, 0, 0, 0;
    }

    method Alloc() returns (ok: bool)
      requires Counts() && 0 <= out <= unit
      modifies this
      ensures Counts() && ok == (old(out) < unit) && out == old(out) + if ok then 1 else 0
    {
      ok := Sub64(Add64(freeCnt, unit), allocCnt) > 0;
      FreeUnits(allocCnt, freeCnt, unit, out);
      if ok {
        allocCnt := Add64(allocCnt, 1);
        out := out + 1;
      }
    }

    method Free()
      requires Counts()
      modifies this
      ensures Counts() && out == old(out) - 1
    {
      freeCnt := Add64(freeCnt, 1);
      out := out - 1;
    }
  }

  // The code's unsigned comparison counts the free units exactly.
  lemma FreeUnits(alloc: U64, free: U64, unit: U64, out: int)
    requires 0 <= out <= unit && (alloc - free) % TWO64 == out % TWO64
    ensures Sub64(Add64(free, unit), alloc) == unit - out
  {
    var d := Sub64(alloc, free);
    assert d == out;
  }
}
