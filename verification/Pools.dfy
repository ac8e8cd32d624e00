/** The application-wide counters as the objects the handlers update. */
module Pools {
  import opened Words
  import opened CpuControl
  import opened MemControl

  class CpuPool {
    var sliceSize: Word
    var unallocatedRt: Word
    var totalCpu: Word
    var overrun: Word
    var allocRt: Word

    ghost function View(): CpuCounters
      reads this
    {
      CpuCounters(sliceSize, unallocatedRt, totalCpu, overrun, allocRt)
    }

    constructor (slice: Word)
      ensures View() == CpuCounters(slice, 0, 0, 0, 0)
    {
      sliceSize, unallocatedRt, totalCpu, overrun, allocRt := slice, 0, 0, 0, 0;
    }

    method DecrUnallocatedRt(decr: Word)
      modifies this
      ensures View() == old(View()).(unalloc := SatSub(old(unallocatedRt), decr))
    {
      if Signed(unallocatedRt) - Signed(decr) < 0 {
        unallocatedRt := 0;
      } else {
        unallocatedRt := Wrap(unallocatedRt - decr);
      }
    }

    method IncrUnallocatedRt(incr: Word)
      modifies this
      ensures View() == old(View()).(unalloc := AddWord(old(unallocatedRt), incr))
    {
      unallocatedRt := Wrap(unallocatedRt + incr);
    }

    method SetUnallocatedRt(val: Word)
      modifies this
      ensures View() == old(View()).(unalloc := val)
    {
      unallocatedRt := val;
    }

    method SetTotalCpu(val: Word)
      modifies this
      ensures View() == old(View()).(total := val)
    {
      totalCpu := val;
    }

    method IncrOverrun(incr: Word)
      modifies this
      ensures View() == old(View()).(overrun := AddWord(old(overrun), incr))
    {
      overrun := Wrap(overrun + incr);
    }

    method DecrOverrun(decr: Word)
      modifies this
      ensures View() == old(View()).(overrun := SatSub(old(overrun), decr))
    {
      if Signed(overrun) - Signed(decr) < 0 {
        overrun := 0;
      } else {
        overrun := Wrap(overrun - decr);
      }
    }

    method IncrAllocRt(incr: Word)
      modifies this
      ensures View() == old(View()).(alloc := AddWord(old(allocRt), incr))
    {
      allocRt := Wrap(allocRt + incr);
    }

    method DecrAllocRt(decr: Word)
      modifies this
      ensures View() == old(View()).(alloc := SatSub(old(allocRt), decr))
    {
      if Signed(allocRt) - Signed(decr) < 0 {
        allocRt := 0;
      } else {
        allocRt := Wrap(allocRt - decr);
      }
    }
  }

  class MemPool {
    var memoryLimit: nat
    var sliceSize: nat
    var unallocatedPages: int
    var allocatedPages: int

    ghost function View(): MemCounters
      reads this
    {
      MemCounters(memoryLimit, unallocatedPages, allocatedPages, sliceSize)
    }

    constructor (slice: nat)
      ensures View() == MemCounters(0, 0, 0, slice)
    {
      memoryLimit, sliceSize, unallocatedPages, allocatedPages := 0, slice, 0, 0;
    }

    method SetMemoryLimit(pages: nat)
      modifies this
      ensures View() == old(View()).(limit := pages)
    {
      memoryLimit := pages;
    }

    method SetUnallocated(pages: int)
      modifies this
      ensures View() == old(View()).(unalloc := pages)
    {
      unallocatedPages := pages;
    }

    method SetAllocated(pages: int)
      modifies this
      ensures View() == old(View()).(alloc := pages)
    {
      allocatedPages := pages;
    }

    method IncrUnallocated(pages: nat)
      modifies this
      ensures View() == old(View()).(unalloc := old(unallocatedPages) + pages)
    {
      unallocatedPages := unallocatedPages + pages;
    }

    method DecrUnallocated(pages: nat)
      modifies this
      ensures View() == old(View()).(unalloc := NonNegative(old(unallocatedPages) - pages))
    {
      var result := unallocatedPages - pages;
      unallocatedPages := if result < 0 then 0 else result;
    }

    method IncrAllocated(pages: nat)
      modifies this
      ensures View() == old(View()).(alloc := old(allocatedPages) + pages)
    {
      allocatedPages := allocatedPages + pages;
    }

    method DecrAllocated(pages: nat)
      modifies this
      ensures View() == old(View()).(alloc := NonNegative(old(allocatedPages) - pages))
    {
      var result := allocatedPages - pages;
      allocatedPages := if result < 0 then 0 else result;
    }

    /** Pages move from the pool to a container. */
    method UpdateAlloc(pages: nat)
      modifies this
      ensures View() == Charge(old(View()), pages)
    {
      DecrUnallocated(pages);
      IncrAllocated(pages);
    }

    /** Pages move from containers back to the pool. */
    method UpdateReclaim(pages: nat)
      modifies this
      ensures View() == Credit(old(View()), pages)
    {
      IncrUnallocated(pages);
      DecrAllocated(pages);
    }
  }
}
