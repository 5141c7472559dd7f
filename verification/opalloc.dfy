/**
 * The pool-management engine of opalloc.c: the allocator handle, its slot
 * directory, and the operations initialise, allocate, deallocate,
 * deinitialise and get-stats, with the growth and chunk-filling helpers.
 *
 * An object is identified by the index of its slot in the directory. A
 * handle that may be NULL is an `Allocator?`.
 */
module Opalloc {
  import opened PoolSpec

  /** The allocator handle. */
  class Allocator {
    const objectSize: nat
    const initialCount: nat
    const useChunks: bool
    const useLinear: bool
    var maximumObjects: nat
    var initialized: bool
    /** The directory of slot pointers. */
    var pool: array<Slot>

    /** Number of growth steps taken since initialisation. */
    ghost var growths: nat
    /** Every offset fill_chunks was called with, in call order. */
    ghost var chunkStarts: seq<nat>

    ghost predicate Valid()
      reads this, pool
    {
      && initialCount > 0
      && pool.Length == maximumObjects
      && maximumObjects == Capacity(initialCount, useLinear, growths)
      && LayoutOk(pool[..], useChunks)
      && chunkStarts == (if useChunks then ChunkOffsets(initialCount, useLinear, growths) else [])
    }

    /**
     * Initialisation: decode the mode into the two layout flags, allocate a
     * directory of NULL slots and, in chunked layout, fill all of it as one chunk.
     */
    constructor Initialize(objectSize: nat, initialCount: nat, mode: Mode)
      requires initialCount > 0
      ensures Valid() && initialized && fresh(pool)
      ensures this.objectSize == objectSize && this.initialCount == initialCount
      ensures useChunks == mode.UsesChunks() && useLinear == mode.UsesLinear()
      ensures maximumObjects == initialCount && growths == 0
      ensures pool[..] == seq(initialCount, _ => FreshSlot(useChunks, objectSize))
      ensures chunkStarts == if useChunks then [0] else []
    {
      match mode {
        case DoublingIndividual => useChunks, useLinear := false, false;
        case DoublingChunk => useChunks, useLinear := true, false;
        case LinearIndividual => useChunks, useLinear := false, true;
        case LinearChunk => useChunks, useLinear := true, true;
      }
      this.objectSize := objectSize;
      this.initialCount := initialCount;
      maximumObjects := initialCount;
      initialized := true;
      pool := new Slot[initialCount](_ => Unallocated);
      growths := 0;
      chunkStarts := [];
      new;
      if useChunks {
        FillChunks(0, maximumObjects);
      }
    }

    /** Point slots [offset, offset + objectCount) at the entries of one fresh zero-filled chunk. */
    method FillChunks(offset: nat, objectCount: nat)
      requires offset + objectCount <= pool.Length
      modifies pool, this`chunkStarts
      ensures forall j :: 0 <= j < pool.Length ==>
        pool[j] == if offset <= j < offset + objectCount then Entry(false, Zeros(objectSize)) else old(pool[j])
      ensures chunkStarts == old(chunkStarts) + [offset]
    {
      for i := 0 to objectCount
        modifies pool
        invariant forall j :: 0 <= j < pool.Length ==>
          pool[j] == if offset <= j < offset + i then Entry(false, Zeros(objectSize)) else old(pool[j])
      {
        pool[i + offset] := Entry(false, Zeros(objectSize));
      }
      chunkStarts := chunkStarts + [offset];
    }

    /**
     * One growth step: a larger directory holding the old slots followed by
     * NULLs, filled as one new chunk in chunked layout.
     */
    method GrowPool()
      requires Valid()
      modifies this`pool, this`maximumObjects, this`growths, this`chunkStarts
      ensures Valid() && fresh(pool)
      ensures growths == old(growths) + 1
      ensures maximumObjects == NextCapacity(initialCount, useLinear, old(maximumObjects))
      ensures pool[..] == Grown(old(pool[..]), initialCount, useLinear, FreshSlot(useChunks, objectSize))
    {
      var oldSize := maximumObjects;
      var newSize, growSize;
      if useLinear {
        growSize := initialCount;
        newSize := oldSize + growSize;
      } else {
        growSize := oldSize;
        newSize := oldSize * 2;
      }
      ghost var before := pool[..];
      ghost var expected := Grown(before, initialCount, useLinear, FreshSlot(useChunks, objectSize));

      // the reallocated directory keeps the old slots
      var newPool := new Slot[newSize];
      for i := 0 to oldSize
        modifies newPool
        invariant newPool[..i] == before[..i]
      {
        newPool[i] := pool[i];
      }
      for i := oldSize to newSize
        modifies newPool
        invariant newPool[..oldSize] == before
        invariant forall j :: oldSize <= j < i ==> newPool[j] == Unallocated
      {
        newPool[i] := Unallocated;
      }
      pool := newPool;
      maximumObjects := newSize;
      growths := growths + 1;
      if useChunks {
        FillChunks(oldSize, growSize);
      }
      assert pool[..] == expected by {
        forall j | 0 <= j < newSize ensures pool[j] == expected[j] {
          if j < oldSize {
            assert newPool[..oldSize][j] == before[j];
          }
        }
      }
      GrownKeepsLayout(before, initialCount, useLinear, useChunks, objectSize);
    }

    /**
     * The first-fit scan: hand out the lowest slot that is NULL (materialising
     * an entry there) or holds an entry not in use, zeroing its payload.
     */
    method ClaimFirstFree() returns (obj: Option<nat>)
      requires Valid()
      modifies pool
      ensures Valid()
      ensures obj == FirstFree(old(pool[..]))
      ensures pool[..] == if obj.Some? then old(pool[..])[obj.value := Entry(true, Zeros(objectSize))] else old(pool[..])
    {
      ghost var before := pool[..];
      obj := None;
      for i := 0 to maximumObjects
        invariant pool[..] == before
        invariant forall j :: 0 <= j < i ==> !IsFree(before[j])
      {
        if pool[i].Unallocated? {
          pool[i] := Entry(true, Zeros(objectSize));
          obj := Some(i);
          break;
        } else if !pool[i].inUse {
          pool[i] := Entry(true, Zeros(objectSize));
          obj := Some(i);
          break;
        }
      }
      if obj.Some? {
        ClaimKeepsLayout(before, useChunks, obj.value, Zeros(objectSize));
      }
    }

    /**
     * The body of allocation on an initialised handle: scan; when the scan
     * finds nothing, grow and scan again. The retry always succeeds, so the
     * loop runs at most twice.
     */
    method ClaimOrGrow() returns (k: nat)
      requires Valid()
      modifies this`pool, this`maximumObjects, this`growths, this`chunkStarts, pool
      ensures Valid() && (pool == old(pool) || fresh(pool))
      ensures Allocation(k, pool[..]) == AllocateStep(old(pool[..]), initialCount, useLinear, useChunks, objectSize)
      ensures growths == old(growths) + (if FirstFree(old(pool[..])).None? then 1 else 0)
    {
      ghost var before := pool[..];
      ghost var step := AllocateStep(before, initialCount, useLinear, useChunks, objectSize);
      var obj := ClaimFirstFree();
      ghost var retried := false;
      while obj.None?
        invariant Valid()
        invariant pool == old(pool) || fresh(pool)
        invariant obj.None? ==> !retried && FirstFree(before).None? && pool[..] == before && growths == old(growths)
        invariant obj.Some? ==> Allocation(obj.value, pool[..]) == step
        invariant obj.Some? ==> growths == old(growths) + (if FirstFree(before).None? then 1 else 0)
        decreases if retried then 0 else 1
      {
        GrowPool();
        GrowthMakesRoom(before, initialCount, useLinear, useChunks, objectSize);
        retried := true;
        obj := ClaimFirstFree();
      }
      k := obj.value;
    }
  }

  /**
   * Allocation: on an initialised handle, the first-fit scan with one retry
   * after growth. A null or uninitialised handle reports to the error hook and
   * yields no object.
   */
  method AllocateObject(a: Allocator?) returns (obj: Option<nat>, errors: seq<ErrorReport>)
    requires a != null ==> a.Valid()
    modifies a, if a != null then {a.pool} else {}
    ensures a != null ==> a.Valid() && a.initialized == old(a.initialized)
    ensures a != null ==> a.pool == old(a.pool) || fresh(a.pool)
    ensures a == null || !old(a.initialized) ==>
      && obj == None
      && errors == [AllocateUninitialized, ObjectNotAllocated]
      && (a != null ==> a.pool == old(a.pool) && unchanged(a, a.pool))
    ensures a != null && old(a.initialized) ==>
      && errors == []
      && obj.Some?
      && Allocation(obj.value, a.pool[..]) == AllocateStep(old(a.pool[..]), a.initialCount, a.useLinear, a.useChunks, a.objectSize)
      && a.growths == old(a.growths) + (if FirstFree(old(a.pool[..])).None? then 1 else 0)
  {
    if a != null && a.initialized {
      errors := [];
      var k := a.ClaimOrGrow();
      obj := Some(k);
    } else {
      obj := None;
      errors := [AllocateUninitialized, ObjectNotAllocated];
    }
  }

  /**
   * Deallocation: scan for the slot holding the object and mark it not in use.
   * A null handle or null object reports to the error hook and changes nothing.
   * The scan dereferences every slot before the object's, so the object must
   * be a backed slot, or the directory must hold no NULL.
   */
  method DeallocateObject(a: Allocator?, obj: Option<nat>) returns (errors: seq<ErrorReport>)
    requires a != null ==> a.Valid()
    requires a != null && obj.Some? ==>
      a.initialized && ((obj.value < a.pool.Length && a.pool[obj.value].Entry?) || AllBacked(a.pool[..]))
    modifies if a != null then {a.pool} else {}
    ensures a != null ==> a.Valid()
    ensures a == null || obj.None? ==>
      errors == [DeallocateInvalid] && (a != null ==> a.pool[..] == old(a.pool[..]))
    ensures a != null && obj.Some? ==>
      && errors == []
      && a.pool[..] == Released(old(a.pool[..]), obj.value)
      && ActiveCount(a.pool[..]) == ActiveCount(old(a.pool[..])) - (if obj.value < a.pool.Length && old(InUse(a.pool[obj.value])) then 1 else 0)
  {
    if a != null && obj.Some? {
      errors := [];
      ghost var before := a.pool[..];
      ReleasedActiveCount(before, obj.value);
      ReleaseKeepsLayout(before, a.useChunks, obj.value);
      var i := 0;
      while i < a.maximumObjects
        invariant i <= a.maximumObjects && i <= obj.value
        invariant a.pool[..] == before
      {
        // the scan reads the entry behind every slot it visits
        assert a.pool[i].Entry?;
        if i == obj.value {
          a.pool[i] := Entry(false, a.pool[i].payload);
          return;
        }
        i := i + 1;
      }
    } else {
      errors := [DeallocateInvalid];
    }
  }

  /**
   * Deinitialisation: clear the initialised flag, then release the slot
   * storage. Individual layout frees every slot; chunked layout frees the
   * chunk starts, found by stepping by the initial count (linear) or by
   * doubling from the initial count (doubling). `freed` lists the slot
   * indices passed to free, in order.
   */
  method DeinitializeAllocator(a: Allocator?) returns (freed: seq<nat>, errors: seq<ErrorReport>)
    requires a != null ==> a.Valid()
    modifies a
    ensures a != null ==> a.Valid() && !a.initialized
    ensures a != null ==>
      && a.pool == old(a.pool)
      && a.maximumObjects == old(a.maximumObjects)
      && a.growths == old(a.growths)
      && a.chunkStarts == old(a.chunkStarts)
    ensures a == null || !old(a.initialized) ==>
      freed == [] && errors == [DeinitializeUninitialized]
    ensures a != null && old(a.initialized) ==>
      && errors == []
      && freed == if a.useChunks then a.chunkStarts else seq(a.maximumObjects, i => i)
  {
    freed := [];
    if a != null && a.initialized {
      errors := [];
      a.initialized := false;
      var max := a.maximumObjects;
      ghost var n := a.growths;
      ghost var offsets := ChunkOffsets(a.initialCount, a.useLinear, n);
      if a.useChunks {
        if a.useLinear {
          var i := 0;
          while i < max
            modifies {}
            invariant |freed| <= n + 1
            invariant freed == offsets[..|freed|]
            invariant i == if |freed| == 0 then 0 else Capacity(a.initialCount, true, |freed| - 1)
          {
            if |freed| == n + 1 {
              assert false;
            }
            ChunkOffsetAt(a.initialCount, true, n, |freed|);
            freed := freed + [i];
            i := i + a.initialCount;
          }
          if |freed| <= n {
            if |freed| > 0 {
              CapacityIncreasing(a.initialCount, true, |freed| - 1, n);
            }
            assert false;
          }
        } else {
          ChunkOffsetAt(a.initialCount, false, n, 0);
          freed := [0];
          var i := a.initialCount;
          while i < max
            modifies {}
            invariant 1 <= |freed| <= n + 1
            invariant freed == offsets[..|freed|]
            invariant i == Capacity(a.initialCount, false, |freed| - 1)
          {
            if |freed| == n + 1 {
              assert false;
            }
            ChunkOffsetAt(a.initialCount, false, n, |freed|);
            freed := freed + [i];
            i := i * 2;
          }
          if |freed| <= n {
            CapacityIncreasing(a.initialCount, false, |freed| - 1, n);
            assert false;
          }
        }
        assert freed == offsets;
      } else {
        for i := 0 to max
          modifies {}
          invariant freed == seq(i, j => j)
        {
          freed := freed + [i];
        }
      }
    } else {
      errors := [DeinitializeUninitialized];
    }
  }

  /**
   * Statistics: zeros for a null or uninitialised handle; otherwise the object
   * size, the capacity, and the in-use entries counted up to the first NULL
   * slot, which is every in-use entry because the layout has no gaps.
   */
  method GetAllocatorStats(a: Allocator?) returns (stats: Stats)
    requires a != null ==> a.Valid()
    ensures a == null || !a.initialized ==> stats == Stats(0, 0, 0)
    ensures a != null && a.initialized ==>
      stats == Stats(a.objectSize, a.maximumObjects, ActiveCount(a.pool[..]))
  {
    stats := Stats(0, 0, 0);
    if a != null && a.initialized {
      var count := 0;
      var i := 0;
      while i < a.maximumObjects && a.pool[i].Entry?
        invariant i <= a.maximumObjects
        invariant count == ActiveCount(a.pool[..i])
      {
        assert a.pool[..i + 1][..i] == a.pool[..i];
        if a.pool[i].inUse {
          count := count + 1;
        }
        i := i + 1;
      }
      ActiveCountIdleTail(a.pool[..], i);
      stats := Stats(a.objectSize, a.maximumObjects, count);
    }
  }
}
