/**
 * The usage scenarios of the engine's test suite, as clients of the engine's
 * contracts: a pool of four objects is driven through allocations,
 * deallocations and deinitialisation, and the statistics, reused slots and
 * released chunk starts are stated exactly.
 */
module OpallocScenarios {
  import opened PoolSpec
  import opened Opalloc

  /**
   * A directory after m allocations and no deallocation: the first m slots are
   * in-use zeroed entries, the rest are as initialisation and growth left them.
   */
  ghost predicate Packed(s: seq<Slot>, m: nat, chunks: bool, objectSize: nat) {
    && m <= |s|
    && forall i :: 0 <= i < |s| ==>
         s[i] == if i < m then Entry(true, Zeros(objectSize)) else FreshSlot(chunks, objectSize)
  }

  /** On a packed directory, allocation hands out slot m and leaves the directory packed with m + 1 objects. */
  lemma PackedAllocate(s: seq<Slot>, m: nat, initialCount: nat, linear: bool, chunks: bool, objectSize: nat)
    requires initialCount > 0 && |s| >= initialCount
    requires Packed(s, m, chunks, objectSize)
    ensures FirstFree(s).None? <==> m == |s|
    ensures AllocateStep(s, initialCount, linear, chunks, objectSize).slot == m
    ensures Packed(AllocateStep(s, initialCount, linear, chunks, objectSize).directory, m + 1, chunks, objectSize)
  {
    assert LayoutOk(s, chunks) by {
      if !chunks {
        forall i, j | 0 <= i < j < |s| && s[j].Entry? ensures s[i].Entry? {
          assert j < m;
        }
      }
    }
    if m < |s| {
      assert IsFree(s[m]);
    }
    AllocateStepProperties(s, initialCount, linear, chunks, objectSize);
  }

  lemma {:induction false} PackedActiveCount(s: seq<Slot>, m: nat, chunks: bool, objectSize: nat)
    requires Packed(s, m, chunks, objectSize)
    ensures ActiveCount(s) == m
  {
    if s != [] {
      var n := |s| - 1;
      PackedActiveCount(s[..n], if m <= n then m else n, chunks, objectSize);
    }
  }

  /** One allocation step moves the least growth count from m objects to m + 1 objects. */
  lemma GrowthsNeededStep(initialCount: nat, linear: bool, m: nat)
    requires initialCount > 0
    ensures var g := GrowthsNeeded(initialCount, linear, 0, m);
      GrowthsNeeded(initialCount, linear, 0, m + 1)
        == if m < Capacity(initialCount, linear, g) then g else g + 1
  {
    var g := GrowthsNeeded(initialCount, linear, 0, m);
    if m < Capacity(initialCount, linear, g) {
      GrowthsNeededIs(initialCount, linear, 0, m + 1, g);
    } else {
      CapacityIncreasing(initialCount, linear, g, g + 1);
      GrowthsNeededIs(initialCount, linear, 0, m + 1, g + 1);
    }
  }

  /** Allocation on a packed directory whose growth count is the least that fits m objects. */
  lemma PackedAllocateGrowths(s: seq<Slot>, m: nat, g: nat, initialCount: nat, linear: bool, chunks: bool, objectSize: nat)
    requires initialCount > 0 && |s| == Capacity(initialCount, linear, g)
    requires g == GrowthsNeeded(initialCount, linear, 0, m)
    requires Packed(s, m, chunks, objectSize)
    ensures AllocateStep(s, initialCount, linear, chunks, objectSize).slot == m
    ensures Packed(AllocateStep(s, initialCount, linear, chunks, objectSize).directory, m + 1, chunks, objectSize)
    ensures GrowthsNeeded(initialCount, linear, 0, m + 1) == g + (if FirstFree(s).None? then 1 else 0)
  {
    PackedAllocate(s, m, initialCount, linear, chunks, objectSize);
    GrowthsNeededStep(initialCount, linear, m);
  }

  /** One allocation on a packed pool hands out the next slot and keeps it packed. */
  method AllocateNext(a: Allocator, ghost m: nat) returns (obj: nat)
    requires a.Valid() && a.initialized
    requires Packed(a.pool[..], m, a.useChunks, a.objectSize)
    requires a.growths == GrowthsNeeded(a.initialCount, a.useLinear, 0, m)
    modifies a, a.pool
    ensures a.Valid() && a.initialized && (a.pool == old(a.pool) || fresh(a.pool))
    ensures Packed(a.pool[..], m + 1, a.useChunks, a.objectSize)
    ensures a.growths == GrowthsNeeded(a.initialCount, a.useLinear, 0, m + 1)
    ensures obj == m
  {
    PackedAllocateGrowths(a.pool[..], m, a.growths, a.initialCount, a.useLinear, a.useChunks, a.objectSize);
    var r, errors := AllocateObject(a);
    obj := r.value;
  }

  /** Allocate n objects in a row, as the test cases do; they are the next n slots. */
  method AllocateMany(a: Allocator, n: nat, ghost m: nat) returns (objs: seq<nat>)
    requires a.Valid() && a.initialized
    requires Packed(a.pool[..], m, a.useChunks, a.objectSize)
    requires a.growths == GrowthsNeeded(a.initialCount, a.useLinear, 0, m)
    modifies a, a.pool
    ensures a.Valid() && a.initialized && (a.pool == old(a.pool) || fresh(a.pool))
    ensures Packed(a.pool[..], m + n, a.useChunks, a.objectSize)
    ensures a.growths == GrowthsNeeded(a.initialCount, a.useLinear, 0, m + n)
    ensures |objs| == n && forall j :: 0 <= j < n ==> objs[j] == m + j
  {
    objs := [];
    for i := 0 to n
      invariant a.Valid() && a.initialized
      invariant a.pool == old(a.pool) || fresh(a.pool)
      invariant Packed(a.pool[..], m + i, a.useChunks, a.objectSize)
      invariant a.growths == GrowthsNeeded(a.initialCount, a.useLinear, 0, m + i)
      invariant |objs| == i && forall j :: 0 <= j < i ==> objs[j] == m + j
    {
      var obj := AllocateNext(a, m + i);
      objs := objs + [obj];
    }
  }

  /** Create a pool of four objects and allocate n of them. */
  method FreshPoolWith(objectSize: nat, mode: Mode, n: nat) returns (a: Allocator, objs: seq<nat>)
    ensures fresh(a) && fresh(a.pool) && a.Valid() && a.initialized
    ensures a.useChunks == mode.UsesChunks() && a.useLinear == mode.UsesLinear()
    ensures a.initialCount == 4 && a.objectSize == objectSize
    ensures Packed(a.pool[..], n, a.useChunks, a.objectSize)
    ensures a.growths == GrowthsNeeded(4, a.useLinear, 0, n)
    ensures |objs| == n && forall j :: 0 <= j < n ==> objs[j] == j
  {
    a := new Allocator.Initialize(objectSize, 4, mode);
    objs := AllocateMany(a, n, 0);
  }

  /**
   * Three allocations from a pool of four (doubling, individual): three
   * distinct objects, capacity still four, three active.
   */
  method ThreeAllocationsNoGrowth(objectSize: nat) returns (objs: seq<nat>, stats: Stats)
    ensures |objs| == 3 && objs[0] != objs[1] && objs[1] != objs[2] && objs[0] != objs[2]
    ensures stats == Stats(objectSize, 4, 3)
  {
    var a;
    a, objs := FreshPoolWith(objectSize, DoublingIndividual, 3);
    GrowthsNeededIs(4, false, 0, 3, 0);
    PackedActiveCount(a.pool[..], 3, a.useChunks, a.objectSize);
    stats := GetAllocatorStats(a);
  }

  /** Five allocations from a pool of four (doubling, individual): one doubling to eight. */
  method FiveAllocationsOneDoubling(objectSize: nat) returns (stats: Stats)
    ensures stats == Stats(objectSize, 8, 5)
  {
    var a, _ := FreshPoolWith(objectSize, DoublingIndividual, 5);
    GrowthsNeededIs(4, false, 0, 5, 1);
    PackedActiveCount(a.pool[..], 5, a.useChunks, a.objectSize);
    stats := GetAllocatorStats(a);
  }

  /** Nine allocations from a pool of four (doubling, individual): two doublings, 4 to 8 to 16. */
  method NineAllocationsTwoDoublings(objectSize: nat) returns (stats: Stats)
    ensures stats == Stats(objectSize, 16, 9)
  {
    var a, _ := FreshPoolWith(objectSize, DoublingIndividual, 9);
    GrowthsNeededIs(4, false, 0, 9, 2);
    PackedActiveCount(a.pool[..], 9, a.useChunks, a.objectSize);
    stats := GetAllocatorStats(a);
  }

  /**
   * Allocate `count` objects, free the third and the seventh, allocate once
   * more: the new object reuses the third slot and reads as zeroed, capacity
   * is what `count` objects needed, and count - 1 objects are active.
   */
  method FreeTwoThenAllocate(objectSize: nat, mode: Mode, count: nat) returns (reused: Option<nat>, entry: Slot, stats: Stats)
    requires count >= 7
    ensures reused == Some(2) && entry == Entry(true, Zeros(objectSize))
    ensures stats == Stats(objectSize, Capacity(4, mode.UsesLinear(), GrowthsNeeded(4, mode.UsesLinear(), 0, count)), count - 1)
  {
    var a, objs := FreshPoolWith(objectSize, mode, count);
    ghost var full := a.pool[..];
    var errors := DeallocateObject(a, Some(objs[2]));
    errors := DeallocateObject(a, Some(objs[6]));
    ReuseAfterTwoFrees(full, count, a.initialCount, a.useLinear, a.useChunks, a.objectSize);
    reused, errors := AllocateObject(a);
    entry := a.pool[reused.value];
    stats := GetAllocatorStats(a);
  }

  /** On a packed directory of at least seven objects, freeing the third and seventh makes the third the next one handed out, without growth. */
  lemma ReuseAfterTwoFrees(s: seq<Slot>, count: nat, initialCount: nat, linear: bool, chunks: bool, objectSize: nat)
    requires initialCount > 0 && |s| >= initialCount && count >= 7
    requires Packed(s, count, chunks, objectSize)
    ensures var freed := Released(Released(s, 2), 6);
      && FirstFree(freed) == Some(2)
      && AllocateStep(freed, initialCount, linear, chunks, objectSize).slot == 2
      && ActiveCount(AllocateStep(freed, initialCount, linear, chunks, objectSize).directory) == count - 1
  {
    var freed := Released(Released(s, 2), 6);
    PackedActiveCount(s, count, chunks, objectSize);
    ReleasedActiveCount(s, 2);
    ReleasedActiveCount(Released(s, 2), 6);
    assert IsFree(freed[2]) && !IsFree(freed[0]) && !IsFree(freed[1]);
    assert LayoutOk(freed, chunks) by {
      assert LayoutOk(s, chunks) by {
        if !chunks {
          forall i, j | 0 <= i < j < |s| && s[j].Entry? ensures s[i].Entry? {
            assert j < count;
          }
        }
      }
      ReleaseKeepsLayout(s, chunks, 2);
      ReleaseKeepsLayout(Released(s, 2), chunks, 6);
    }
    AllocateStepProperties(freed, initialCount, linear, chunks, objectSize);
  }

  /** Eight allocations (doubling, individual), free two, allocate one: the reused object is zeroed, capacity stays eight, seven active. */
  method ReuseWithoutGrowth(objectSize: nat) returns (reused: Option<nat>, entry: Slot, stats: Stats)
    ensures reused == Some(2) && entry == Entry(true, Zeros(objectSize))
    ensures stats == Stats(objectSize, 8, 7)
  {
    GrowthsNeededIs(4, false, 0, 8, 1);
    reused, entry, stats := FreeTwoThenAllocate(objectSize, DoublingIndividual, 8);
  }

  /** Nine allocations (linear, individual), free two, allocate one: the reused object is zeroed, capacity 4 to 8 to 12, eight active. */
  method LinearIndividualReuse(objectSize: nat) returns (reused: Option<nat>, entry: Slot, stats: Stats)
    ensures reused == Some(2) && entry == Entry(true, Zeros(objectSize))
    ensures stats == Stats(objectSize, 12, 8)
  {
    GrowthsNeededIs(4, true, 0, 9, 2);
    reused, entry, stats := FreeTwoThenAllocate(objectSize, LinearIndividual, 9);
  }

  /** Nine allocations (doubling, chunked), free two, allocate one: the reused object is zeroed, capacity sixteen, eight active. */
  method DoublingChunkReuse(objectSize: nat) returns (reused: Option<nat>, entry: Slot, stats: Stats)
    ensures reused == Some(2) && entry == Entry(true, Zeros(objectSize))
    ensures stats == Stats(objectSize, 16, 8)
  {
    GrowthsNeededIs(4, false, 0, 9, 2);
    reused, entry, stats := FreeTwoThenAllocate(objectSize, DoublingChunk, 9);
  }

  /** Nine allocations (linear, chunked), free two, allocate one: the reused object is zeroed, capacity twelve, eight active. */
  method LinearChunkReuse(objectSize: nat) returns (reused: Option<nat>, entry: Slot, stats: Stats)
    ensures reused == Some(2) && entry == Entry(true, Zeros(objectSize))
    ensures stats == Stats(objectSize, 12, 8)
  {
    GrowthsNeededIs(4, true, 0, 9, 2);
    reused, entry, stats := FreeTwoThenAllocate(objectSize, LinearChunk, 9);
  }

  /**
   * Initialise and deinitialise straight away: chunked layout releases the one
   * chunk at slot 0, individual layout visits every slot.
   */
  method InitializeThenDeinitialize(objectSize: nat, count: nat, mode: Mode) returns (freed: seq<nat>)
    requires count > 0
    ensures freed == if mode.UsesChunks() then [0] else seq(count, i => i)
  {
    var a := new Allocator.Initialize(objectSize, count, mode);
    var errors;
    freed, errors := DeinitializeAllocator(a);
  }

  /**
   * Seventeen allocations from a chunked pool of four, then deinitialisation:
   * the released chunk starts are the offsets growth filled, 0, 4, 8, 16 for
   * doubling (capacity 32) and 0, 4, 8, 12, 16 for linear growth (capacity 20).
   */
  method ChunkStartsReleased(objectSize: nat, linear: bool) returns (freed: seq<nat>)
    ensures freed == if linear then [0, 4, 8, 12, 16] else [0, 4, 8, 16]
  {
    var a, _ := FreshPoolWith(objectSize, if linear then LinearChunk else DoublingChunk, 17);
    if linear {
      GrowthsNeededIs(4, true, 0, 17, 4);
    } else {
      GrowthsNeededIs(4, false, 0, 17, 3);
    }
    var errors;
    freed, errors := DeinitializeAllocator(a);
  }

  /**
   * After deinitialisation every operation is refused through the error hook:
   * allocation yields nothing, statistics are zero, and a second
   * deinitialisation releases nothing.
   */
  method UseAfterDeinitialize(objectSize: nat, mode: Mode)
    returns (obj: Option<nat>, allocErrors: seq<ErrorReport>, stats: Stats, freedAgain: seq<nat>, deinitErrors: seq<ErrorReport>)
    ensures obj == None && allocErrors == [AllocateUninitialized, ObjectNotAllocated]
    ensures stats == Stats(0, 0, 0)
    ensures freedAgain == [] && deinitErrors == [DeinitializeUninitialized]
  {
    var a := new Allocator.Initialize(objectSize, 4, mode);
    var _, _ := DeinitializeAllocator(a);
    obj, allocErrors := AllocateObject(a);
    stats := GetAllocatorStats(a);
    freedAgain, deinitErrors := DeinitializeAllocator(a);
  }

  /** A null handle or a null object: deallocation only reports. */
  method DeallocateNull(objectSize: nat) returns (nullHandle: seq<ErrorReport>, nullObject: seq<ErrorReport>)
    ensures nullHandle == [DeallocateInvalid] && nullObject == [DeallocateInvalid]
  {
    nullHandle := DeallocateObject(null, Some(0));
    var a := new Allocator.Initialize(objectSize, 4, DoublingIndividual);
    nullObject := DeallocateObject(a, None);
  }
}
