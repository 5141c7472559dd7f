# opalloc pool engine in Dafny

A model of the pool-management engine of the opalloc object-pool allocator
(`opalloc.c`). The allocator handle holds these parts:

- the object size and the initial count, both fixed at creation;
- the two layout flags decoded from the four modes;
- the current capacity (`maximum_objects`);
- the `initialized` flag;
- the directory `pool` of slot pointers.

A slot is NULL or points at a slot entry. An entry carries an in-use flag and
the object's bytes.

The model has three modules:

- `PoolSpec` (`pool_spec.dfy`) holds the values and the specification
  functions:
  - the `Slot`, `Stats` and `ErrorReport` datatypes;
  - the first-fit choice `FirstFree`;
  - the growth policy `NextCapacity` and `Capacity`;
  - the chunk-start offsets `ChunkOffsets`;
  - the directory transformations `Grown`, `AllocateStep` and `Released`;
  - the active count `ActiveCount`.

  It also holds the lemmas about them.
- `Opalloc` (`opalloc.dfy`) holds the engine itself. The handle is the class
  `Allocator`, whose directory is an `array<Slot>`.
  - Initialisation is the constructor. Growth (`GrowPool`), chunk filling
    (`FillChunks`) and the first-fit scan (`ClaimFirstFree`) are methods that
    update the handle in place.
  - The four public operations take a possibly-null handle `Allocator?`:
    allocate, deallocate, deinitialise and get-stats.
  - Every loop of the C code is a loop here, with its invariants. This covers
    the scan with its retry after growth, the NULL-writing loop of growth, the
    chunk-filling loop, the stepping loops of deinitialisation and the counting
    loop of get-stats.
  - The ghost fields `growths` and `chunkStarts` record how many growth steps
    were taken and every offset the chunk filler was called with.
  - `Valid()` holds these facts:
    - the directory length is the capacity;
    - the capacity is `Capacity(C, linear, growths)`;
    - the directory has no gaps in individual layout;
    - every slot is backed in chunked layout;
    - the recorded chunk starts are `ChunkOffsets(C, linear, growths)`.
- `OpallocScenarios` (`scenarios.dfy`) replays the test suite's scenarios
  through the engine's contracts and states their outcomes exactly.

Modelling choices:

- **Object identity.** An object is identified by the index of its slot. The
  object pointer returned by allocation becomes `Option<nat>`, where `None` is
  NULL.
- **The error hook.** Calls to the error hook are returned as a sequence of
  `ErrorReport` values, in call order.
- **Freed storage.** The storage released by deinitialisation is returned as
  the sequence `freed` of slot indices passed to `free`, in order.
- **Zeroed payloads.** The zeroing by calloc and memset is `Zeros(objectSize)`.
  Because `NOT_IN_USE` is 0, a fresh chunk entry is `Entry(false, Zeros(objectSize))`.
- **Memory allocation.** calloc and realloc always succeed in this model (see
  "Left out").

## Model

| member | source | states |
|---|---|---|
| PoolSpec.ModeDecoding | opalloc.c:191-212 | the mode switch: the two chunk modes set the chunk flag, the two linear modes set the linear flag, and the four modes give four distinct flag pairs (`Mode.UsesChunks`, `Mode.UsesLinear`) |
| PoolSpec.Zeros | opalloc.c:62-66 | the payload of a fresh or reused object has objectSize bytes, all zero |
| PoolSpec.FirstFree | opalloc.c:58-82 | the scan's choice is a free slot (NULL, or an entry not in use) with no free slot before it; there is no choice exactly when no slot is free |
| PoolSpec.NextCapacity | opalloc.c:284-295 | the growth policy (old + C for linear growth, 2·old for doubling): the capacity after one growth step is never below the old one; GrowthStepAddsNothing says exactly when it is equal |
| PoolSpec.GrowthStepAddsNothing | opalloc.c:284-295 | a growth step adds no slot exactly when C = 0 (linear) or the directory is empty (doubling) |
| PoolSpec.Capacity | opalloc.c:284-295 | the capacity after n growth steps from the initial count is at least the initial count; its closed forms are LinearCapacity and DoublingCapacity |
| PoolSpec.LinearCapacity | opalloc.c:286-290 | linear growth: after n growth steps the capacity is C·(n+1) |
| PoolSpec.DoublingCapacity | opalloc.c:291-295 | doubling growth: after n growth steps the capacity is C·2^n |
| PoolSpec.CapacityIncreasing | opalloc.c:284-295 | every growth step strictly enlarges the pool when C > 0 |
| PoolSpec.GrowthsNeeded | opalloc.c:84-89 | the number of growth steps a run of allocations forces is the least one whose capacity holds them all |
| PoolSpec.GrowthsNeededIs | opalloc.c:84-89 | that least growth count is unique |
| PoolSpec.ChunkOffsets | opalloc.c:306-308 | one chunk offset per fill: the first at creation, then one per growth step |
| PoolSpec.ChunkOffsetAt | opalloc.c:306-308 | chunk j starts at the capacity the pool had before growth step j (0 for the chunk filled at creation) |
| PoolSpec.ChunkOffsetsClosedForm | opalloc.c:136-153 | chunk start j is 0 for j = 0, j·C for linear growth, and C·2^(j−1) for doubling when j > 0: 0, C, 2C, 3C, … and 0, C, 2C, 4C, …, the offsets deinitialisation steps through |
| PoolSpec.ChunkOffsetsInside | opalloc.c:139-152 | chunk starts increase strictly and lie inside the directory, so every step of the deinitialisation loops lands on a slot |
| PoolSpec.Grown | opalloc.c:297-304 | realloc plus the NULL loop: the new directory has NextCapacity slots, keeps the old slots as its prefix, and every added slot holds the fill value |
| PoolSpec.ZeroInitialCountNeverGrows | opalloc.c:284-295 | with an initial count of 0 the capacity stays 0 for ever and growth adds no slot, so a scan after growth still finds nothing |
| PoolSpec.GrowthMakesRoom | opalloc.c:84-89 | after growing a pool with no free slot, the retried scan finds slot old_size, so the retry cannot loop again |
| PoolSpec.AllocateStep | opalloc.c:57-95 | value-level allocation: the handed-out slot lies inside the resulting directory, which is no shorter than before, and holds an in-use zeroed entry; the full promise is AllocateStepProperties |
| PoolSpec.AllocateStepProperties | opalloc.c:55-95 | allocation hands out the first free slot when there is one, else slot old_size after exactly one growth step. That slot becomes an in-use zeroed entry and no other slot changes. Slots added by growth are NULL or fresh chunk entries. One more object is active, and the layout invariant survives |
| PoolSpec.GrownKeepsLayout | opalloc.c:301-309 | growth keeps the no-gaps / all-backed layout invariant |
| PoolSpec.ClaimKeepsLayout | opalloc.c:60-68 | materialising the first free slot never opens a gap |
| PoolSpec.Released | opalloc.c:114-119 | the deallocation effect: same length, no slot other than k changes, no slot gains or loses its backing, and slot k is not in use afterwards |
| PoolSpec.ReleaseKeepsLayout | opalloc.c:116-118 | clearing an in-use flag keeps the layout invariant |
| PoolSpec.ActiveCount | opalloc.c:178-182 | the stats count never exceeds the directory length; ActiveCountIsCardinality proves it is the number of in-use slots |
| PoolSpec.ActiveCountIsCardinality | opalloc.c:178-182 | the counted value is the number of in-use slots |
| PoolSpec.ActiveCountUpdate | opalloc.c:67 | changing one slot changes the active count by the difference of its in-use flags |
| PoolSpec.ActiveCountIdleTail | opalloc.c:179 | stopping the count at the first NULL loses nothing when no later slot is in use |
| PoolSpec.GrownActiveCount | opalloc.c:301-304 | growth adds no active object |
| PoolSpec.ReleasedActiveCount | opalloc.c:116-119 | deallocating an in-use object lowers the active count by one, and any other release leaves it unchanged |
| Opalloc.Allocator.Initialize | opalloc.c:187-250 | the mode decodes into the two layout flags. Capacity is the initial count, the handle is initialised, every slot is NULL (individual) or a fresh chunk entry (chunked), and the single chunk start is 0 |
| Opalloc.Allocator.FillChunks | opalloc.c:256-270 | slots [offset, offset+n) become not-in-use zeroed entries, all other slots are unchanged, and the offset is recorded as a chunk start |
| Opalloc.Allocator.GrowPool | opalloc.c:280-321 | the new directory is the old slots followed by GrowSize new slots, which are NULL or fresh chunk entries. Capacity becomes old+C (linear) or 2·old (doubling), and the invariant is kept |
| Opalloc.Allocator.ClaimFirstFree | opalloc.c:58-82 | the scan returns FirstFree of the directory and makes exactly that slot an in-use zeroed entry |
| Opalloc.Allocator.ClaimOrGrow | opalloc.c:57-95 | the scan-grow-retry loop computes AllocateStep and grows exactly when the directory had no free slot |
| Opalloc.AllocateObject | opalloc.c:51-108 | a null or uninitialised handle gets no object, two error reports and no change. Otherwise allocation always yields an object, with the outcome of AllocateStep and no error |
| Opalloc.DeallocateObject | opalloc.c:110-127 | a null handle or object gives one error report and no change. Otherwise exactly the object's slot is marked not in use, keeping its payload, and the active count drops by one if it was in use |
| Opalloc.DeinitializeAllocator | opalloc.c:129-169 | initialised: clears the flag, then frees exactly the recorded chunk starts (chunked) or every slot index in order (individual). A null or uninitialised handle gets one error report and nothing is freed |
| Opalloc.GetAllocatorStats | opalloc.c:171-185 | zeros for a null or uninitialised handle, otherwise object size, capacity and the true number of in-use slots |
| OpallocScenarios.PackedAllocate | opalloc.c:58-95 | after m allocations and no deallocation, the next allocation hands out slot m and growth happens only when all m slots are taken |
| OpallocScenarios.PackedActiveCount | opalloc.c:179-181 | after m allocations and no deallocation, m objects are active |
| OpallocScenarios.GrowthsNeededStep | opalloc.c:84-89 | one more allocation needs one more growth step exactly when the pool is full |
| OpallocScenarios.ReuseAfterTwoFrees | opalloc_test.c:160-171 | after at least seven allocations, freeing the third and seventh objects makes the next allocation reuse the third slot without growth, leaving count − 1 active |
| OpallocScenarios.FreeTwoThenAllocate | opalloc_test.c:146-171 | allocate count ≥ 7 objects, free two, allocate one: the third slot is reused and reads as a zeroed in-use entry, capacity is what count objects needed, count − 1 active |
| OpallocScenarios.ThreeAllocationsNoGrowth | opalloc_test.c:44-72 | three allocations from a pool of four give three distinct objects, capacity 4, 3 active |
| OpallocScenarios.FiveAllocationsOneDoubling | opalloc_test.c:77-102 | five allocations from a doubling pool of four give capacity 8, 5 active |
| OpallocScenarios.NineAllocationsTwoDoublings | opalloc_test.c:107-140 | nine allocations from a doubling pool of four give capacity 16, 9 active |
| OpallocScenarios.ReuseWithoutGrowth | opalloc_test.c:146-181 | doubling, individual: eight allocations, two frees, one allocation reuse slot 2 whose entry is in use and zeroed, capacity 8, 7 active |
| OpallocScenarios.LinearIndividualReuse | opalloc_test.c:187-224 | linear, individual: nine allocations, two frees, one allocation reuse slot 2 whose entry is in use and zeroed, capacity 12, 8 active |
| OpallocScenarios.DoublingChunkReuse | opalloc_test.c:231-268 | doubling, chunked: nine allocations, two frees, one allocation reuse slot 2 whose entry is in use and zeroed, capacity 16, 8 active |
| OpallocScenarios.LinearChunkReuse | opalloc_test.c:275-312 | linear, chunked: nine allocations, two frees, one allocation reuse slot 2 whose entry is in use and zeroed, capacity 12, 8 active |
| OpallocScenarios.InitializeThenDeinitialize | opalloc_test.c:24-38 | a fresh allocator frees its single chunk at slot 0 (chunked) or each of its slots once (individual) |
| OpallocScenarios.ChunkStartsReleased | opalloc.c:134-153 | after seventeen allocations from a chunked pool of four, deinitialisation frees slots 0, 4, 8, 16 (doubling) or 0, 4, 8, 12, 16 (linear) |
| OpallocScenarios.UseAfterDeinitialize | opalloc.c:96-105 | once the initialised flag is clear, allocation yields nothing with two error reports, stats are zero, and a second deinitialisation reports and frees nothing |
| OpallocScenarios.DeallocateNull | opalloc.c:112-126 | a null handle or a null object gives one error report |

## Left out

- Memory-allocation failure. calloc and realloc always succeed here, so the
  failure branches are not modelled. These are the branches at opalloc.c:70-73,
  opalloc.c:91-94, opalloc.c:229-234, opalloc.c:237-242, opalloc.c:244-247,
  opalloc.c:271-275 and opalloc.c:315-318.
  Their defects are therefore outside the model and are not claimed safe:
  - a failed realloc overwrites the directory pointer and loses the old
    directory;
  - a failed chunk fill leaves the capacity already enlarged over NULL slots;
  - a failed calloc inside the allocation scan keeps scanning.
- Byte-level memory is not modelled: entry sizes, the calloc byte count in
  fill_chunks, the flexible `data[]` member and pointer arithmetic. Slots are
  abstract values, and an object is its slot index.
- Opalloc.DeallocateObject: in C, a pointer that does not belong to the pool
  makes the scan dereference the first NULL slot when the directory has one;
  with no NULL slot the scan ends without effect. The model requires the
  object to be a backed slot, or the directory to have no NULL (the second case
  covers the silent end of the scan).
- Opalloc.DeallocateObject: C does not check `initialized`. The model requires
  the handle to be initialised when an object is given, because in C
  deinitialisation frees the handle.
- Deinitialisation frees the directory and the handle itself. The model keeps
  the handle and clears only its flag. It therefore gives a meaning to later
  calls on the handle (`UseAfterDeinitialize`), which in C are uses of freed
  memory.
- `size_t` overflow is not modelled: capacities are unbounded naturals. This
  covers `old_size * 2` in growth, `i <<= 1` and `i += initial_count` in
  deinitialisation, and the byte counts.
- An initial count of 0 is excluded by a precondition. With 0 the capacity
  stays 0: linear growth adds 0 and doubling doubles 0
  (`ZeroInitialCountNeverGrows`). The deinitialisation loops then run zero
  times. What breaks is allocation: when `realloc` of a zero-size directory
  succeeds, growth reports success without adding a slot, and the retry at
  opalloc.c:84-89 never ends, contrary to the comment at opalloc.c:88. In
  doubling-chunk layout, deinitialisation would also free slot 0 of an empty
  directory (opalloc.c:147). The model's proof that the retry runs at most
  twice rests on the count being positive.
- The error hook's weak default and its file, line and message arguments are
  not modelled. Only the kind and order of each report are.
- `dump_allocator` is not modelled, because it is debugging output.
- The type-safe macro layer of `opalloc.h` is not part of this model. Its
  scenario (`hl_test1`) is the same as `DoublingChunkReuse`.
- `metadata.c` is not part of this model, because it holds constant strings
  only.
