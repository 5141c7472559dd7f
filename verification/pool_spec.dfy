/**
 * Values and specification functions of the opalloc object-pool engine:
 * the directory of slots, the growth policy, the chunk layout and the
 * active-object count, with the lemmas the engine's methods rely on.
 */
module PoolSpec {

  datatype Option<T> = None | Some(value: T)

  /** The four layouts a pool is created with: doubling or linear growth, individual or chunked storage. */
  datatype Mode = DoublingIndividual | DoublingChunk | LinearIndividual | LinearChunk {
    /** Slot entries materialise in whole groups at creation and at every growth. */
    predicate UsesChunks() {
      this == DoublingChunk || this == LinearChunk
    }

    /** Capacity grows by the initial count instead of doubling. */
    predicate UsesLinear() {
      this == LinearIndividual || this == LinearChunk
    }
  }

  /** The four modes decode to the four distinct pairs of layout flags. */
  lemma ModeDecoding(m: Mode, n: Mode)
    ensures m.UsesChunks() <==> m.DoublingChunk? || m.LinearChunk?
    ensures m.UsesLinear() <==> m.LinearIndividual? || m.LinearChunk?
    ensures m.UsesChunks() == n.UsesChunks() && m.UsesLinear() == n.UsesLinear() ==> m == n
  {
  }

  type Byte = bv8

  /**
   * One directory slot: either a NULL pointer (no backing storage yet) or a
   * slot entry with its usage flag and its object payload.
   */
  datatype Slot = Unallocated | Entry(inUse: bool, payload: seq<Byte>)

  /** The statistics record handed out by the stats query. */
  datatype Stats = Stats(objectSize: nat, maximumObjects: nat, activeObjects: nat)

  /** The calls the engine makes to the error hook, one constructor per kind of message. */
  datatype ErrorReport =
    | AllocateUninitialized       // allocation from a null or uninitialised handle
    | ObjectNotAllocated          // allocation returns no object
    | DeallocateInvalid           // null handle or null object given to deallocation
    | DeinitializeUninitialized   // deinitialisation of a null or uninitialised handle

  /** A zero-filled payload of n bytes, as calloc and memset leave it. */
  function Zeros(n: nat): (z: seq<Byte>)
    ensures |z| == n
    ensures forall i :: 0 <= i < n ==> z[i] == 0
  {
    seq(n, _ => 0)
  }

  /** A slot the allocation scan may hand out: never materialised, or an entry not in use. */
  predicate IsFree(slot: Slot) {
    slot.Unallocated? || !slot.inUse
  }

  predicate InUse(slot: Slot) {
    slot.Entry? && slot.inUse
  }

  /** The lowest index whose slot is free, if there is one: the first-fit choice. */
  function FirstFree(s: seq<Slot>): (r: Option<nat>)
    ensures r.Some? ==> r.value < |s| && IsFree(s[r.value])
    ensures r.Some? ==> forall j :: 0 <= j < r.value ==> !IsFree(s[j])
    ensures r.None? <==> forall j :: 0 <= j < |s| ==> !IsFree(s[j])
  {
    if s == [] then None
    else if IsFree(s[0]) then Some(0)
    else match FirstFree(s[1..])
      case None => None
      case Some(k) => Some(k + 1)
  }

  /** Individual layout: slots are materialised left to right, so a backed slot has only backed slots before it. */
  ghost predicate NoGaps(s: seq<Slot>) {
    forall i, j :: 0 <= i < j < |s| && s[j].Entry? ==> s[i].Entry?
  }

  /** Chunked layout: every slot is backed. */
  ghost predicate AllBacked(s: seq<Slot>) {
    forall i :: 0 <= i < |s| ==> s[i].Entry?
  }

  ghost predicate LayoutOk(s: seq<Slot>, chunks: bool) {
    if chunks then AllBacked(s) else NoGaps(s)
  }

  /** The slot a growth step appends: a fresh chunk entry, or NULL in individual layout. */
  function FreshSlot(chunks: bool, objectSize: nat): Slot {
    if chunks then Entry(false, Zeros(objectSize)) else Unallocated
  }

  // ---------------------------------------------------------------------------
  // Growth policy
  // ---------------------------------------------------------------------------

  /** Capacity after one growth step from `size` slots. */
  function NextCapacity(initialCount: nat, linear: bool, size: nat): (n: nat)
    ensures n >= size
  {
    if linear then size + initialCount else 2 * size
  }

  /** A growth step adds no slot exactly when the linear step is 0 or the doubled directory is empty. */
  lemma GrowthStepAddsNothing(initialCount: nat, linear: bool, size: nat)
    ensures NextCapacity(initialCount, linear, size) == size <==> if linear then initialCount == 0 else size == 0
  {
  }

  /** Number of slots one growth step adds (the size of the chunk it fills). */
  function GrowSize(initialCount: nat, linear: bool, size: nat): nat {
    NextCapacity(initialCount, linear, size) - size
  }

  /** Capacity after `growths` growth steps from the initial count. */
  function Capacity(initialCount: nat, linear: bool, growths: nat): (c: nat)
    ensures c >= initialCount
  {
    if growths == 0 then initialCount
    else NextCapacity(initialCount, linear, Capacity(initialCount, linear, growths - 1))
  }

  function Pow2(n: nat): nat {
    if n == 0 then 1 else 2 * Pow2(n - 1)
  }

  /** Linear growth: after n steps the capacity is C·(n+1). */
  lemma {:induction false} LinearCapacity(initialCount: nat, n: nat)
    ensures Capacity(initialCount, true, n) == initialCount * (n + 1)
  {
    if n > 0 {
      LinearCapacity(initialCount, n - 1);
      assert initialCount * (n + 1) == initialCount * n + initialCount;
    }
  }

  /** Doubling growth: after n steps the capacity is C·2^n. */
  lemma {:induction false} DoublingCapacity(initialCount: nat, n: nat)
    ensures Capacity(initialCount, false, n) == initialCount * Pow2(n)
  {
    if n > 0 {
      DoublingCapacity(initialCount, n - 1);
      assert initialCount * Pow2(n) == 2 * (initialCount * Pow2(n - 1));
    }
  }

  /** Every growth step strictly enlarges the pool. */
  lemma {:induction false} CapacityIncreasing(initialCount: nat, linear: bool, j: nat, n: nat)
    requires initialCount > 0 && j < n
    ensures Capacity(initialCount, linear, j) < Capacity(initialCount, linear, n)
  {
    if j < n - 1 {
      CapacityIncreasing(initialCount, linear, j, n - 1);
    }
  }

  /**
   * The number of growth steps a pool that has taken g0 of them needs to hold
   * n objects: the least g >= g0 whose capacity reaches n.
   */
  function GrowthsNeeded(initialCount: nat, linear: bool, g0: nat, n: nat): (g: nat)
    requires initialCount > 0
    ensures g >= g0 && n <= Capacity(initialCount, linear, g)
    ensures g == g0 || Capacity(initialCount, linear, g - 1) < n
    decreases n - Capacity(initialCount, linear, g0)
  {
    if n <= Capacity(initialCount, linear, g0) then g0
    else
      CapacityIncreasing(initialCount, linear, g0, g0 + 1);
      GrowthsNeeded(initialCount, linear, g0 + 1, n)
  }

  /** The least growth count is unique: any g with the two properties is GrowthsNeeded. */
  lemma GrowthsNeededIs(initialCount: nat, linear: bool, g0: nat, n: nat, g: nat)
    requires initialCount > 0 && g >= g0
    requires n <= Capacity(initialCount, linear, g)
    requires g == g0 || Capacity(initialCount, linear, g - 1) < n
    ensures GrowthsNeeded(initialCount, linear, g0, n) == g
  {
    var r := GrowthsNeeded(initialCount, linear, g0, n);
    if r < g {
      if r < g - 1 {
        CapacityIncreasing(initialCount, linear, r, g - 1);
      }
    } else if r > g {
      if g < r - 1 {
        CapacityIncreasing(initialCount, linear, g, r - 1);
      }
    }
  }

  /**
   * The offsets fill_chunks is called with in chunked layout: 0 at creation,
   * then the old capacity at every growth step.
   */
  function ChunkOffsets(initialCount: nat, linear: bool, growths: nat): (offsets: seq<nat>)
    ensures |offsets| == growths + 1
  {
    if growths == 0 then [0]
    else ChunkOffsets(initialCount, linear, growths - 1) + [Capacity(initialCount, linear, growths - 1)]
  }

  /** Chunk j starts where the pool ended before growth step j. */
  lemma {:induction false} ChunkOffsetAt(initialCount: nat, linear: bool, growths: nat, j: nat)
    requires j <= growths
    ensures ChunkOffsets(initialCount, linear, growths)[j] == if j == 0 then 0 else Capacity(initialCount, linear, j - 1)
  {
    if j < growths {
      ChunkOffsetAt(initialCount, linear, growths - 1, j);
    }
  }

  /**
   * Closed forms of the chunk starts: 0, C, 2C, 3C, ... for linear growth and
   * 0, C, 2C, 4C, ... for doubling growth.
   */
  lemma ChunkOffsetsClosedForm(initialCount: nat, linear: bool, growths: nat, j: nat)
    requires j <= growths
    ensures linear ==> ChunkOffsets(initialCount, linear, growths)[j] == j * initialCount
    ensures j == 0 ==> ChunkOffsets(initialCount, linear, growths)[j] == 0
    ensures !linear && j > 0 ==> ChunkOffsets(initialCount, linear, growths)[j] == initialCount * Pow2(j - 1)
  {
    ChunkOffsetAt(initialCount, linear, growths, j);
    if j > 0 {
      if linear {
        LinearCapacity(initialCount, j - 1);
      } else {
        DoublingCapacity(initialCount, j - 1);
      }
    }
  }

  /** The chunk starts increase strictly and all lie inside the current directory. */
  lemma ChunkOffsetsInside(initialCount: nat, linear: bool, growths: nat, i: nat, j: nat)
    requires initialCount > 0 && i < j <= growths
    ensures ChunkOffsets(initialCount, linear, growths)[i] < ChunkOffsets(initialCount, linear, growths)[j]
    ensures ChunkOffsets(initialCount, linear, growths)[j] < Capacity(initialCount, linear, growths)
  {
    ChunkOffsetAt(initialCount, linear, growths, i);
    ChunkOffsetAt(initialCount, linear, growths, j);
    CapacityIncreasing(initialCount, linear, j - 1, growths);
    if i > 0 {
      CapacityIncreasing(initialCount, linear, i - 1, j - 1);
    }
  }

  // ---------------------------------------------------------------------------
  // Directory transformations
  // ---------------------------------------------------------------------------

  /** The directory after one growth step: the old slots, then GrowSize copies of `fill`. */
  function Grown(s: seq<Slot>, initialCount: nat, linear: bool, fill: Slot): (g: seq<Slot>)
    ensures |g| == NextCapacity(initialCount, linear, |s|)
    ensures g[..|s|] == s
    ensures forall j :: |s| <= j < |g| ==> g[j] == fill
  {
    s + seq(GrowSize(initialCount, linear, |s|), _ => fill)
  }

  /**
   * With an initial count of 0 the pool never leaves capacity 0, and growing an
   * empty directory adds no slot: the scan after growth finds nothing again.
   */
  lemma {:induction false} ZeroInitialCountNeverGrows(linear: bool, growths: nat, fill: Slot)
    ensures Capacity(0, linear, growths) == 0
    ensures Grown([], 0, linear, fill) == []
    ensures FirstFree(Grown([], 0, linear, fill)).None?
  {
    if growths > 0 {
      ZeroInitialCountNeverGrows(linear, growths - 1, fill);
    }
  }

  /**
   * Growing a full pool makes room exactly at the old end: the retried scan
   * hands out slot |s|.
   */
  lemma GrowthMakesRoom(s: seq<Slot>, initialCount: nat, linear: bool, chunks: bool, objectSize: nat)
    requires initialCount > 0 && |s| >= initialCount
    requires FirstFree(s).None?
    ensures |Grown(s, initialCount, linear, FreshSlot(chunks, objectSize))| == NextCapacity(initialCount, linear, |s|)
    ensures FirstFree(Grown(s, initialCount, linear, FreshSlot(chunks, objectSize))) == Some(|s|)
  {
    var g := Grown(s, initialCount, linear, FreshSlot(chunks, objectSize));
    assert IsFree(g[|s|]);
    forall j | 0 <= j < |s| ensures !IsFree(g[j]) {
      assert g[j] == s[j];
    }
  }

  /**
   * The directory a successful allocation scan runs on: the directory itself
   * when it has a free slot, otherwise the directory after one growth step.
   */
  function ScanTarget(s: seq<Slot>, initialCount: nat, linear: bool, chunks: bool, objectSize: nat): seq<Slot> {
    if FirstFree(s).None? then Grown(s, initialCount, linear, FreshSlot(chunks, objectSize)) else s
  }

  /** The slot an allocation hands out and the directory it leaves behind. */
  datatype Allocation = Allocation(slot: nat, directory: seq<Slot>)

  /**
   * One allocation on a directory of at least initialCount > 0 slots: claim
   * the first free slot of the scan target as an in-use entry with a zeroed
   * payload.
   */
  function AllocateStep(s: seq<Slot>, initialCount: nat, linear: bool, chunks: bool, objectSize: nat): (r: Allocation)
    requires initialCount > 0 && |s| >= initialCount
    ensures |s| <= |r.directory| && r.slot < |r.directory|
    ensures r.directory[r.slot] == Entry(true, Zeros(objectSize))
  {
    var t := ScanTarget(s, initialCount, linear, chunks, objectSize);
    if FirstFree(s).None? then
      GrowthMakesRoom(s, initialCount, linear, chunks, objectSize);
      Allocation(|s|, t[|s| := Entry(true, Zeros(objectSize))])
    else
      var k := FirstFree(s).value;
      Allocation(k, t[k := Entry(true, Zeros(objectSize))])
  }

  /**
   * Allocation always succeeds within one growth step: it hands out the
   * lowest free slot when there is one, and otherwise slot |s| of the
   * directory after growth; that slot becomes an in-use zeroed entry, no other
   * slot changes, exactly one more entry is in use, and the layout invariant
   * survives.
   */
  lemma AllocateStepProperties(s: seq<Slot>, initialCount: nat, linear: bool, chunks: bool, objectSize: nat)
    requires initialCount > 0 && |s| >= initialCount
    requires LayoutOk(s, chunks)
    ensures var r := AllocateStep(s, initialCount, linear, chunks, objectSize);
      && (FirstFree(s).Some? ==> r.slot == FirstFree(s).value && |r.directory| == |s|)
      && (FirstFree(s).None? ==> r.slot == |s| && |r.directory| == NextCapacity(initialCount, linear, |s|))
      && r.slot < |r.directory|
      && r.directory[r.slot] == Entry(true, Zeros(objectSize))
      && (forall j :: 0 <= j < |s| && j != r.slot ==> r.directory[j] == s[j])
      && (forall j :: |s| <= j < |r.directory| && j != r.slot ==> r.directory[j] == FreshSlot(chunks, objectSize))
      && ActiveCount(r.directory) == ActiveCount(s) + 1
      && LayoutOk(r.directory, chunks)
  {
    var t := ScanTarget(s, initialCount, linear, chunks, objectSize);
    if FirstFree(s).None? {
      GrowthMakesRoom(s, initialCount, linear, chunks, objectSize);
      GrownActiveCount(s, initialCount, linear, chunks, objectSize);
      GrownKeepsLayout(s, initialCount, linear, chunks, objectSize);
    }
    var k := FirstFree(t).value;
    ActiveCountUpdate(t, k, Entry(true, Zeros(objectSize)));
    ClaimKeepsLayout(t, chunks, k, Zeros(objectSize));
  }

  /** Growth keeps the layout invariant. */
  lemma GrownKeepsLayout(s: seq<Slot>, initialCount: nat, linear: bool, chunks: bool, objectSize: nat)
    requires LayoutOk(s, chunks)
    ensures LayoutOk(Grown(s, initialCount, linear, FreshSlot(chunks, objectSize)), chunks)
  {
  }

  /** Claiming the first free slot keeps the layout invariant (no gap is ever opened). */
  lemma ClaimKeepsLayout(s: seq<Slot>, chunks: bool, k: nat, payload: seq<Byte>)
    requires LayoutOk(s, chunks) && FirstFree(s) == Some(k)
    ensures LayoutOk(s[k := Entry(true, payload)], chunks)
  {
  }

  /** The directory after the entry at index k is marked not in use (nothing else changes). */
  function Released(s: seq<Slot>, k: nat): (r: seq<Slot>)
    ensures |r| == |s|
    ensures forall j :: 0 <= j < |s| && j != k ==> r[j] == s[j]
    ensures forall j :: 0 <= j < |s| ==> r[j].Entry? == s[j].Entry?
    ensures k < |s| ==> !InUse(r[k])
  {
    if k < |s| && s[k].Entry? then s[k := Entry(false, s[k].payload)] else s
  }

  lemma ReleaseKeepsLayout(s: seq<Slot>, chunks: bool, k: nat)
    requires LayoutOk(s, chunks)
    ensures LayoutOk(Released(s, k), chunks)
  {
  }

  // ---------------------------------------------------------------------------
  // Active count
  // ---------------------------------------------------------------------------

  /** Number of in-use entries, counted left to right. */
  function ActiveCount(s: seq<Slot>): (c: nat)
    ensures c <= |s|
  {
    if s == [] then 0
    else ActiveCount(s[..|s| - 1]) + (if InUse(s[|s| - 1]) then 1 else 0)
  }

  /** The indices of the in-use entries: a reference definition for ActiveCount. */
  ghost function InUseIndices(s: seq<Slot>): set<nat> {
    set i: nat | i < |s| && InUse(s[i])
  }

  /** ActiveCount is the number of in-use slots. */
  lemma {:induction false} ActiveCountIsCardinality(s: seq<Slot>)
    ensures ActiveCount(s) == |InUseIndices(s)|
  {
    if s != [] {
      var n := |s| - 1;
      ActiveCountIsCardinality(s[..n]);
      var last: set<nat> := if InUse(s[n]) then {n} else {};
      assert InUseIndices(s) == InUseIndices(s[..n]) + last;
      assert InUseIndices(s[..n]) !! last;
    }
  }

  /** Replacing one slot changes the count by the difference of the two in-use flags. */
  lemma {:induction false} ActiveCountUpdate(s: seq<Slot>, k: nat, v: Slot)
    requires k < |s|
    ensures ActiveCount(s[k := v]) + (if InUse(s[k]) then 1 else 0) == ActiveCount(s) + (if InUse(v) then 1 else 0)
  {
    var n := |s| - 1;
    var t := s[k := v];
    if k == n {
      assert t[..n] == s[..n];
    } else {
      assert t[..n] == s[..n][k := v];
      ActiveCountUpdate(s[..n], k, v);
    }
  }

  /** Slots past index i that are not in use do not contribute to the count. */
  lemma {:induction false} ActiveCountIdleTail(s: seq<Slot>, i: nat)
    requires i <= |s|
    requires forall j :: i <= j < |s| ==> !InUse(s[j])
    ensures ActiveCount(s) == ActiveCount(s[..i])
  {
    if i < |s| {
      var n := |s| - 1;
      assert s[..n][..i] == s[..i];
      ActiveCountIdleTail(s[..n], i);
    } else {
      assert s[..i] == s;
    }
  }

  /** Growth adds no in-use slot. */
  lemma GrownActiveCount(s: seq<Slot>, initialCount: nat, linear: bool, chunks: bool, objectSize: nat)
    ensures ActiveCount(Grown(s, initialCount, linear, FreshSlot(chunks, objectSize))) == ActiveCount(s)
  {
    var g := Grown(s, initialCount, linear, FreshSlot(chunks, objectSize));
    assert g[..|s|] == s;
    ActiveCountIdleTail(g, |s|);
  }

  /** Releasing an in-use slot lowers the count by one; releasing anything else leaves it. */
  lemma ReleasedActiveCount(s: seq<Slot>, k: nat)
    ensures ActiveCount(Released(s, k)) == ActiveCount(s) - (if k < |s| && InUse(s[k]) then 1 else 0)
  {
    if k < |s| && s[k].Entry? {
      ActiveCountUpdate(s, k, Entry(false, s[k].payload));
    }
  }
}
