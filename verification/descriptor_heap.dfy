/** A descriptor heap: a fixed-capacity run of descriptor slots with a CPU and a
    GPU base address, handed out front to back by a bump cursor `size`.
    The heap is a plain value embedded in the graphics context; the context
    (graphics_context.dfy) updates it in place. */
module DescriptorHeaps {

  /** `size`, `capacity`, counts and descriptor sizes are u32 in the source. */
  const U32_LIMIT: nat := 0x1_0000_0000

  predicate IsU32(x: int) {
    0 <= x < U32_LIMIT
  }

  /** The value a u32 computation keeps of a non-negative result. */
  function Wrap32(x: nat): (r: nat)
    ensures IsU32(r)
    ensures x < U32_LIMIT ==> r == x
  {
    x % U32_LIMIT
  }

  /** D3D12_CPU_DESCRIPTOR_HANDLE and D3D12_GPU_DESCRIPTOR_HANDLE: an address. */
  datatype CpuHandle = CpuHandle(ptr: nat)
  datatype GpuHandle = GpuHandle(ptr: nat)

  /** The native ID3D12DescriptorHeap object, as an opaque token. */
  datatype NativeHeap = NativeHeap(id: nat)

  datatype DescriptorHeap = DescriptorHeap(
    native: NativeHeap,
    cpuStart: CpuHandle,
    gpuStart: GpuHandle,
    size: nat,
    capacity: nat)

  /** The heap invariant: the cursor never passes the capacity, which is a u32. */
  predicate WellFormed(h: DescriptorHeap) {
    h.size <= h.capacity && IsU32(h.capacity)
  }

  /** Running out of descriptors trips an assert: a fatal error, never retried. */
  datatype AllocError = DescriptorExhausted

  datatype Result<T> = Ok(value: T) | Err(error: AllocError)

  /** Byte offset of a slot from a heap base: `slot * descriptor_size`, a u32 product. */
  function SlotOffset(slot: nat, descriptorSize: nat): nat {
    Wrap32(slot * descriptorSize)
  }

  function CpuHandleAt(h: DescriptorHeap, slot: nat, descriptorSize: nat): CpuHandle {
    CpuHandle(h.cpuStart.ptr + SlotOffset(slot, descriptorSize))
  }

  function GpuHandleAt(h: DescriptorHeap, slot: nat, descriptorSize: nat): GpuHandle {
    GpuHandle(h.gpuStart.ptr + SlotOffset(slot, descriptorSize))
  }

  /** One successful allocation: the first slot handed out, its CPU and GPU
      handles, and the heap afterwards. */
  datatype Reservation = Reservation(first: nat, cpu: CpuHandle, gpu: GpuHandle, heap: DescriptorHeap)

  /** Reserve `count` contiguous slots at the cursor. */
  function Reserve(h: DescriptorHeap, count: nat, descriptorSize: nat): (r: Result<Reservation>)
    ensures r.Err? <==> h.capacity <= h.size + count
    ensures r.Ok? ==>
      && r.value.first == h.size
      && r.value.heap.size == h.size + count
      && r.value.heap == h.(size := r.value.heap.size)
      && r.value.cpu.ptr - h.cpuStart.ptr == SlotOffset(h.size, descriptorSize)
      && r.value.gpu.ptr - h.gpuStart.ptr == SlotOffset(h.size, descriptorSize)
    ensures WellFormed(h) && r.Ok? ==>
      WellFormed(r.value.heap) && r.value.heap.size < r.value.heap.capacity
  {
    if h.size + count < h.capacity then
      Ok(Reservation(h.size, CpuHandleAt(h, h.size, descriptorSize),
                     GpuHandleAt(h, h.size, descriptorSize), h.(size := h.size + count)))
    else
      Err(DescriptorExhausted)
  }

  /** A run of allocations on one heap, in order; the first failure is fatal. */
  function ReserveAll(h: DescriptorHeap, counts: seq<nat>, descriptorSize: nat): (r: Result<(seq<Reservation>, DescriptorHeap)>)
    ensures r.Ok? ==> |r.value.0| == |counts|
    decreases |counts|
  {
    if counts == [] then
      Ok(([], h))
    else
      match Reserve(h, counts[0], descriptorSize)
      case Err(e) => Err(e)
      case Ok(res) =>
        match ReserveAll(res.heap, counts[1..], descriptorSize)
        case Err(e) => Err(e)
        case Ok((rest, last)) => Ok(([res] + rest, last))
  }

  function Sum(s: seq<nat>): nat {
    if s == [] then 0 else s[0] + Sum(s[1..])
  }

  /** `n` allocations of `c` descriptors each. */
  function Repeat(c: nat, n: nat): (s: seq<nat>)
    ensures |s| == n
    ensures forall k :: 0 <= k < n ==> s[k] == c
  {
    seq(n, _ => c)
  }

  // ---------------------------------------------------------------------------
  // Sums of counts

  lemma {:induction false} SumAppend(s: seq<nat>, x: nat)
    ensures Sum(s + [x]) == Sum(s) + x
  {
    if s == [] {
      assert s + [x] == [x];
    } else {
      assert (s + [x])[1..] == s[1..] + [x];
      SumAppend(s[1..], x);
    }
  }

  lemma SumPrefixStep(s: seq<nat>, k: nat)
    requires k < |s|
    ensures Sum(s[..k + 1]) == Sum(s[..k]) + s[k]
  {
    assert s[..k + 1] == s[..k] + [s[k]];
    SumAppend(s[..k], s[k]);
  }

  lemma SumPrefixHead(s: seq<nat>, k: nat)
    requires 0 < k <= |s|
    ensures Sum(s[..k]) == s[0] + Sum(s[1..][..k - 1])
  {
    assert s[..k][1..] == s[1..][..k - 1];
  }

  lemma {:induction false} SumPrefixMonotone(s: seq<nat>, i: nat, j: nat)
    requires i <= j <= |s|
    ensures Sum(s[..i]) <= Sum(s[..j])
    decreases j
  {
    if i < j {
      SumPrefixMonotone(s, i, j - 1);
      SumPrefixStep(s, j - 1);
    }
  }

  lemma {:induction false} SumRepeat(c: nat, n: nat)
    ensures Sum(Repeat(c, n)) == n * c
  {
    if n > 0 {
      assert Repeat(c, n)[1..] == Repeat(c, n - 1);
      SumRepeat(c, n - 1);
    }
  }

  // ---------------------------------------------------------------------------
  // Properties of a run of allocations

  /** After a run of allocations the cursor has advanced by the sum of the
      counts, and the k-th allocation starts at the initial cursor plus the
      counts of the allocations before it, with its CPU and GPU handles at that
      slot. */
  lemma {:induction false} ReserveAllPrefixSums(h: DescriptorHeap, counts: seq<nat>, descriptorSize: nat)
    requires ReserveAll(h, counts, descriptorSize).Ok?
    ensures var (rs, last) := ReserveAll(h, counts, descriptorSize).value;
      && last == h.(size := h.size + Sum(counts))
      && forall k :: 0 <= k < |counts| ==>
           && rs[k].first == h.size + Sum(counts[..k])
           && rs[k].cpu == CpuHandleAt(h, rs[k].first, descriptorSize)
           && rs[k].gpu == GpuHandleAt(h, rs[k].first, descriptorSize)
    decreases |counts|
  {
    if counts != [] {
      var res := Reserve(h, counts[0], descriptorSize).value;
      var tail := counts[1..];
      ReserveAllPrefixSums(res.heap, tail, descriptorSize);
      var (rs, last) := ReserveAll(h, counts, descriptorSize).value;
      var (rest, last') := ReserveAll(res.heap, tail, descriptorSize).value;
      assert rs == [res] + rest;
      forall k | 0 <= k < |counts|
        ensures rs[k].first == h.size + Sum(counts[..k])
      {
        if k > 0 {
          SumPrefixHead(counts, k);
          assert rs[k] == rest[k - 1];
        }
      }
    }
  }

  /** A run of allocations goes through exactly when the last one still leaves
      the cursor strictly below the capacity. */
  lemma {:induction false} ReserveAllSucceedsIff(h: DescriptorHeap, counts: seq<nat>, descriptorSize: nat)
    ensures ReserveAll(h, counts, descriptorSize).Ok? <==>
      (counts == [] || h.size + Sum(counts) < h.capacity)
    decreases |counts|
  {
    if counts != [] {
      var next := h.(size := h.size + counts[0]);
      ReserveAllSucceedsIff(next, counts[1..], descriptorSize);
    }
  }

  /** The slot ranges [first, first + count) of a run are pairwise disjoint,
      in allocation order, and all lie below the capacity. */
  lemma ReservedRangesDisjoint(h: DescriptorHeap, counts: seq<nat>, descriptorSize: nat)
    requires ReserveAll(h, counts, descriptorSize).Ok?
    ensures var rs := ReserveAll(h, counts, descriptorSize).value.0;
      && (forall i, j :: 0 <= i < j < |counts| ==> rs[i].first + counts[i] <= rs[j].first)
      && (forall k :: 0 <= k < |counts| ==> rs[k].first + counts[k] < h.capacity)
  {
    var rs := ReserveAll(h, counts, descriptorSize).value.0;
    ReserveAllPrefixSums(h, counts, descriptorSize);
    ReserveAllSucceedsIff(h, counts, descriptorSize);
    forall i, j | 0 <= i < j < |counts|
      ensures rs[i].first + counts[i] <= rs[j].first
    {
      SumPrefixStep(counts, i);
      SumPrefixMonotone(counts, i + 1, j);
    }
    forall k | 0 <= k < |counts|
      ensures rs[k].first + counts[k] < h.capacity
    {
      SumPrefixStep(counts, k);
      SumPrefixMonotone(counts, k + 1, |counts|);
      assert counts[..|counts|] == counts;
    }
  }

  lemma MulMonotone(a: nat, b: nat, d: nat)
    requires a <= b
    ensures a * d <= b * d
  {
  }

  /** When the whole heap fits in the u32 offset range, a slot's offset is exact. */
  lemma SlotOffsetExact(h: DescriptorHeap, slot: nat, descriptorSize: nat)
    requires slot < h.capacity && h.capacity * descriptorSize <= U32_LIMIT
    ensures SlotOffset(slot, descriptorSize) == slot * descriptorSize
  {
    MulMonotone(slot + 1, h.capacity, descriptorSize);
    assert (slot + 1) * descriptorSize == slot * descriptorSize + descriptorSize;
    if descriptorSize == 0 {
      assert slot * descriptorSize == 0;
    }
  }

  /** When `capacity * descriptor_size` fits in a u32, the address ranges
      handed out by a run never overlap: each allocation's CPU and GPU ranges
      end at or before the next allocation's start. */
  lemma ReservedAddressesDisjoint(h: DescriptorHeap, counts: seq<nat>, descriptorSize: nat)
    requires ReserveAll(h, counts, descriptorSize).Ok?
    requires h.capacity * descriptorSize <= U32_LIMIT
    ensures var rs := ReserveAll(h, counts, descriptorSize).value.0;
      forall i, j :: 0 <= i < j < |counts| ==>
        && rs[i].cpu.ptr + counts[i] * descriptorSize <= rs[j].cpu.ptr
        && rs[i].gpu.ptr + counts[i] * descriptorSize <= rs[j].gpu.ptr
  {
    var rs := ReserveAll(h, counts, descriptorSize).value.0;
    ReserveAllPrefixSums(h, counts, descriptorSize);
    ReservedRangesDisjoint(h, counts, descriptorSize);
    forall i, j | 0 <= i < j < |counts|
      ensures rs[i].cpu.ptr + counts[i] * descriptorSize <= rs[j].cpu.ptr
      ensures rs[i].gpu.ptr + counts[i] * descriptorSize <= rs[j].gpu.ptr
    {
      SlotOffsetExact(h, rs[i].first, descriptorSize);
      SlotOffsetExact(h, rs[j].first, descriptorSize);
      MulMonotone(rs[i].first + counts[i], rs[j].first, descriptorSize);
      assert (rs[i].first + counts[i]) * descriptorSize
          == rs[i].first * descriptorSize + counts[i] * descriptorSize;
    }
  }

  /** Repeated allocations of `c` descriptors: `n` of them go through exactly
      when `n * c` added to the cursor stays strictly below the capacity. */
  lemma RepeatedReservationsSucceedIff(h: DescriptorHeap, c: nat, n: nat, descriptorSize: nat)
    ensures ReserveAll(h, Repeat(c, n), descriptorSize).Ok? <==>
      (n == 0 || h.size + n * c < h.capacity)
  {
    ReserveAllSucceedsIff(h, Repeat(c, n), descriptorSize);
    SumRepeat(c, n);
  }

  /** The strict capacity check at its boundary: on an empty heap of 256 slots,
      63 allocations of 4 go through and the 64th is refused, although it would
      exactly fill the heap. */
  lemma StrictCapacityBoundary(h: DescriptorHeap, descriptorSize: nat)
    requires h.size == 0 && h.capacity == 256
    ensures ReserveAll(h, Repeat(4, 63), descriptorSize).Ok?
    ensures var after63 := ReserveAll(h, Repeat(4, 63), descriptorSize).value.1;
      after63.size == 252 && Reserve(after63, 4, descriptorSize).Err?
    ensures ReserveAll(h, Repeat(4, 64), descriptorSize).Err?
  {
    RepeatedReservationsSucceedIff(h, 4, 63, descriptorSize);
    RepeatedReservationsSucceedIff(h, 4, 64, descriptorSize);
    ReserveAllPrefixSums(h, Repeat(4, 63), descriptorSize);
    SumRepeat(4, 63);
  }

  /** One-descriptor allocations from an empty heap put descriptor k at slot k. */
  lemma SingleReservationsAreIndexed(h: DescriptorHeap, n: nat, k: nat, descriptorSize: nat)
    requires h.size == 0 && k < n
    requires ReserveAll(h, Repeat(1, n), descriptorSize).Ok?
    ensures ReserveAll(h, Repeat(1, n), descriptorSize).value.0[k].cpu == CpuHandleAt(h, k, descriptorSize)
  {
    ReserveAllPrefixSums(h, Repeat(1, n), descriptorSize);
    assert Repeat(1, n)[..k] == Repeat(1, k);
    SumRepeat(1, k);
  }
}
