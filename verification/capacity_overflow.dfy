/** The capacity check of Allocate_Descriptors and Allocate_GPU_Descriptors
    evaluated in u32, as the source writes it: `size + count` wraps modulo
    2^32 before it is compared with the capacity, and the cursor is advanced
    by the same wrapping sum. DescriptorHeaps.Reserve is the intended check. */
module CapacityOverflow {
  import opened DescriptorHeaps

  /** The allocation with the sum compared, and stored back as the new
      cursor, in u32 arithmetic. */
  function ReserveAsWritten(h: DescriptorHeap, count: nat, descriptorSize: nat): (r: Result<Reservation>)
    requires IsU32(h.size) && IsU32(count)
    ensures r.Ok? <==> Wrap32(h.size + count) < h.capacity
    ensures r.Ok? ==>
      && r.value.first == h.size
      && r.value.heap == h.(size := Wrap32(h.size + count))
      && r.value.cpu == CpuHandleAt(h, h.size, descriptorSize)
      && r.value.gpu == GpuHandleAt(h, h.size, descriptorSize)
  {
    var end := Wrap32(h.size + count);
    if end < h.capacity then
      Ok(Reservation(h.size, CpuHandleAt(h, h.size, descriptorSize),
                     GpuHandleAt(h, h.size, descriptorSize), h.(size := end)))
    else
      Err(DescriptorExhausted)
  }

  /** Where the sum does not wrap, the source's check is the intended one. */
  lemma AsWrittenAgreesWithoutWrap(h: DescriptorHeap, count: nat, descriptorSize: nat)
    requires IsU32(h.size) && IsU32(count) && h.size + count < U32_LIMIT
    ensures ReserveAsWritten(h, count, descriptorSize) == Reserve(h, count, descriptorSize)
  {
  }

  /** A heap of 256 slots: 8 slots handed out, then a count of 2^32 - 4 passes
      the wrapping check and rewinds the cursor to 4, so the next allocation of
      4 slots starts at slot 4, inside the first allocation [0, 8). The intended
      check refuses that count. */
  lemma AsWrittenRewindsCursor(native: NativeHeap, cpuStart: CpuHandle, gpuStart: GpuHandle, descriptorSize: nat)
    ensures var h := DescriptorHeap(native, cpuStart, gpuStart, 0, 256);
      && ReserveAsWritten(h, 8, descriptorSize).Ok?
      && var a := ReserveAsWritten(h, 8, descriptorSize).value;
         && ReserveAsWritten(a.heap, 0xFFFF_FFFC, descriptorSize).Ok?
         && var b := ReserveAsWritten(a.heap, 0xFFFF_FFFC, descriptorSize).value;
            && b.heap.size == 4
            && ReserveAsWritten(b.heap, 4, descriptorSize).Ok?
            && var c := ReserveAsWritten(b.heap, 4, descriptorSize).value;
               && a.first <= c.first < a.first + 8
               && Reserve(a.heap, 0xFFFF_FFFC, descriptorSize).Err?
  {
  }
}
