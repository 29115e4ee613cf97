/** The graphics context: the aggregate that owns the command allocators of the
    two frames in flight, the swap-chain buffers, the depth-stencil buffer and
    every descriptor heap, and the inline helpers that select per-frame slots
    and allocate descriptors from the heaps in place. */
module GraphicsContexts {
  import opened DescriptorHeaps

  /** Native objects the context holds, as opaque tokens. */
  datatype CommandAllocator = CommandAllocator(id: nat)
  datatype CommandList = CommandList(id: nat)
  datatype Resource = Resource(id: nat)

  /** The heaps of a context: render-target, depth-stencil, CPU-only
      CBV/SRV/UAV, and one shader-visible heap per frame in flight. */
  datatype HeapSlot = RenderTarget | DepthStencil | CpuDescriptors | FrameDescriptors(frame: nat)

  predicate IsSlot(s: HeapSlot) {
    s.FrameDescriptors? ==> s.frame < 2
  }

  /** What Get_Descriptor_Heap hands back: one of the context's heaps and the
      descriptor size of its type. How it chooses is not part of this model. */
  datatype HeapSelection = HeapSelection(slot: HeapSlot, descriptorSize: nat)

  /** Native calls the helpers issue; what they do is outside the model. */
  datatype DeviceCall =
    | ResetAllocator(allocator: CommandAllocator)
    | ResetCommandList(list: CommandList, allocator: CommandAllocator)
    | CopyDescriptorsSimple(count: nat, dst: CpuHandle, src: CpuHandle)
    | SetDescriptorHeaps(heap: NativeHeap)

  /** A buffer and the CPU descriptor that views it. */
  datatype BufferView = BufferView(buffer: Resource, handle: CpuHandle)

  class GraphicsContext {
    var cmdlist: CommandList
    var cmdalloc: array<CommandAllocator>
    var descriptorSizeRtv: nat
    var frameIndex: nat
    var backBufferIndex: nat
    var swapbuffers: array<Resource>
    var dsBuffer: Resource
    var rtHeap: DescriptorHeap
    var dsHeap: DescriptorHeap
    var cpuDescriptorHeap: DescriptorHeap
    var gpuDescriptorHeaps: array<DescriptorHeap>

    /** A context over given native objects and heaps, on frame 0 and back
        buffer 0. How the heaps and objects are created is not modelled. */
    constructor (list: CommandList, allocators: seq<CommandAllocator>, buffers: seq<Resource>,
                 depthBuffer: Resource, rtvSize: nat,
                 rt: DescriptorHeap, ds: DescriptorHeap, cpu: DescriptorHeap, frames: seq<DescriptorHeap>)
      requires |allocators| == 2 && |buffers| == 4 && |frames| == 2
      requires WellFormed(rt) && WellFormed(ds) && WellFormed(cpu)
      requires WellFormed(frames[0]) && WellFormed(frames[1])
      ensures Valid()
      ensures fresh(cmdalloc) && fresh(swapbuffers) && fresh(gpuDescriptorHeaps)
      ensures cmdlist == list && cmdalloc[..] == allocators && swapbuffers[..] == buffers
      ensures dsBuffer == depthBuffer && descriptorSizeRtv == rtvSize
      ensures frameIndex == 0 && backBufferIndex == 0
      ensures rtHeap == rt && dsHeap == ds && cpuDescriptorHeap == cpu
      ensures gpuDescriptorHeaps[..] == frames
    {
      cmdlist := list;
      cmdalloc := new CommandAllocator[2] (i requires 0 <= i < 2 => allocators[i]);
      descriptorSizeRtv := rtvSize;
      frameIndex, backBufferIndex := 0, 0;
      swapbuffers := new Resource[4] (i requires 0 <= i < 4 => buffers[i]);
      dsBuffer := depthBuffer;
      rtHeap, dsHeap, cpuDescriptorHeap := rt, ds, cpu;
      gpuDescriptorHeaps := new DescriptorHeap[2] (i requires 0 <= i < 2 => frames[i]);
    }

    /** Fixed array sizes, and every heap well formed. */
    ghost predicate Valid()
      reads this, gpuDescriptorHeaps
    {
      && cmdalloc.Length == 2
      && swapbuffers.Length == 4
      && gpuDescriptorHeaps.Length == 2
      && WellFormed(rtHeap)
      && WellFormed(dsHeap)
      && WellFormed(cpuDescriptorHeap)
      && WellFormed(gpuDescriptorHeaps[0])
      && WellFormed(gpuDescriptorHeaps[1])
    }

    function HeapAt(slot: HeapSlot): DescriptorHeap
      reads this, gpuDescriptorHeaps
      requires gpuDescriptorHeaps.Length == 2 && IsSlot(slot)
    {
      match slot
      case RenderTarget => rtHeap
      case DepthStencil => dsHeap
      case CpuDescriptors => cpuDescriptorHeap
      case FrameDescriptors(i) => gpuDescriptorHeaps[i]
    }

    /** Write a heap back through the reference Get_Descriptor_Heap returned. */
    method SetHeap(slot: HeapSlot, h: DescriptorHeap)
      requires Valid() && IsSlot(slot) && WellFormed(h)
      modifies this`rtHeap, this`dsHeap, this`cpuDescriptorHeap, gpuDescriptorHeaps
      ensures Valid()
      ensures HeapAt(slot) == h
      ensures forall s :: IsSlot(s) && s != slot ==> HeapAt(s) == old(HeapAt(s))
    {
      match slot
      case RenderTarget => rtHeap := h;
      case DepthStencil => dsHeap := h;
      case CpuDescriptors => cpuDescriptorHeap := h;
      case FrameDescriptors(i) => gpuDescriptorHeaps[i] := h;
    }

    /** The command allocator of the frame being recorded. */
    function CurrentCommandAllocator(): (a: CommandAllocator)
      reads this, cmdalloc
      requires cmdalloc.Length == 2 && frameIndex < 2
      ensures a in cmdalloc[..]
    {
      cmdalloc[frameIndex]
    }

    /** Get_And_Reset_Command_List: resets the current frame's allocator, then
        the command list against that same allocator, and returns the list. */
    function GetAndResetCommandList(): (r: (CommandList, seq<DeviceCall>))
      reads this, cmdalloc
      requires cmdalloc.Length == 2 && frameIndex < 2
      ensures r.0 == cmdlist
      ensures |r.1| == 2 && r.1[0].ResetAllocator?
      ensures r.1[0].allocator == CurrentCommandAllocator()
      ensures r.1[1] == ResetCommandList(cmdlist, r.1[0].allocator)
    {
      var alloc := cmdalloc[frameIndex];
      (cmdlist, [ResetAllocator(alloc), ResetCommandList(cmdlist, alloc)])
    }

    /** Bind_GPU_Descriptor_Heap: binds the current frame's shader-visible heap. */
    function BindGpuDescriptorHeap(): (call: DeviceCall)
      reads this, gpuDescriptorHeaps
      requires gpuDescriptorHeaps.Length == 2 && frameIndex < 2
      ensures call == SetDescriptorHeaps(HeapAt(FrameDescriptors(frameIndex)).native)
    {
      SetDescriptorHeaps(gpuDescriptorHeaps[frameIndex].native)
    }

    /** Get_Back_Buffer: the current swap-chain buffer and its render-target
        descriptor, slot `back_buffer_index` of the render-target heap. */
    function GetBackBuffer(): (v: BufferView)
      reads this, swapbuffers
      requires swapbuffers.Length == 4 && backBufferIndex < 4
      ensures v.buffer == swapbuffers[backBufferIndex]
      ensures v.handle == CpuHandleAt(rtHeap, backBufferIndex, descriptorSizeRtv)
    {
      var handle := rtHeap.cpuStart;
      BufferView(swapbuffers[backBufferIndex],
                 CpuHandle(handle.ptr + Wrap32(backBufferIndex * descriptorSizeRtv)))
    }

    /** Get_Depth_Stencil_Buffer: the depth buffer and the first slot of the
        depth-stencil heap. */
    function GetDepthStencilBuffer(): (v: BufferView)
      reads this
      ensures v.buffer == dsBuffer
      ensures forall descriptorSize: nat :: v.handle == CpuHandleAt(dsHeap, 0, descriptorSize)
    {
      BufferView(dsBuffer, dsHeap.cpuStart)
    }

    /** Allocate_Descriptors: reserve `count` slots in the selected heap and
        return the CPU handle of the first; only that heap's cursor moves. */
    method AllocateDescriptors(sel: HeapSelection, count: nat) returns (r: Result<CpuHandle>)
      requires Valid() && IsSlot(sel.slot)
      modifies this`rtHeap, this`dsHeap, this`cpuDescriptorHeap, gpuDescriptorHeaps
      ensures Valid()
      ensures match Reserve(old(HeapAt(sel.slot)), count, sel.descriptorSize)
        case Ok(res) => r == Ok(res.cpu) && HeapAt(sel.slot) == res.heap
        case Err(e) => r == Err(e) && HeapAt(sel.slot) == old(HeapAt(sel.slot))
      ensures forall s :: IsSlot(s) && s != sel.slot ==> HeapAt(s) == old(HeapAt(s))
    {
      var heap := HeapAt(sel.slot);
      if !(heap.size + count < heap.capacity) {
        return Err(DescriptorExhausted);
      }
      var handle := CpuHandle(heap.cpuStart.ptr + heap.size * sel.descriptorSize % U32_LIMIT);
      SetHeap(sel.slot, heap.(size := heap.size + count));
      r := Ok(handle);
    }

    /** Allocate_GPU_Descriptors: as AllocateDescriptors, also returning the
        GPU handle at the same offset from the heap's GPU base. */
    method AllocateGpuDescriptors(sel: HeapSelection, count: nat) returns (r: Result<(CpuHandle, GpuHandle)>)
      requires Valid() && IsSlot(sel.slot)
      modifies this`rtHeap, this`dsHeap, this`cpuDescriptorHeap, gpuDescriptorHeaps
      ensures Valid()
      ensures match Reserve(old(HeapAt(sel.slot)), count, sel.descriptorSize)
        case Ok(res) => r == Ok((res.cpu, res.gpu)) && HeapAt(sel.slot) == res.heap
        case Err(e) => r == Err(e) && HeapAt(sel.slot) == old(HeapAt(sel.slot))
      ensures forall s :: IsSlot(s) && s != sel.slot ==> HeapAt(s) == old(HeapAt(s))
    {
      var heap := HeapAt(sel.slot);
      if !(heap.size + count < heap.capacity) {
        return Err(DescriptorExhausted);
      }
      var offset := heap.size * sel.descriptorSize % U32_LIMIT;
      var cpu := CpuHandle(heap.cpuStart.ptr + offset);
      var gpu := GpuHandle(heap.gpuStart.ptr + offset);
      SetHeap(sel.slot, heap.(size := heap.size + count));
      r := Ok((cpu, gpu));
    }

    /** Copy_Descriptors_To_GPU: a fresh `count`-slot shader-visible allocation
        into which the device copies `count` descriptors from `srcBase`;
        returns the GPU handle of that allocation. */
    method CopyDescriptorsToGpu(sel: HeapSelection, count: nat, srcBase: CpuHandle)
      returns (r: Result<GpuHandle>, issued: seq<DeviceCall>)
      requires Valid() && IsSlot(sel.slot)
      modifies this`rtHeap, this`dsHeap, this`cpuDescriptorHeap, gpuDescriptorHeaps
      ensures Valid()
      ensures match Reserve(old(HeapAt(sel.slot)), count, sel.descriptorSize)
        case Ok(res) =>
          && r == Ok(res.gpu)
          && issued == [CopyDescriptorsSimple(count, res.cpu, srcBase)]
          && HeapAt(sel.slot) == res.heap
        case Err(e) => r == Err(e) && issued == [] && HeapAt(sel.slot) == old(HeapAt(sel.slot))
      ensures forall s :: IsSlot(s) && s != sel.slot ==> HeapAt(s) == old(HeapAt(s))
    {
      var dst := AllocateGpuDescriptors(sel, count);
      match dst
      case Err(e) =>
        r, issued := Err(e), [];
      case Ok((cpuDstBase, gpuDstBase)) =>
        issued := [CopyDescriptorsSimple(count, cpuDstBase, srcBase)];
        r := Ok(gpuDstBase);
    }
  }

  /** The back buffer's render-target descriptor is the one that one-at-a-time
      allocations from the empty render-target heap gave swap-chain buffer
      `back_buffer_index`. */
  lemma BackBufferDescriptorWasReserved(ctx: GraphicsContext, n: nat)
    requires ctx.Valid() && ctx.backBufferIndex < n && ctx.backBufferIndex < 4
    requires ReserveAll(ctx.rtHeap.(size := 0), Repeat(1, n), ctx.descriptorSizeRtv).Ok?
    ensures ctx.GetBackBuffer().handle
         == ReserveAll(ctx.rtHeap.(size := 0), Repeat(1, n), ctx.descriptorSizeRtv).value.0[ctx.backBufferIndex].cpu
  {
    SingleReservationsAreIndexed(ctx.rtHeap.(size := 0), n, ctx.backBufferIndex, ctx.descriptorSizeRtv);
  }

  /** Two frames each publish 10 descriptors into their own shader-visible
      heap: the second frame's allocations leave the first frame's heap as it
      was, and each handle lies at the base of its own heap. */
  method FramesAllocateIndependently(ctx: GraphicsContext, descriptorSize: nat)
    returns (first: Result<(CpuHandle, GpuHandle)>, second: Result<(CpuHandle, GpuHandle)>)
    requires ctx.Valid()
    requires ctx.gpuDescriptorHeaps[0].size == 0 && ctx.gpuDescriptorHeaps[0].capacity > 10
    requires ctx.gpuDescriptorHeaps[1].size == 0 && ctx.gpuDescriptorHeaps[1].capacity > 10
    modifies ctx`rtHeap, ctx`dsHeap, ctx`cpuDescriptorHeap, ctx.gpuDescriptorHeaps
    ensures ctx.Valid()
    ensures ctx.gpuDescriptorHeaps[0] == old(ctx.gpuDescriptorHeaps[0]).(size := 10)
    ensures ctx.gpuDescriptorHeaps[1] == old(ctx.gpuDescriptorHeaps[1]).(size := 10)
    ensures first == Ok((old(ctx.gpuDescriptorHeaps[0]).cpuStart, old(ctx.gpuDescriptorHeaps[0]).gpuStart))
    ensures second == Ok((old(ctx.gpuDescriptorHeaps[1]).cpuStart, old(ctx.gpuDescriptorHeaps[1]).gpuStart))
  {
    first := ctx.AllocateGpuDescriptors(HeapSelection(FrameDescriptors(0), descriptorSize), 10);
    assert ctx.HeapAt(FrameDescriptors(0)) == ctx.gpuDescriptorHeaps[0];
    ghost var frame0 := ctx.gpuDescriptorHeaps[0];
    second := ctx.AllocateGpuDescriptors(HeapSelection(FrameDescriptors(1), descriptorSize), 10);
    assert ctx.HeapAt(FrameDescriptors(0)) == frame0;
  }
}
