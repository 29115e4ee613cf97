# Descriptor-heap allocation in the graphics context

This project models the descriptor-heap bump allocator of a Direct3D 12 graphics
context (`Library.h`). It also models the per-frame slot selection and the
buffer/descriptor accessors beside the allocator.

- **Descriptor heap** (`DescriptorHeaps.DescriptorHeap`): a fixed-capacity run of
  descriptor slots. It has a CPU base handle, a GPU base handle, a cursor `size`
  and a `capacity`. It is a value embedded in the context, as in the source.
- **Allocation** (`DescriptorHeaps.Reserve`): reserves `count` contiguous slots at
  the cursor when `size + count < capacity`, with the strict inequality of the
  source. The CPU and GPU handles are `start + size * descriptor_size`, with the
  product taken in u32. The cursor then advances by `count`. A failed check is an
  assertion failure in the source, so it is fatal. The model returns it as
  `Err(DescriptorExhausted)` and leaves the heap as it was.
- **Graphics context** (`GraphicsContexts.GraphicsContext`): a class holding:
  - the two command allocators;
  - the four swap-chain buffers;
  - the depth-stencil buffer;
  - the render-target, depth-stencil and CPU-only heaps;
  - one shader-visible heap per frame in flight.

  `AllocateDescriptors`, `AllocateGpuDescriptors` and `CopyDescriptorsToGpu`
  update the selected heap in place. Each is proved equal to `Reserve` on that
  heap, and every other heap is proved unchanged.
- **Heap selection**: `Get_Descriptor_Heap` is only declared in the source. The
  model therefore takes its result as a parameter (`HeapSelection`: which of the
  context's heaps, and the descriptor size of its type).
- **Native calls**: `ID3D12CommandAllocator::Reset`,
  `ID3D12GraphicsCommandList::Reset`, `CopyDescriptorsSimple` and
  `SetDescriptorHeaps` are returned as `DeviceCall` values. Their effects are
  not modelled.

The strict capacity check is kept as the code has it. On an empty heap of 256
slots, 63 allocations of 4 descriptors go through and the 64th is refused,
even though it would exactly fill the heap (`StrictCapacityBoundary`). A
reading in which the 64th call succeeds does not match the code, and the model
follows the code.

## Model

| member | source | states |
|---|---|---|
| `DescriptorHeaps.Wrap32` | Library.h:62-63 | u32 arithmetic: the result is a u32 and equals the exact value when that is below 2^32 |
| `DescriptorHeaps.Reserve` | Library.h:62-64 | refused exactly when `size + count` reaches the capacity; on success the first slot is the old cursor, the cursor advances by exactly `count` and stays strictly below the capacity, nothing else in the heap changes, and the CPU and GPU handles sit at the same offset `size * descriptor_size` from their bases |
| `DescriptorHeaps.ReserveAll` | Library.h:57-65 | a successful run of allocations yields one reservation per requested count |
| `DescriptorHeaps.ReserveAllPrefixSums` | Library.h:63-64 | after a run, the cursor equals the initial cursor plus the sum of the counts; the k-th allocation starts at the initial cursor plus the counts before it, and its CPU and GPU handles point at that slot |
| `DescriptorHeaps.ReserveAllSucceedsIff` | Library.h:62 | a run of allocations succeeds if and only if it is empty or the initial cursor plus all counts stays strictly below the capacity |
| `DescriptorHeaps.ReservedRangesDisjoint` | Library.h:63-64 | the slot ranges `[first, first + count)` of a run are pairwise disjoint, in allocation order, and all end below the capacity |
| `DescriptorHeaps.SlotOffsetExact` | Library.h:63 | when `capacity * descriptor_size` fits in a u32, the u32 offset of any slot of the heap is exact |
| `DescriptorHeaps.ReservedAddressesDisjoint` | Library.h:74-75 | when `capacity * descriptor_size` fits in a u32, each allocation's CPU and GPU address ranges end at or before the next allocation's start |
| `DescriptorHeaps.RepeatedReservationsSucceedIff` | Library.h:62 | `n` allocations of `c` descriptors succeed if and only if `n == 0` or `size + n * c < capacity` |
| `DescriptorHeaps.StrictCapacityBoundary` | Library.h:62 | on an empty 256-slot heap, 63 allocations of 4 succeed (cursor at 252) and the 64th is refused |
| `DescriptorHeaps.SingleReservationsAreIndexed` | Library.h:63-64 | one-descriptor allocations from an empty heap give descriptor k the handle of slot k |
| `GraphicsContexts.GraphicsContext.constructor` | Library.h:12-33 | a context built from two allocators, four swap-chain buffers, a depth buffer and five well-formed heaps satisfies the context invariant, starting on frame 0 and back buffer 0 |
| `GraphicsContexts.GraphicsContext.SetHeap` | Library.h:64 | writing through the selected heap's reference changes that heap only, and keeps every heap well formed |
| `GraphicsContexts.GraphicsContext.CurrentCommandAllocator` | Library.h:52 | the allocator used is one of the context's two allocators (`frame_index < 2`) |
| `GraphicsContexts.GraphicsContext.GetAndResetCommandList` | Library.h:49-55 | returns the context's command list after resetting the current frame's allocator, then the list against that same allocator |
| `GraphicsContexts.GraphicsContext.BindGpuDescriptorHeap` | Library.h:105-109 | binds the native heap of the current frame's shader-visible heap |
| `GraphicsContexts.GraphicsContext.GetBackBuffer` | Library.h:90-96 | returns swap-chain buffer `back_buffer_index` and the render-target descriptor at slot `back_buffer_index` of the render-target heap; the context is not changed |
| `GraphicsContexts.GraphicsContext.GetDepthStencilBuffer` | Library.h:98-103 | returns the depth buffer and slot 0 of the depth-stencil heap, whatever the descriptor size; the context is not changed |
| `GraphicsContexts.GraphicsContext.AllocateDescriptors` | Library.h:57-65 | the result and the selected heap's new state are those of `Reserve` on the old heap; every other heap is unchanged; the context stays valid |
| `GraphicsContexts.GraphicsContext.AllocateGpuDescriptors` | Library.h:67-78 | as `AllocateDescriptors`, returning both the CPU and the GPU handle of the reservation |
| `GraphicsContexts.GraphicsContext.CopyDescriptorsToGpu` | Library.h:80-88 | returns the GPU handle of a fresh `count`-slot reservation in the selected heap and issues one copy of `count` descriptors from the source handle into that reservation's CPU handle; on exhaustion nothing is issued and no heap changes |
| `GraphicsContexts.BackBufferDescriptorWasReserved` | Library.h:93-95 | the back buffer's render-target handle is the one that one-at-a-time allocations from the empty render-target heap gave buffer `back_buffer_index` |
| `GraphicsContexts.FramesAllocateIndependently` | Library.h:67-78 | two frames allocating 10 descriptors each in their own shader-visible heaps get each heap's base handles, and each heap's cursor ends at 10, unaffected by the other frame |
| `CapacityOverflow.ReserveAsWritten` | Library.h:62-64 | the capacity check and cursor update in u32 arithmetic: admitted exactly when the wrapped sum is below the capacity; the new cursor is that wrapped sum, and the CPU and GPU handles are those of the old cursor's slot |
| `CapacityOverflow.AsWrittenAgreesWithoutWrap` | Library.h:62 | where `size + count` does not wrap, the u32 check behaves exactly as the intended check |
| `CapacityOverflow.AsWrittenRewindsCursor` | Library.h:62-64 | a count of 2^32 - 4 passes the wrapping check, rewinds the cursor from 8 to 4, and the next allocation starts inside an earlier one; the intended check refuses that count |

The helpers `DescriptorHeaps.SlotOffset`, `DescriptorHeaps.CpuHandleAt` and
`DescriptorHeaps.GpuHandleAt` compute the u32 handle arithmetic of Library.h:63,
74-75 and 95. Their behaviour is stated by the `Reserve`, `ReserveAllPrefixSums`
and `GetBackBuffer` rows. `GraphicsContexts.GraphicsContext.HeapAt` names the
heap that the reference from `Get_Descriptor_Heap` points to (Library.h:61, 71).
It is stated by the `SetHeap` and allocation-method rows.

## Findings

| source | as written | input that shows it | evidently intended | confidence | as-written member | corrected member |
|---|---|---|---|---|---|---|
| Library.h:62-64 | `heap.size + count` is computed in u32 before the comparison with `capacity`, and `heap.size += count` wraps the same way | a 256-slot heap with 8 slots in use and `count = 0xFFFFFFFC`: the sum wraps to 4, the check passes and the cursor falls back to 4, so the next allocation of 4 reuses slots 4 to 7 of the first allocation | refuse any allocation whose true end `size + count` reaches the capacity, so the cursor only moves forward and ranges never overlap | high; not executed | `CapacityOverflow.AsWrittenRewindsCursor` | `DescriptorHeaps.Reserve` |

## Left out

- Reserve: `count` is an unbounded natural, not a u32. Together with the exact sum this gives the intended check of the Findings table. The wrapping check is `CapacityOverflow.ReserveAsWritten`.
- A failed capacity assertion terminates the program. The model returns `Err` and leaves the heap unchanged. In a build with assertions compiled out, the source would go on and allocate past the capacity. That case is not modelled.
- Handle pointers are unbounded naturals. A wrap of the 64-bit pointer addition `start + offset` is not modelled.
- `Get_Descriptor_Heap` (Library.h:37) is declared only. Its selection policy, and whether it picks the current frame's shader-visible heap, is not part of this model. Its result is a parameter.
- Descriptor contents are not modelled: `CopyDescriptorsSimple` is a foreign device call. The model records the call and its arguments, not the bytes it copies.
- The effects of `ID3D12CommandAllocator::Reset`, `ID3D12GraphicsCommandList::Reset` and `SetDescriptorHeaps` are not modelled. They are foreign calls and are returned as `DeviceCall` values.
- `Init_Graphics_Context`, `Shutdown_Graphics_Context`, `Present_Frame` and `Wait_For_GPU` (Library.h:35-39) are declared only, with no bodies. The following are therefore not modelled:
  - fence signalling and waiting, `frame_count`, `frame_fence` and `frame_fence_event`;
  - the rotation of `frame_index` and `back_buffer_index`;
  - the per-frame reset of the shader-visible heaps;
  - heap creation and capacities.
- `frame_index < 2` and `back_buffer_index < 4` are preconditions of the accessors that index with them, not invariants of the context. The code that maintains them is not shown.
- The context fields `device`, `cmdqueue`, `swapchain`, `resolution` and `descriptor_size` are not modelled. `device` is read only to issue the foreign copy in `Copy_Descriptors_To_GPU`. The model records that call without the device. No modelled helper reads the other four.
- `Load_File`, `Update_Frame_Stats`, `Get_Time`, `Create_Window`, `Mem_Alloc`, `Mem_Realloc` and `Mem_Free` (Library.h:41-47) are not modelled. They are file, timing, window and memory shims with no bodies here.
