/** The part of the Vulkan vocabulary the wrappers use: fixed-width integers, nullable
    handles, result codes, enumerations and flag bits (with the values of the Vulkan
    headers), and the records a wrapper hands to the driver (create infos, recorded
    commands, queue submissions) or that the driver logs. */
module Vk {

  // ---------------------------------------------------------------------------
  // Fixed-width integers

  type uint32 = x: int | 0 <= x < 0x1_0000_0000
  type uint64 = x: int | 0 <= x < 0x1_0000_0000_0000_0000
  type int32 = x: int | -0x8000_0000 <= x < 0x8000_0000

  const UINT32_MAX: uint32 := 0xFFFF_FFFF

  /** `static_cast<int32_t>` of a `uint32_t`: the two's-complement reading of the bits. */
  function ToInt32(x: uint32): int32 {
    if x < 0x8000_0000 then x else x - 0x1_0000_0000
  }

  /** Any integer converted to `uint32_t`: reduction modulo 2^32 (Dafny's `%` is Euclidean,
      so a negative value wraps the way the C++ conversion does). */
  function ToUint32(x: int): uint32 {
    x % 0x1_0000_0000
  }

  // ---------------------------------------------------------------------------
  // Optional values, results and the exceptions the wrappers throw

  datatype Option<T> = None | Some(value: T)

  /** The two exception classes the wrappers throw, with the failure they report. */
  datatype Error = RuntimeError(what: Failure) | InvalidArgument(what: Failure)

  /** The failures the wrappers report, one per `throw` site message. */
  datatype Failure
    = NoVulkanGpu
    | NoGraphicQueue
    | NoPresentQueue
    | NoSuitableMemoryType
    | NoSupportedFormat
    | DeviceCreation
    | DeviceWaitIdle
    | FenceCreation
    | FenceWait
    | FenceReset
    | SemaphoreCreation
    | BufferCreation
    | BufferAllocation
    | BufferBinding
    | MemoryMapping
    | ImageCreation
    | ImageAllocation
    | TextureViewCreation
    | SamplerCreation
    | DescriptorPoolCreation
    | DescriptorSetAllocation
    | DescriptorSetLayoutCreation
    | SwapchainCreation
    | SwapchainImages
    | SwapchainViewCreation
    | ImageAcquisition
    | Presentation
    | FramebufferCreation
    | CommandPoolCreation
    | CommandBufferAllocation
    | RecordingBegin
    | RecordingEnd
    | CommandBufferReset
    | UnsupportedTransition
    | DrawSubmission
    | TextureLoading

  /** The message each failure is thrown with. */
  function Message(f: Failure): string
  {
    match f
      case NoVulkanGpu => "failed to find GPUs with Vulkan support!"
      case NoGraphicQueue => "unable to find graphic queue with required properties"
      case NoPresentQueue => "unable to find present queue with required properties"
      case NoSuitableMemoryType => "failed to find suitable memory type!"
      case NoSupportedFormat => "failed to find supported format!"
      case DeviceCreation => "failed to create logical device!"
      case DeviceWaitIdle => "unable to wait idle for this device"
      case FenceCreation => "failed to create Fence"
      case FenceWait => "wait for fence failed"
      case FenceReset => "unable to reset fence"
      case SemaphoreCreation => "unable to create semaphore"
      case BufferCreation => "failed to create the buffer"
      case BufferAllocation => "failed to allocate memory to the buffer"
      case BufferBinding => "failed to bind memory to the buffer"
      case MemoryMapping => "unable to map memory"
      case ImageCreation => "failed to create image!"
      case ImageAllocation => "failed to allocate image memory!"
      case TextureViewCreation => "failed to create texture image view!"
      case SamplerCreation => "failed to create texture sampler!"
      case DescriptorPoolCreation => "failed to create descriptor pool!"
      case DescriptorSetAllocation => "failed to allocate descriptorSet"
      case DescriptorSetLayoutCreation => "failed to create descriptor set layout"
      case SwapchainCreation => "unable to create swapchain"
      case SwapchainImages => "unable to create swapchain images"
      case SwapchainViewCreation => "failed to create image views!"
      case ImageAcquisition => "unable to acquire next image"
      case Presentation => "unable to present to the swapchain"
      case FramebufferCreation => "unable to create framebuffer!"
      case CommandPoolCreation => "failed to create command pool!"
      case CommandBufferAllocation => "failed to allocate command buffers!"
      case RecordingBegin => "failed to begin recording command buffer!"
      case RecordingEnd => "failed to end command buffer!"
      case CommandBufferReset => "unable to reset command buffer"
      case UnsupportedTransition => "unsupported layout transition!"
      case DrawSubmission => "unable to submit draw command buffer!"
      case TextureLoading => "failed to load texture image!"
  }

  /** The value of an operation that either returns or throws. */
  datatype Result<T> = Ok(value: T) | Err(error: Error)

  /** The outcome of a `void` operation that may throw. */
  datatype Outcome = Pass | Fail(error: Error)

  // ---------------------------------------------------------------------------
  // Handles and result codes

  /** A non-dispatchable Vulkan handle: `VK_NULL_HANDLE` or a native object. */
  datatype Handle = Null | Native(id: nat)

  /** A `VkQueue`: the null queue, or queue `index` of queue family `family`. */
  datatype QueueHandle = NullQueue | DeviceQueue(family: uint32, index: nat)

  /** A `VkResult`: success, the other non-error codes, or an error code. */
  datatype VkResult = VkSuccess | VkNotReady | VkTimeout | VkSuboptimal | VkError(code: int)

  /** The ids of the non-null handles among `hs`. */
  function Ids(hs: seq<Handle>): (s: set<nat>)
    ensures forall h :: h in hs && h.Native? ==> h.id in s
    ensures forall id :: id in s ==> Native(id) in hs
  {
    set h | h in hs && h.Native? :: h.id
  }

  // ---------------------------------------------------------------------------
  // Enumerations

  datatype ImageLayout =
    | LayoutUndefined
    | LayoutGeneral
    | LayoutColorAttachmentOptimal
    | LayoutDepthStencilAttachmentOptimal
    | LayoutShaderReadOnlyOptimal
    | LayoutTransferSrcOptimal
    | LayoutTransferDstOptimal
    | LayoutPresentSrc

  /** `VkFormat` values. */
  type Format = nat
  const FORMAT_R8G8B8A8_SRGB: Format := 43
  const FORMAT_B8G8R8A8_SRGB: Format := 50
  const FORMAT_D32_SFLOAT: Format := 126
  const FORMAT_D24_UNORM_S8_UINT: Format := 129
  const FORMAT_D32_SFLOAT_S8_UINT: Format := 130

  /** `VkColorSpaceKHR` values. */
  type ColorSpace = nat
  const COLOR_SPACE_SRGB_NONLINEAR: ColorSpace := 0

  /** `VkImageTiling` values. */
  type ImageTiling = nat
  const TILING_OPTIMAL: ImageTiling := 0
  const TILING_LINEAR: ImageTiling := 1

  /** `VkDescriptorType` values. */
  type DescriptorType = nat
  const DESCRIPTOR_COMBINED_IMAGE_SAMPLER: DescriptorType := 1
  const DESCRIPTOR_UNIFORM_BUFFER: DescriptorType := 6

  /** `VkIndexType` values. */
  const INDEX_TYPE_UINT16: nat := 0

  // ---------------------------------------------------------------------------
  // Flag bits

  const ACCESS_NONE: bv32 := 0
  const ACCESS_SHADER_READ: bv32 := 0x20
  const ACCESS_TRANSFER_READ: bv32 := 0x800
  const ACCESS_TRANSFER_WRITE: bv32 := 0x1000

  const STAGE_TOP_OF_PIPE: bv32 := 0x1
  const STAGE_FRAGMENT_SHADER: bv32 := 0x80
  const STAGE_COLOR_ATTACHMENT_OUTPUT: bv32 := 0x400
  const STAGE_TRANSFER: bv32 := 0x1000

  const MEMORY_DEVICE_LOCAL: bv32 := 0x1
  const MEMORY_HOST_VISIBLE: bv32 := 0x2
  const MEMORY_HOST_COHERENT: bv32 := 0x4

  const FORMAT_FEATURE_DEPTH_STENCIL_ATTACHMENT: bv32 := 0x200

  const FENCE_CREATE_SIGNALED: bv32 := 0x1
  const COMMAND_BUFFER_USAGE_ONE_TIME_SUBMIT: bv32 := 0x1
  const COMMAND_POOL_CREATE_RESET_COMMAND_BUFFER: bv32 := 0x2

  const SHADER_STAGE_VERTEX: bv32 := 0x1
  const SHADER_STAGE_FRAGMENT: bv32 := 0x10

  const BUFFER_USAGE_TRANSFER_SRC: bv32 := 0x1
  const BUFFER_USAGE_UNIFORM: bv32 := 0x10
  const BUFFER_USAGE_INDEX: bv32 := 0x40
  const BUFFER_USAGE_VERTEX: bv32 := 0x80

  const IMAGE_USAGE_TRANSFER_SRC: bv32 := 0x1
  const IMAGE_USAGE_TRANSFER_DST: bv32 := 0x2
  const IMAGE_USAGE_SAMPLED: bv32 := 0x4
  const IMAGE_USAGE_COLOR_ATTACHMENT: bv32 := 0x10

  /** `VkSharingMode` and `VkPresentModeKHR` values. */
  const SHARING_EXCLUSIVE: nat := 0
  const PRESENT_MODE_FIFO: nat := 2

  // ---------------------------------------------------------------------------
  // Plain records

  datatype Extent2D = Extent2D(width: uint32, height: uint32)

  /** The far corner of a blit region (the near corner is always the origin, depth 0..1). */
  datatype Offset2D = Offset2D(x: int32, y: int32)

  /** A `VkImageMemoryBarrier` on the colour aspect of array layer 0, with both queue-family
      indices `VK_QUEUE_FAMILY_IGNORED`; only the fields the wrappers vary are kept. */
  datatype ImageBarrier = ImageBarrier(
    image: Handle,
    oldLayout: ImageLayout, newLayout: ImageLayout,
    srcAccess: bv32, dstAccess: bv32,
    baseMipLevel: uint32, levelCount: uint32)

  /** A `VkBufferCopy` region. */
  datatype BufferCopy = BufferCopy(srcOffset: uint64, dstOffset: uint64, size: uint64)

  /** A command recorded into a command buffer by one `vkCmd*` call. Viewport values are
      floating point in the source; here a viewport is the extent it covers. */
  datatype Cmd =
    | PipelineBarrier(srcStage: bv32, dstStage: bv32, barrier: ImageBarrier)
    | BlitImage(image: Handle, srcLevel: uint32, srcEnd: Offset2D, dstLevel: uint32, dstEnd: Offset2D)
    | CopyBuffer(src: Handle, dst: Handle, region: BufferCopy)
    | CopyBufferToImage(buffer: Handle, image: Handle, layout: ImageLayout, width: uint32, height: uint32)
    | BeginRenderPass(renderPass: Handle, framebuffer: Handle, area: Extent2D)
    | EndRenderPass
    | BindPipeline(pipeline: Handle)
    | BindVertexBuffer(buffer: Handle)
    | BindIndexBuffer(buffer: Handle, indexType: nat)
    | BindDescriptorSet(pipelineLayout: Handle, descriptorSet: Handle)
    | SetViewport(area: Extent2D)
    | SetScissor(area: Extent2D)
    | Draw(vertexCount: uint32, instanceCount: uint32)
    | DrawIndexed(indexCount: uint32, instanceCount: uint32)

  /** One `VkSubmitInfo` with a single command buffer, handed to `vkQueueSubmit`. */
  datatype Submission = Submission(
    queue: QueueHandle, commandBuffer: Handle,
    waits: seq<Handle>, waitStage: bv32, signals: seq<Handle>, fence: Handle)

  /** A `VkDescriptorSetLayoutBinding` (no immutable samplers). */
  datatype LayoutBinding = LayoutBinding(
    binding: uint32, descriptorType: DescriptorType, descriptorCount: uint32, stageFlags: bv32)

  datatype DescriptorBufferInfo = DescriptorBufferInfo(buffer: Handle, offset: uint64, range: uint64)
  datatype DescriptorImageInfo = DescriptorImageInfo(sampler: Handle, imageView: Handle, layout: ImageLayout)

  /** A `VkWriteDescriptorSet` with the info it points to (or `None` for a null pointer). */
  datatype DescriptorWrite = DescriptorWrite(
    dstSet: Handle, dstBinding: uint32, dstArrayElement: uint32, descriptorCount: uint32,
    descriptorType: DescriptorType,
    imageInfo: Option<DescriptorImageInfo>, bufferInfo: Option<DescriptorBufferInfo>)

  datatype QueueCreateInfo = QueueCreateInfo(queueFamilyIndex: uint32, queueCount: nat)

  datatype PoolSize = PoolSize(descriptorType: DescriptorType, descriptorCount: uint32)

  // ---------------------------------------------------------------------------
  // What a native object was created from

  datatype ObjectType =
    | TypeBuffer | TypeDeviceMemory | TypeImage | TypeImageView | TypeSampler
    | TypeFence | TypeSemaphore | TypeCommandPool | TypeCommandBuffer
    | TypeDescriptorPool | TypeDescriptorSet | TypeDescriptorSetLayout
    | TypeSwapchain | TypeFramebuffer | TypeDevice

  /** The create (or allocate) info a `vkCreate*`/`vkAllocate*` call receives. */
  datatype CreateInfo =
    | BufferInfo(size: uint64, usage: bv32, sharingMode: nat)
    | MemoryInfo(allocationSize: uint64, memoryTypeIndex: nat)
    | ImageInfo(width: uint32, height: uint32, format: Format, tiling: ImageTiling, usage: bv32, mipLevels: uint32)
    | ImageViewInfo(image: Handle, format: Format)
    | SamplerInfo
    | FenceInfo(flags: bv32)
    | SemaphoreInfo
    | CommandPoolInfo(flags: bv32, queueFamilyIndex: uint32)
    | CommandBufferInfo(pool: Handle)
    | DescriptorPoolInfo(maxSets: uint32, poolSizes: seq<PoolSize>)
    | DescriptorSetInfo(pool: Handle, layout: Handle)
    | DescriptorSetLayoutInfo(bindings: seq<LayoutBinding>)
    | SwapchainInfo(minImageCount: uint32, format: Format, colorSpace: ColorSpace, extent: Extent2D,
                    queueFamilyIndices: seq<uint32>, sharingMode: nat, presentMode: nat)
    | FramebufferInfo(renderPass: Handle, attachments: seq<Handle>, width: uint32, height: uint32, layers: nat)
    | DeviceInfo(queueCreateInfos: seq<QueueCreateInfo>)

  /** A fence created with the signaled flag starts out signaled. */
  predicate StartsSignaled(info: CreateInfo) {
    info.FenceInfo? && info.flags & FENCE_CREATE_SIGNALED != 0
  }

  /** `info` creates an object of type `t`. */
  predicate Creates(info: CreateInfo, t: ObjectType) {
    match t
    case TypeBuffer => info.BufferInfo?
    case TypeDeviceMemory => info.MemoryInfo?
    case TypeImage => info.ImageInfo?
    case TypeImageView => info.ImageViewInfo?
    case TypeSampler => info.SamplerInfo?
    case TypeFence => info.FenceInfo?
    case TypeSemaphore => info.SemaphoreInfo?
    case TypeCommandPool => info.CommandPoolInfo?
    case TypeCommandBuffer => info.CommandBufferInfo?
    case TypeDescriptorPool => info.DescriptorPoolInfo?
    case TypeDescriptorSet => info.DescriptorSetInfo?
    case TypeDescriptorSetLayout => info.DescriptorSetLayoutInfo?
    case TypeSwapchain => info.SwapchainInfo?
    case TypeFramebuffer => info.FramebufferInfo?
    case TypeDevice => info.DeviceInfo?
  }

  // ---------------------------------------------------------------------------
  // The driver's log

  /** A Vulkan call other than a create, a destroy or a command recording. */
  datatype Call =
    | VkWaitForFences(fence: Handle)
    | VkResetFences(fence: Handle)
    | VkAcquireNextImage(swapchain: Handle, semaphore: Handle, fence: Handle)
    | VkQueuePresent(queue: QueueHandle, waits: seq<Handle>, swapchain: Handle, imageIndex: nat)
    | VkQueueSubmit(submission: Submission)
    | VkQueueWaitIdle(queue: QueueHandle)
    | VkDeviceWaitIdle
    | VkBeginCommandBuffer(commandBuffer: Handle, flags: bv32)
    | VkEndCommandBuffer(commandBuffer: Handle)
    | VkResetCommandBuffer(commandBuffer: Handle)
    | VkBindMemory(resource: Handle, memory: Handle)
    | VkMapMemory(memory: Handle, offset: uint64, size: uint64)
    | VkUnmapMemory(memory: Handle)
    | VkGetSwapchainImages(swapchain: Handle)
    | VkUpdateDescriptorSets(writes: seq<DescriptorWrite>)

  /** One entry of the driver's log; every driver entry point appends exactly one. */
  datatype Event =
    | Created(id: nat, info: CreateInfo)
    | CreateFailed(info: CreateInfo, result: VkResult)
    | Destroyed(kind: ObjectType, id: nat)
    | Called(call: Call, result: VkResult)

  /** The log entry a destructor leaves for one handle field: one destroy call when the
      handle is non-null, nothing for the null sentinel. */
  function DestroyEvents(kind: ObjectType, h: Handle): (es: seq<Event>)
    ensures h == Null <==> es == []
    ensures h.Native? ==> es == [Destroyed(kind, h.id)]
  {
    if h.Native? then [Destroyed(kind, h.id)] else []
  }

  /** No native handle occurs twice in `hs`. */
  predicate DistinctNative(hs: seq<Handle>) {
    forall i, j :: 0 <= i < j < |hs| && hs[i].Native? ==> hs[i] != hs[j]
  }

  /** Appending a handle adds its id, if it has one. */
  lemma IdsAppend(hs: seq<Handle>, h: Handle)
    ensures Ids(hs + [h]) == Ids(hs) + (if h.Native? then {h.id} else {})
  {
    assert (hs + [h])[|hs|] == h;
    forall id | id in Ids(hs)
      ensures id in Ids(hs + [h])
    {
      var k :| 0 <= k < |hs| && hs[k] == Native(id);
      assert (hs + [h])[k] == hs[k];
    }
  }

  /** The log entries of a destructor loop over the handles `hs`: one destroy for each
      non-null entry, in order. */
  function DestroyAllEvents(kind: ObjectType, hs: seq<Handle>): (es: seq<Event>)
    ensures |es| <= |hs|
  {
    if hs == [] then [] else DestroyAllEvents(kind, hs[..|hs| - 1]) + DestroyEvents(kind, hs[|hs| - 1])
  }

  /** The destructor loop destroys exactly the non-null handles of `hs`. */
  lemma {:induction false} DestroyAllEventsExactly(kind: ObjectType, hs: seq<Handle>)
    ensures forall e :: e in DestroyAllEvents(kind, hs) ==> e.Destroyed? && e.kind == kind && Native(e.id) in hs
    ensures forall h :: h in hs && h.Native? ==> Destroyed(kind, h.id) in DestroyAllEvents(kind, hs)
  {
    if hs != [] {
      var init, last := hs[..|hs| - 1], hs[|hs| - 1];
      DestroyAllEventsExactly(kind, init);
      assert hs == init + [last];
      forall h | h in hs && h.Native?
        ensures Destroyed(kind, h.id) in DestroyAllEvents(kind, hs)
      {
        if h != last {
          assert h in init;
        }
      }
    }
  }

  /** The ids of the non-null entries of `hs`, in order: a reference for the destructor
      loop, built from the front. */
  function NativeIds(hs: seq<Handle>): (ids: seq<nat>)
    ensures |ids| <= |hs|
  {
    if hs == [] then [] else (if hs[0].Native? then [hs[0].id] else []) + NativeIds(hs[1..])
  }

  /** Appending a handle appends its id, if it has one. */
  lemma {:induction false} NativeIdsAppend(hs: seq<Handle>, h: Handle)
    ensures NativeIds(hs + [h]) == NativeIds(hs) + (if h.Native? then [h.id] else [])
  {
    if hs != [] {
      assert (hs + [h])[1..] == hs[1..] + [h];
      NativeIdsAppend(hs[1..], h);
    }
  }

  /** An id is listed exactly when its handle occurs, and no id is listed twice when no
      native handle occurs twice. */
  lemma {:induction false} NativeIdsMembers(hs: seq<Handle>)
    ensures forall id :: id in NativeIds(hs) <==> Native(id) in hs
    ensures DistinctNative(hs) ==> forall i, j :: 0 <= i < j < |NativeIds(hs)| ==> NativeIds(hs)[i] != NativeIds(hs)[j]
  {
    if hs != [] {
      var rest := hs[1..];
      NativeIdsMembers(rest);
      assert hs == [hs[0]] + rest;
      if DistinctNative(hs) {
        assert DistinctNative(rest) by {
          forall i, j | 0 <= i < j < |rest| && rest[i].Native?
            ensures rest[i] != rest[j]
          {
            assert rest[i] == hs[i + 1] && rest[j] == hs[j + 1];
          }
        }
        if hs[0].Native? {
          forall j | 0 <= j < |rest|
            ensures rest[j] != hs[0]
          {
            assert rest[j] == hs[j + 1];
          }
        }
      }
    }
  }

  /** The destructor loop destroys, in order, exactly the non-null handles of `hs`: one
      destroy entry per listed id, each at that id's position. */
  lemma {:induction false} DestroyAllEventsInOrder(kind: ObjectType, hs: seq<Handle>)
    ensures var es, ids := DestroyAllEvents(kind, hs), NativeIds(hs);
      |es| == |ids| && forall k :: 0 <= k < |es| ==> es[k] == Destroyed(kind, ids[k])
  {
    if hs != [] {
      var init, last := hs[..|hs| - 1], hs[|hs| - 1];
      DestroyAllEventsInOrder(kind, init);
      assert hs == init + [last];
      NativeIdsAppend(init, last);
    }
  }

  /** Over null handles only, the destructor loop leaves no entry: a second run is a no-op. */
  lemma {:induction false} DestroyAllEventsOfNulls(kind: ObjectType, hs: seq<Handle>)
    requires forall k :: 0 <= k < |hs| ==> hs[k] == Null
    ensures DestroyAllEvents(kind, hs) == []
  {
    if hs != [] {
      DestroyAllEventsOfNulls(kind, hs[..|hs| - 1]);
    }
  }
}
